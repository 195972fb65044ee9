/**
 * Client scenarios of the store, showing what callers can conclude from its contracts alone.
 */
module Scenarios {
  import opened Options
  import opened Errors
  import opened Retrying
  import opened Entities
  import opened Learning

  /**
   * A course added against category 1 keeps that category after category 1 is deleted
   * and after another course is updated: category changes never re-resolve cached courses.
   */
  method StaleCategoryAfterDelete() returns (store: LearningStore, algebra: Course)
    ensures |store.courses| == 2 && store.courses[0] == algebra
    ensures algebra.category == Some(Category(1, "Math"))
    ensures store.GetCategoryById(1) == None && store.error == None
  {
    store := new LearningStore();
    store.LoadCategories(Ok([Category(1, "Math")]));
    algebra := new Course(0, "Algebra", "d", Some(1));
    var created := [Ok(algebra), Ok(algebra), Ok(algebra)];
    assert Retry(created, Retries) == Ok(algebra);
    store.AddCourse(algebra, created);
    assert store.courses == [algebra] && algebra.category == Some(Category(1, "Math"));

    var geometry := new Course(7, "Geometry", "g", Some(1));
    var alsoCreated := [Ok(geometry), Ok(geometry), Ok(geometry)];
    assert Retry(alsoCreated, Retries).Ok?;
    store.AddCourse(geometry, alsoCreated);
    assert store.courses == [algebra, geometry];

    var deleted := [Ok(()), Ok(()), Ok(())];
    assert Retry(deleted, Retries).Ok?;
    store.DeleteCategory(1, deleted);
    assert store.courses == [algebra, geometry] && algebra.category == Some(Category(1, "Math"));

    var renamed := new Course(7, "Geometry II", "g", None);
    var updated := [Ok(renamed), Ok(renamed), Ok(renamed)];
    assert Retry(updated, Retries) == Ok(renamed);
    store.UpdateCourse(updated);
    assert store.courses == [algebra, renamed];
  }

  /** A create call that fails twice and then succeeds adds the course with no error. */
  method ThirdAttemptSucceeds(failure: Thrown) returns (store: LearningStore, course: Course)
    ensures store.courses == [course] && store.error == None && !store.loading
  {
    store := new LearningStore();
    course := new Course(0, "Algebra", "d", None);
    var replies := [Fail(failure), Fail(failure), Ok(course)];
    RetrySettles(replies, Retries);
    store.AddCourse(course, replies);
  }

  /**
   * A create call that fails on all three attempts adds nothing and surfaces the last
   * error; a fourth reply is never consulted.
   */
  method ThreeFailuresSurfaceError(first: Thrown, last: Thrown, unused: Course)
    returns (store: LearningStore, course: Course)
    ensures store.courses == [] && !store.loading
    ensures store.error == Some(FormatError(last, CreateCourseFallback))
    ensures last.OtherValue? ==> store.error == Some("Failed to create course")
  {
    store := new LearningStore();
    course := new Course(0, "Algebra", "d", None);
    var replies := [Fail(first), Fail(first), Fail(last), Ok(unused)];
    RetrySettles(replies, Retries);
    store.AddCourse(course, replies);
  }

  /**
   * Courses built as the course form builds new ones carry id 0, and the store appends
   * them as given: two of them share an id, and the id the server assigned finds neither.
   */
  method AddedCoursesKeepInputId(server: Course) returns (store: LearningStore, a: Course, b: Course)
    ensures store.courses == [a, b] && a.id == b.id == 0
    ensures server.id != 0 ==> store.GetCourseById(server.id) == None
  {
    store := new LearningStore();
    a := new Course(0, "Algebra", "d", None);
    b := new Course(0, "Geometry", "g", None);
    store.AddCourse(a, [Ok(server), Ok(server), Ok(server)]);
    store.AddCourse(b, [Ok(server), Ok(server), Ok(server)]);
  }
}
