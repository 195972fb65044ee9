/**
 * The learning store: an in-memory cache of courses and categories kept in step with a
 * remote gateway, with a loading flag and a single error slot.
 */
module Learning {
  import opened Options
  import opened Errors
  import opened Retrying
  import opened Collections
  import opened Entities

  // The fallback text each operation hands to FormatError.
  const LoadCoursesFallback := "Failed to load courses"
  const LoadCategoriesFallback := "Failed to load categories"
  const CreateCourseFallback := "Failed to create course"
  const CreateCategoryFallback := "Failed to create category"
  const UpdateCategoryFallback := "Failed to update category"
  /** The store reports a failed course update with the category text. */
  const UpdateCourseFallback := "Failed to update category"
  const DeleteCourseFallback := "Failed to delete course"
  const DeleteCategoryFallback := "Failed to delete category"

  /**
   * The relation resolver: the category that the foreign key `categoryId` designates among
   * `categories` (the first with that id), or none when the key is absent, 0, or dangling.
   */
  function ResolveCategory(categoryId: Option<int>, categories: seq<Category>): (r: Option<Category>)
    ensures var k := categoryId.GetOr(0);
      r.None? <==> k == 0 || forall i :: 0 <= i < |categories| ==> categories[i].id != k
    ensures r.Some? ==> categoryId == Some(r.value.id) && r.value.id != 0 && r.value in categories
    ensures var k := categoryId.GetOr(0);
      forall n :: 0 <= n < |categories| && k != 0 && categories[n].id == k &&
                  (forall j :: 0 <= j < n ==> categories[j].id != k) ==>
                  r == Some(categories[n])
  {
    var k := categoryId.GetOr(0);
    if k != 0 then LookupById(categories, CategoryId, k) else None
  }

  /** A course's resolved category, when it has one, carries the course's foreign key. */
  ghost predicate LinkConsistent(c: Course)
    reads c
  {
    c.category.Some? ==> c.categoryId == Some(c.category.value.id) && c.category.value.id != 0
  }

  /** The course objects a course update may change: the one the gateway returned, if it succeeded. */
  function ReturnedCourse(replies: seq<Reply<Course>>): set<Course>
    requires Retries < |replies|
  {
    var reply := Retry(replies, Retries);
    if reply.Ok? then {reply.value} else {}
  }

  /** The course objects a course load may change: those it fetched. */
  function FetchedCourses(reply: Reply<seq<Course>>): seq<Course>
  {
    if reply.Ok? then reply.value else []
  }

  /**
   * Lookups are derived views: reading one twice with no change to the store in between
   * gives the same entity, in the same state.
   */
  twostate lemma ReadsAreStable(store: LearningStore, id: int)
    requires unchanged(store) && unchanged(store.courses)
    ensures store.GetCategoryById(id) == old(store.GetCategoryById(id))
    ensures store.GetCourseById(id) == old(store.GetCourseById(id))
    ensures store.GetCourseById(id).Some? ==>
      store.GetCourseById(id).value.category == old(store.GetCourseById(id).value.category)
  {
  }

  class LearningStore {
    var courses: seq<Course>
    var categories: seq<Category>
    var loading: bool
    var error: Option<string>

    /** Every cached course's category is absent or carries the course's foreign key. */
    ghost predicate Valid()
      reads this, courses
    {
      forall i :: 0 <= i < |courses| ==> LinkConsistent(courses[i])
    }

    /** The initial state: both collections empty, not loading, no error. */
    constructor ()
      ensures Valid()
      ensures courses == [] && categories == [] && !loading && error == None
    {
      courses := [];
      categories := [];
      loading := false;
      error := None;
    }

    /** `courseCount`. */
    function CourseCount(): nat
      reads this
    {
      |courses|
    }

    /** `categoryCount`. */
    function CategoryCount(): nat
      reads this
    {
      |categories|
    }

    /** `getCategoryById(id)()`: none for id 0, else the first cached category with that id. */
    function GetCategoryById(id: int): (r: Option<Category>)
      reads this
      ensures r.None? <==> id == 0 || forall i :: 0 <= i < |categories| ==> categories[i].id != id
      ensures r.Some? ==> r.value in categories && r.value.id == id
      ensures forall n :: 0 <= n < |categories| && id != 0 && categories[n].id == id &&
                          (forall j :: 0 <= j < n ==> categories[j].id != id) ==>
                          r == Some(categories[n])
    {
      LookupById(categories, CategoryId, id)
    }

    /** `getCourseById(id)()`: none for id 0, else the first cached course with that id. */
    function GetCourseById(id: int): (r: Option<Course>)
      reads this
      ensures r.None? <==> id == 0 || forall i :: 0 <= i < |courses| ==> courses[i].id != id
      ensures r.Some? ==> r.value in courses && r.value.id == id
      ensures forall n :: 0 <= n < |courses| && id != 0 && courses[n].id == id &&
                          (forall j :: 0 <= j < n ==> courses[j].id != id) ==>
                          r == Some(courses[n])
    {
      LookupById(courses, CourseId, id)
    }

    /** The first two steps of every operation: raise the loading flag and clear the error. */
    method StartRequest()
      modifies this`loading, this`error
      ensures loading && error == None
    {
      loading := true;
      error := None;
    }

    /** `assignCategoryToCourse(course)`: resolves the course's category in place. */
    method AssignCategoryToCourse(course: Course)
      modifies course`category
      ensures course.category == ResolveCategory(course.categoryId, categories)
      ensures LinkConsistent(course)
    {
      var categoryId := course.categoryId.GetOr(0);
      course.category := if categoryId != 0 then GetCategoryById(categoryId) else None;
    }

    /** `assignCategoriesToCourses()`: resolves the category of every cached course in place. */
    method AssignCategoriesToCourses()
      modifies courses
      ensures forall i :: 0 <= i < |courses| ==> courses[i].category == ResolveCategory(courses[i].categoryId, categories)
      ensures Valid()
    {
      for i := 0 to |courses|
        invariant forall j :: 0 <= j < i ==> courses[j].category == ResolveCategory(courses[j].categoryId, categories)
      {
        AssignCategoryToCourse(courses[i]);
      }
    }

    /** The outcome of `loadCourses()`: the fetched list replaces the cache and is resolved. */
    method LoadCourses(reply: Reply<seq<Course>>)
      requires Valid()
      modifies this, FetchedCourses(reply)
      ensures Valid() && !loading && categories == old(categories)
      ensures match reply
        case Ok(fetched) =>
          courses == fetched && error == None &&
          forall i :: 0 <= i < |courses| ==> courses[i].category == ResolveCategory(courses[i].categoryId, categories)
        case Fail(e) =>
          courses == old(courses) && error == Some(FormatError(e, LoadCoursesFallback))
    {
      StartRequest();
      match reply {
        case Ok(fetched) =>
          courses := fetched;
          loading := false;
          AssignCategoriesToCourses();
        case Fail(e) =>
          error := Some(FormatError(e, LoadCoursesFallback));
          loading := false;
      }
    }

    /** The outcome of `loadCategories()`: the fetched list replaces the cache; courses are not re-resolved. */
    method LoadCategories(reply: Reply<seq<Category>>)
      requires Valid()
      modifies this
      ensures Valid() && !loading && courses == old(courses)
      ensures match reply
        case Ok(fetched) => categories == fetched && error == None
        case Fail(e) => categories == old(categories) && error == Some(FormatError(e, LoadCategoriesFallback))
    {
      StartRequest();
      match reply {
        case Ok(fetched) =>
          categories := fetched;
          loading := false;
        case Fail(e) =>
          error := Some(FormatError(e, LoadCategoriesFallback));
          loading := false;
      }
    }

    /**
     * `addCourse(course)`: on success the INPUT course, its category resolved, is appended
     * (what the gateway returned is discarded); on failure nothing but the error changes.
     */
    method AddCourse(course: Course, replies: seq<Reply<Course>>)
      requires Retries < |replies|
      requires Valid()
      modifies this, course`category
      ensures Valid() && !loading && categories == old(categories)
      ensures match Retry(replies, Retries)
        case Ok(_) =>
          courses == old(courses) + [course] && CourseCount() == old(CourseCount()) + 1 && error == None &&
          course.category == ResolveCategory(course.categoryId, categories)
        case Fail(e) =>
          courses == old(courses) && course.category == old(course.category) &&
          error == Some(FormatError(e, CreateCourseFallback))
    {
      StartRequest();
      match Retry(replies, Retries) {
        case Ok(_) =>
          AssignCategoryToCourse(course);
          courses := courses + [course];
          loading := false;
        case Fail(e) =>
          error := Some(FormatError(e, CreateCourseFallback));
          loading := false;
      }
    }

    /**
     * `updateCourse(course)`: on success the course the gateway returned has its category
     * resolved and replaces, in place, every cached course with its id.
     */
    method UpdateCourse(replies: seq<Reply<Course>>)
      requires Retries < |replies|
      requires Valid()
      modifies this, ReturnedCourse(replies)
      ensures Valid() && !loading && categories == old(categories)
      ensures match Retry(replies, Retries)
        case Ok(updated) =>
          courses == ReplaceById(old(courses), CourseId, updated) && error == None &&
          updated.category == ResolveCategory(updated.categoryId, categories)
        case Fail(e) =>
          courses == old(courses) && error == Some(FormatError(e, UpdateCourseFallback))
    {
      StartRequest();
      match Retry(replies, Retries) {
        case Ok(updated) =>
          AssignCategoryToCourse(updated);
          courses := ReplaceById(courses, CourseId, updated);
          loading := false;
        case Fail(e) =>
          error := Some(FormatError(e, UpdateCourseFallback));
          loading := false;
      }
    }

    /** `deleteCourse(id)`: on success every cached course with that id is dropped. */
    method DeleteCourse(id: int, replies: seq<Reply<()>>)
      requires Retries < |replies|
      requires Valid()
      modifies this
      ensures Valid() && !loading && categories == old(categories)
      ensures match Retry(replies, Retries)
        case Ok(_) =>
          courses == RemoveById(old(courses), CourseId, id) && GetCourseById(id) == None && error == None
        case Fail(e) =>
          courses == old(courses) && error == Some(FormatError(e, DeleteCourseFallback))
    {
      StartRequest();
      match Retry(replies, Retries) {
        case Ok(_) =>
          courses := RemoveById(courses, CourseId, id);
          loading := false;
        case Fail(e) =>
          error := Some(FormatError(e, DeleteCourseFallback));
          loading := false;
      }
    }

    /** `addCategory(category)`: on success the category the gateway returned is appended. */
    method AddCategory(category: Category, replies: seq<Reply<Category>>)
      requires Retries < |replies|
      requires Valid()
      modifies this
      ensures Valid() && !loading && courses == old(courses)
      ensures forall i :: 0 <= i < |courses| ==> courses[i].category == old(courses[i].category)
      ensures match Retry(replies, Retries)
        case Ok(created) =>
          categories == old(categories) + [created] && CategoryCount() == old(CategoryCount()) + 1 && error == None
        case Fail(e) =>
          categories == old(categories) && error == Some(FormatError(e, CreateCategoryFallback))
    {
      StartRequest();
      match Retry(replies, Retries) {
        case Ok(created) =>
          categories := categories + [created];
          loading := false;
        case Fail(e) =>
          error := Some(FormatError(e, CreateCategoryFallback));
          loading := false;
      }
    }

    /**
     * `updateCategory(category)`: on success the category the gateway returned replaces every
     * cached category with its id; cached courses keep the category they had.
     */
    method UpdateCategory(replies: seq<Reply<Category>>)
      requires Retries < |replies|
      requires Valid()
      modifies this
      ensures Valid() && !loading && courses == old(courses)
      ensures forall i :: 0 <= i < |courses| ==> courses[i].category == old(courses[i].category)
      ensures match Retry(replies, Retries)
        case Ok(updated) =>
          categories == ReplaceById(old(categories), CategoryId, updated) && error == None
        case Fail(e) =>
          categories == old(categories) && error == Some(FormatError(e, UpdateCategoryFallback))
    {
      StartRequest();
      match Retry(replies, Retries) {
        case Ok(updated) =>
          categories := ReplaceById(categories, CategoryId, updated);
          loading := false;
        case Fail(e) =>
          error := Some(FormatError(e, UpdateCategoryFallback));
          loading := false;
      }
    }

    /**
     * `deleteCategory(id)`: on success every cached category with that id is dropped;
     * cached courses keep the category they had, which may now be dangling.
     */
    method DeleteCategory(id: int, replies: seq<Reply<()>>)
      requires Retries < |replies|
      requires Valid()
      modifies this
      ensures Valid() && !loading && courses == old(courses)
      ensures forall i :: 0 <= i < |courses| ==> courses[i].category == old(courses[i].category)
      ensures match Retry(replies, Retries)
        case Ok(_) =>
          categories == RemoveById(old(categories), CategoryId, id) && GetCategoryById(id) == None && error == None
        case Fail(e) =>
          categories == old(categories) && error == Some(FormatError(e, DeleteCategoryFallback))
    {
      StartRequest();
      match Retry(replies, Retries) {
        case Ok(_) =>
          categories := RemoveById(categories, CategoryId, id);
          loading := false;
        case Fail(e) =>
          error := Some(FormatError(e, DeleteCategoryFallback));
          loading := false;
      }
    }
  }
}
