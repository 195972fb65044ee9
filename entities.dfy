/** The two entity kinds the store caches. */
module Entities {
  import opened Options

  /** A category: replaced wholesale by the store, never changed in place. */
  datatype Category = Category(id: int, name: string)

  /**
   * A course. The store writes only `category`, the transient resolved relation;
   * the other fields, `categoryId` (the foreign key, possibly absent) among them,
   * are set when the course is built and only read by the store.
   */
  class Course {
    const id: int
    const title: string
    const description: string
    const categoryId: Option<int>
    var category: Option<Category>

    /** `new Course({id, title, description, categoryId})`, with no category resolved yet. */
    constructor (id: int, title: string, description: string, categoryId: Option<int>)
      ensures this.id == id && this.title == title && this.description == description
      ensures this.categoryId == categoryId && category == None
    {
      this.id := id;
      this.title := title;
      this.description := description;
      this.categoryId := categoryId;
      category := None;
    }
  }

  /** The id key of a course, `c => c.id`. */
  function CourseId(c: Course): int { c.id }

  /** The id key of a category, `c => c.id`. */
  function CategoryId(c: Category): int { c.id }
}
