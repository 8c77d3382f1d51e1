/** The course record the backend's `GET /api/v1/courses` returns, as far as
    the course screens read it. JavaScript values that may be of several
    kinds are written as datatypes with one constructor per kind. */
module Courses {
  import opened Common

  /** `course._id`: a plain string, or an object that may carry `$oid`. */
  datatype CourseId = PlainId(id: string) | ObjectId(oid: Option<string>)

  /** `course.category`: a string, an object that may carry a string `name`,
      or missing (undefined or null). */
  datatype CategoryField = CatString(text: string) | CatObject(name: Option<string>) | CatMissing

  /** `course.tag`: an array of strings, missing, or some other value. */
  datatype TagField = TagArray(tags: seq<string>) | TagMissing | TagOther

  datatype Course = Course(
    id: CourseId,
    courseName: string,
    courseDescription: Option<string>,
    thumbnail: Option<string>,
    category: CategoryField,
    tag: TagField)
}
