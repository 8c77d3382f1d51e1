/** The student course list: courses grouped by category, each course
    formatted for display, and a search that hides the courses and the
    categories that do not match. */
module Subjects {
  import opened Common
  import opened Courses
  import opened Grouping

  datatype Subject = Subject(id: CourseId, title: string, description: string, thumbnail: string, tags: seq<string>)

  datatype Category = Category(title: string, subjects: seq<Subject>)

  /** The group a course goes to: a string category as it is (even the empty
      string), else the category's string `name`, else "Uncategorized". */
  function CategoryKey(c: Course): string {
    match c.category
    case CatString(text) => text
    case CatObject(Some(name)) => name
    case _ => "Uncategorized"
  }

  /** `course._id?.$oid || course._id`. */
  function FormatId(id: CourseId): (r: CourseId)
    ensures r.PlainId? <==> id.PlainId? || Truthy(id.oid)
    ensures id.ObjectId? && Truthy(id.oid) ==> r == PlainId(id.oid.value)
    ensures id.ObjectId? && !Truthy(id.oid) ==> r == id
    ensures id.PlainId? ==> r == id
  {
    match id
    case PlainId(_) => id
    case ObjectId(oid) => if Truthy(oid) then PlainId(oid.value) else id
  }

  /** The displayed id is a plain string whenever the `$oid` is usable, and
      formatting an id that is already formatted leaves it as it is. */
  lemma FormatIdIdempotent(id: CourseId)
    ensures id.ObjectId? && Truthy(id.oid) ==> FormatId(id).PlainId? && FormatId(id).id == id.oid.value
    ensures FormatId(FormatId(id)) == FormatId(id)
  {
  }

  function FormatSubject(c: Course): Subject {
    Subject(
      FormatId(c.id),
      c.courseName,
      OrElse(c.courseDescription, "No description available."),
      OrElse(c.thumbnail, ""),
      if c.tag.TagArray? then c.tag.tags else [])
  }

  function FormatAll(courses: seq<Course>): (r: seq<Subject>)
    ensures |r| == |courses|
  {
    seq(|courses|, i requires 0 <= i < |courses| => FormatSubject(courses[i]))
  }

  /** The categories the page shows before any search, or None when the
      reduce throws on a category named like an inherited property. */
  function Categorize(data: seq<Course>): Option<seq<Category>> {
    if ReduceThrows(data, CategoryKey) then None
    else
      var entries := Entries(data, CategoryKey);
      Some(seq(|entries|, j requires 0 <= j < |entries| => Category(entries[j].0, FormatAll(entries[j].1))))
  }

  /** The formatted fields: the id from `$oid` when there is one, the
      description and thumbnail defaults, and tags only from an array. */
  lemma FormatSubjectFields(c: Course)
    ensures var s := FormatSubject(c);
      && s.title == c.courseName
      && (s.description == "No description available." <==>
            !Truthy(c.courseDescription) || c.courseDescription.value == "No description available.")
      && (s.thumbnail == "" <==> !Truthy(c.thumbnail))
      && (c.tag.TagArray? ==> s.tags == c.tag.tags)
      && (!c.tag.TagArray? ==> s.tags == [])
  {
  }

  /** Grouping: one category per distinct key, in first-occurrence order;
      each category holds the formatted courses of its key in input order;
      and the category sizes add up to the number of courses. With
      KeysSpec and GroupMembership this says every course is shown in
      exactly one category, the one of its own key. The grouping fails
      exactly when some course's key is an inherited property name. */
  lemma CategorizeSpec(data: seq<Course>)
    ensures Categorize(data).None? <==> ReduceThrows(data, CategoryKey)
    ensures Categorize(data).Some? ==>
      var cats := Categorize(data).value;
      var ks := Keys(data, CategoryKey);
      && |cats| == |ks|
      && (forall j :: 0 <= j < |cats| ==> cats[j].title == ks[j])
      && (forall j :: 0 <= j < |cats| ==> cats[j].subjects == FormatAll(Group(data, CategoryKey, ks[j])))
      && Distinct(ks)
      && TotalSize(data, CategoryKey, ks) == |data|
  {
    KeysSpec(data, CategoryKey);
    GroupsPartition(data, CategoryKey);
  }

  /** A course filed under "constructor" makes `acc["constructor"].push`
      throw: the course list is not grouped at all. */
  lemma ConstructorCategoryThrows(data: seq<Course>, i: int)
    requires 0 <= i < |data| && data[i].category == CatString("constructor")
    ensures Categorize(data) == None
  {
    assert CategoryKey(data[i]) in InheritedKeys;
  }

  /** A course whose category is the empty string forms a group titled "",
      not "Uncategorized": the string check comes before the fallback. */
  lemma EmptyStringCategory(c: Course)
    requires c.category == CatString("")
    ensures CategoryKey(c) == ""
    ensures CategoryKey(c) != "Uncategorized"
  {
  }

  // ---------------------------------------------------------------------
  // Search

  /** Some tag contains the query (`tags.some(...)`). */
  predicate SomeTagMatches(tags: seq<string>, query: string) {
    exists i :: 0 <= i < |tags| && Includes(Lower(tags[i]), query)
  }

  predicate Matches(s: Subject, query: string) {
    Includes(Lower(s.title), query) || Includes(Lower(s.description), query) || SomeTagMatches(s.tags, query)
  }

  /** filterSubjects. */
  function FilterSubjects(subjects: seq<Subject>, query: string): seq<Subject> {
    Filter(subjects, (s: Subject) => Matches(s, query))
  }

  /** The search keeps exactly the matching subjects, in order, and the
      empty query keeps all of them. */
  lemma FilterSubjectsSpec(subjects: seq<Subject>, query: string)
    ensures forall s :: s in FilterSubjects(subjects, query) <==> s in subjects && Matches(s, query)
    ensures IsSubsequence(FilterSubjects(subjects, query), subjects)
    ensures query == "" ==> FilterSubjects(subjects, query) == subjects
  {
    var r := FilterSubjects(subjects, query);
    FilterSpec(subjects, (s: Subject) => Matches(s, query));
    forall s | s in r ensures s in subjects && Matches(s, query) {
      var i :| 0 <= i < |r| && r[i] == s;
    }
    forall s | s in subjects && Matches(s, query) ensures s in r {
      var i :| 0 <= i < |subjects| && subjects[i] == s;
    }
    if query == "" {
      forall i | 0 <= i < |subjects| ensures Matches(subjects[i], query) {
        IncludesEmpty(Lower(subjects[i].title));
      }
      FilterAll(subjects, (s: Subject) => Matches(s, query));
    }
  }

  /** The categories as rendered: each with its matching subjects, and only
      those with at least one. */
  /** Every category, narrowed to its subjects that match the query. */
  function Searched(categories: seq<Category>, query: string): seq<Category> {
    seq(|categories|, i requires 0 <= i < |categories| =>
      Category(categories[i].title, FilterSubjects(categories[i].subjects, query)))
  }

  function Rendered(categories: seq<Category>, query: string): seq<Category> {
    Filter(Searched(categories, query), (c: Category) => c.subjects != [])
  }

  /** A category is rendered, with its matching subjects, exactly when it has
      a matching subject; and everything rendered is an input category
      narrowed to its matching subjects, in input order. */
  lemma RenderedSpec(categories: seq<Category>, query: string)
    ensures forall c :: c in Rendered(categories, query) ==> c.subjects != []
    ensures forall i :: 0 <= i < |categories| ==>
      (FilterSubjects(categories[i].subjects, query) != [] <==>
        Category(categories[i].title, FilterSubjects(categories[i].subjects, query)) in Rendered(categories, query))
    ensures forall c :: c in Rendered(categories, query) ==>
      exists i :: 0 <= i < |categories| && c == Category(categories[i].title, FilterSubjects(categories[i].subjects, query))
    ensures IsSubsequence(Rendered(categories, query), Searched(categories, query))
  {
    var searched := Searched(categories, query);
    var r := Rendered(categories, query);
    FilterSpec(searched, (c: Category) => c.subjects != []);
    forall c | c in r
      ensures c.subjects != []
      ensures exists i :: 0 <= i < |categories| && c == Category(categories[i].title, FilterSubjects(categories[i].subjects, query))
    {
      var j :| 0 <= j < |r| && r[j] == c;
      assert c in searched;
      var i :| 0 <= i < |searched| && searched[i] == c;
    }
    forall i | 0 <= i < |categories| && FilterSubjects(categories[i].subjects, query) != []
      ensures searched[i] in r
    {
    }
  }

  // ---------------------------------------------------------------------
  // The page

  class SubjectsPage {
    var categories: seq<Category>
    var searchQuery: string

    constructor()
      ensures categories == [] && searchQuery == ""
    {
      categories := [];
      searchQuery := "";
    }

    /** fetchCourses: on success the grouped, formatted courses; a failed
        request, or a reduce that throws, is only logged. */
    method FetchCourses(response: Option<seq<Course>>)
      modifies this
      ensures response.Some? && Categorize(response.value).Some? ==> categories == Categorize(response.value).value
      ensures response.None? || Categorize(response.value).None? ==> categories == old(categories)
      ensures searchQuery == old(searchQuery)
    {
      if response.Some? {
        var data := response.value;
        var grouped := GroupEntries(data, CategoryKey);
        if grouped.Some? {
          var entries := grouped.value;
          var formatted: seq<Category> := [];
          var j := 0;
          while j < |entries|
            invariant 0 <= j <= |entries|
            invariant formatted == Categorize(data).value[..j]
          {
            formatted := formatted + [Category(entries[j].0, FormatAll(entries[j].1))];
            j := j + 1;
          }
          categories := formatted;
        }
      }
    }

    /** handleSearchChange stores the lowercased query. */
    method HandleSearchChange(value: string)
      modifies this
      ensures searchQuery == Lower(value)
      ensures categories == old(categories)
    {
      searchQuery := Lower(value);
    }

    function Visible(): seq<Category>
      reads this
    {
      Rendered(categories, searchQuery)
    }
  }
}
