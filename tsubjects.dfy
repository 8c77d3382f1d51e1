/** The tutor course list: the same grouping as the student list, but keyed
    by `category.name` only, with the tags joined into one display string
    and text placeholders for missing values. */
module TSubjects {
  import opened Common
  import opened Courses
  import opened Grouping

  datatype TSubject = TSubject(id: CourseId, title: string, description: string, thumbnail: string, tags: string)

  datatype TCategory = TCategory(title: string, subjects: seq<TSubject>)

  /** `course.category?.name || "Uncategorized"`: a string category has no
      `name`, so it falls back as a missing or empty name does. */
  function CategoryKey(c: Course): string {
    if c.category.CatObject? then OrElse(c.category.name, "Uncategorized") else "Uncategorized"
  }

  /** `course.tag?.join(", ") || "No tags available."`; a tag value that is
      neither missing nor an array has no `join`, and the call throws. */
  function FormatTags(tag: TagField): Option<string> {
    match tag
    case TagMissing => Some("No tags available.")
    case TagArray(tags) => Some(if Join(tags, ", ") == "" then "No tags available." else Join(tags, ", "))
    case TagOther => None
  }

  /** The formatted course, or None when formatting throws. */
  function FormatSubject(c: Course): Option<TSubject> {
    match FormatTags(c.tag)
    case None => None
    case Some(tags) =>
      Some(TSubject(
        c.id,
        c.courseName,
        OrElse(c.courseDescription, "No description available."),
        OrElse(c.thumbnail, "No thumbnail available."),
        tags))
  }

  /** `courses.map(...)`: None as soon as one course throws. */
  function FormatAll(courses: seq<Course>): (r: Option<seq<TSubject>>)
    ensures r.Some? ==> |r.value| == |courses|
    decreases |courses|
  {
    if courses == [] then Some([])
    else match (FormatSubject(courses[0]), FormatAll(courses[1..]))
      case (Some(s), Some(rest)) => Some([s] + rest)
      case _ => None
  }

  /** The categories built from the course list, or None when the reduce or
      the formatting threw (and the catch block left the page as it was). */
  function Categorize(data: seq<Course>): Option<seq<TCategory>> {
    if ReduceThrows(data, CategoryKey) then None
    else CategorizeFrom(Entries(data, CategoryKey))
  }

  function CategorizeFrom(entries: seq<(string, seq<Course>)>): (r: Option<seq<TCategory>>)
    ensures r.Some? ==> |r.value| == |entries|
    decreases |entries|
  {
    if entries == [] then Some([])
    else match (FormatAll(entries[0].1), CategorizeFrom(entries[1..]))
      case (Some(subjects), Some(rest)) => Some([TCategory(entries[0].0, subjects)] + rest)
      case _ => None
  }

  /** Formatting succeeds exactly when no course has a non-array tag value,
      and then the i-th subject is the i-th course formatted. */
  lemma {:induction false} FormatAllSpec(courses: seq<Course>)
    ensures FormatAll(courses).Some? <==> forall i :: 0 <= i < |courses| ==> courses[i].tag != TagOther
    ensures FormatAll(courses).Some? ==>
      forall i :: 0 <= i < |courses| ==> Some(FormatAll(courses).value[i]) == FormatSubject(courses[i])
    decreases |courses|
  {
    if courses != [] {
      FormatAllSpec(courses[1..]);
      assert forall i :: 1 <= i < |courses| ==> courses[i] == courses[1..][i - 1];
    }
  }

  /** The tags text: the tags joined with ", ", or the placeholder when
      there are none, when the only tag is empty, or when the tag value is
      missing. */
  lemma FormatTagsSpec(tag: TagField)
    ensures tag == TagMissing ==> FormatTags(tag) == Some("No tags available.")
    ensures tag.TagArray? && (tag.tags == [] || tag.tags == [""]) ==> FormatTags(tag) == Some("No tags available.")
    ensures tag.TagArray? && tag.tags != [] && tag.tags != [""] ==> FormatTags(tag) == Some(Join(tag.tags, ", "))
    ensures tag == TagOther <==> FormatTags(tag) == None
  {
    if tag.TagArray? {
      JoinEmpty(tag.tags, ", ");
    }
  }

  /** Grouping: one category per distinct key of the courses, in
      first-occurrence order, holding the formatted courses of that key; the
      category sizes add up to the number of courses. */
  lemma {:induction false} CategorizeFromSpec(entries: seq<(string, seq<Course>)>)
    requires forall j :: 0 <= j < |entries| ==> FormatAll(entries[j].1).Some?
    ensures CategorizeFrom(entries).Some?
    ensures forall j :: 0 <= j < |entries| ==>
      CategorizeFrom(entries).value[j] == TCategory(entries[j].0, FormatAll(entries[j].1).value)
    decreases |entries|
  {
    if entries != [] {
      CategorizeFromSpec(entries[1..]);
      assert forall j :: 1 <= j < |entries| ==> entries[j] == entries[1..][j - 1];
    }
  }

  lemma CategorizeSpec(data: seq<Course>)
    requires forall i :: 0 <= i < |data| ==> data[i].tag != TagOther
    ensures Categorize(data).Some? <==> !ReduceThrows(data, CategoryKey)
    ensures Categorize(data).Some? ==>
      var cats := Categorize(data).value;
      var ks := Keys(data, CategoryKey);
      && |cats| == |ks|
      && (forall j :: 0 <= j < |cats| ==> cats[j].title == ks[j])
      && (forall j :: 0 <= j < |cats| ==> Some(cats[j].subjects) == FormatAll(Group(data, CategoryKey, ks[j])))
      && Distinct(ks)
      && TotalSize(data, CategoryKey, ks) == |data|
  {
    var entries := Entries(data, CategoryKey);
    var ks := Keys(data, CategoryKey);
    forall j | 0 <= j < |entries| ensures FormatAll(entries[j].1).Some? {
      var g := Group(data, CategoryKey, ks[j]);
      GroupMembership(data, CategoryKey, ks[j]);
      FormatAllSpec(g);
      forall i | 0 <= i < |g| ensures g[i].tag != TagOther {
        assert g[i] in data;
      }
    }
    CategorizeFromSpec(entries);
    KeysSpec(data, CategoryKey);
    GroupsPartition(data, CategoryKey);
  }

  lemma {:induction false} CategorizeFromNone(entries: seq<(string, seq<Course>)>, j: int)
    requires 0 <= j < |entries| && FormatAll(entries[j].1).None?
    ensures CategorizeFrom(entries).None?
    decreases |entries|
  {
    if j > 0 {
      CategorizeFromNone(entries[1..], j - 1);
    }
  }

  /** One course with a tag value that is not an array makes the whole
      list fail: `join` throws inside the `map` of its category. */
  lemma CategorizeTagThrows(data: seq<Course>, i: int)
    requires 0 <= i < |data| && data[i].tag == TagOther
    ensures Categorize(data).None?
  {
    if !ReduceThrows(data, CategoryKey) {
      var ks := Keys(data, CategoryKey);
      var k := CategoryKey(data[i]);
      KeysSpec(data, CategoryKey);
      assert k in ks;
      var j :| 0 <= j < |ks| && ks[j] == k;
      var g := Group(data, CategoryKey, k);
      GroupMembership(data, CategoryKey, k);
      assert data[i] in g;
      var m :| 0 <= m < |g| && g[m] == data[i];
      FormatAllSpec(g);
      CategorizeFromNone(Entries(data, CategoryKey), j);
    }
  }

  /** A category named "toString" makes `acc["toString"].push` throw: the
      course list is not grouped at all. */
  lemma ToStringCategoryThrows(data: seq<Course>, i: int)
    requires 0 <= i < |data| && data[i].category == CatObject(Some("toString"))
    ensures Categorize(data) == None
  {
    assert CategoryKey(data[i]) in InheritedKeys;
  }

  /** A course with a string category is filed under "Uncategorized". */
  lemma StringCategoryUncategorized(c: Course)
    requires c.category.CatString?
    ensures CategoryKey(c) == "Uncategorized"
  {
  }

  // ---------------------------------------------------------------------
  // Search and display

  predicate Matches(s: TSubject, query: string) {
    Includes(Lower(s.title), query) || Includes(Lower(s.description), query) || Includes(Lower(s.tags), query)
  }

  /** filterSubjects. */
  function FilterSubjects(subjects: seq<TSubject>, query: string): seq<TSubject> {
    Filter(subjects, (s: TSubject) => Matches(s, query))
  }

  lemma FilterSubjectsSpec(subjects: seq<TSubject>, query: string)
    ensures forall s :: s in FilterSubjects(subjects, query) <==> s in subjects && Matches(s, query)
    ensures IsSubsequence(FilterSubjects(subjects, query), subjects)
    ensures query == "" ==> FilterSubjects(subjects, query) == subjects
  {
    var r := FilterSubjects(subjects, query);
    FilterSpec(subjects, (s: TSubject) => Matches(s, query));
    forall s | s in r ensures s in subjects && Matches(s, query) {
      var i :| 0 <= i < |r| && r[i] == s;
    }
    forall s | s in subjects && Matches(s, query) ensures s in r {
      var i :| 0 <= i < |subjects| && subjects[i] == s;
    }
    if query == "" {
      forall i | 0 <= i < |subjects| ensures Matches(subjects[i], query) {
        IncludesEmpty(Lower(subjects[i].title));
      }
      FilterAll(subjects, (s: TSubject) => Matches(s, query));
    }
  }

  /** The search also looks at the placeholder text: a course without tags
      matches the query "tags". */
  lemma PlaceholderMatches(s: TSubject)
    requires s.tags == "No tags available."
    ensures Matches(s, "tags")
  {
    var t := Lower(s.tags);
    assert t[3..7] == "tags";
    IndexGivesIncludes(t, "tags", 3);
  }

  /** The image is shown only for a real thumbnail. */
  predicate ShowsThumbnail(s: TSubject) {
    s.thumbnail != "" && s.thumbnail != "No thumbnail available."
  }

  lemma ShowsThumbnailSpec(c: Course)
    requires FormatSubject(c).Some?
    ensures ShowsThumbnail(FormatSubject(c).value) <==> Truthy(c.thumbnail) && c.thumbnail.value != "No thumbnail available."
  {
  }

  /** Every category, narrowed to its subjects that match the query. */
  function Searched(categories: seq<TCategory>, query: string): seq<TCategory> {
    seq(|categories|, i requires 0 <= i < |categories| =>
      TCategory(categories[i].title, FilterSubjects(categories[i].subjects, query)))
  }

  function Rendered(categories: seq<TCategory>, query: string): seq<TCategory> {
    Filter(Searched(categories, query), (c: TCategory) => c.subjects != [])
  }

  /** A category is rendered, with its matching subjects, exactly when it has
      a matching subject; and everything rendered is an input category
      narrowed to its matching subjects, in input order. */
  lemma RenderedSpec(categories: seq<TCategory>, query: string)
    ensures forall c :: c in Rendered(categories, query) ==> c.subjects != []
    ensures forall i :: 0 <= i < |categories| ==>
      (FilterSubjects(categories[i].subjects, query) != [] <==>
        TCategory(categories[i].title, FilterSubjects(categories[i].subjects, query)) in Rendered(categories, query))
    ensures forall c :: c in Rendered(categories, query) ==>
      exists i :: 0 <= i < |categories| && c == TCategory(categories[i].title, FilterSubjects(categories[i].subjects, query))
    ensures IsSubsequence(Rendered(categories, query), Searched(categories, query))
  {
    var searched := Searched(categories, query);
    var r := Rendered(categories, query);
    FilterSpec(searched, (c: TCategory) => c.subjects != []);
    forall c | c in r
      ensures c.subjects != []
      ensures exists i :: 0 <= i < |categories| && c == TCategory(categories[i].title, FilterSubjects(categories[i].subjects, query))
    {
      var j :| 0 <= j < |r| && r[j] == c;
      assert c in searched;
      var i :| 0 <= i < |searched| && searched[i] == c;
    }
    forall i | 0 <= i < |categories| && FilterSubjects(categories[i].subjects, query) != []
      ensures searched[i] in r
    {
    }
  }

  class TSubjectsPage {
    var categories: seq<TCategory>
    var searchQuery: string

    constructor()
      ensures categories == [] && searchQuery == ""
    {
      categories := [];
      searchQuery := "";
    }

    /** fetchCourses: the grouped, formatted courses on success; a failed
        request, or a course whose formatting throws, leaves the list as it
        was. */
    method FetchCourses(response: Option<seq<Course>>)
      modifies this
      ensures response.Some? && Categorize(response.value).Some? ==> categories == Categorize(response.value).value
      ensures response.None? || Categorize(response.value).None? ==> categories == old(categories)
      ensures searchQuery == old(searchQuery)
    {
      if response.Some? {
        var grouped := GroupEntries(response.value, CategoryKey);
        if grouped.Some? {
          var formatted := CategorizeFrom(grouped.value);
          if formatted.Some? {
            categories := formatted.value;
          }
        }
      }
    }

    method HandleSearchChange(value: string)
      modifies this
      ensures searchQuery == Lower(value)
      ensures categories == old(categories)
    {
      searchQuery := Lower(value);
    }

    function Visible(): seq<TCategory>
      reads this
    {
      Rendered(categories, searchQuery)
    }
  }
}
