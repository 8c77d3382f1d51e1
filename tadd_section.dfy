/** The tutor's section picker: the tutor's sections loaded with the login
    token, a search over their names, a single selection, and a confirm
    step that stores the choice for the course form. */
module TAddSection {
  import opened Common
  import TAddCourses

  datatype Section = Section(id: string, sectionName: string)

  datatype Notice = Success(text: string) | Error(text: string)

  predicate NameMatches(s: Section, query: string) {
    Includes(Lower(s.sectionName), query)
  }

  /** The sections whose lowercased name contains the query. */
  function FilterSections(sections: seq<Section>, query: string): seq<Section> {
    Filter(sections, (s: Section) => NameMatches(s, query))
  }

  /** The search keeps, in order, exactly the sections whose lowercased name
      contains the query; the empty query keeps them all. */
  lemma FilterSectionsSpec(sections: seq<Section>, query: string)
    ensures forall s :: s in FilterSections(sections, query) <==> s in sections && NameMatches(s, query)
    ensures IsSubsequence(FilterSections(sections, query), sections)
    ensures query == "" ==> FilterSections(sections, query) == sections
  {
    var r := FilterSections(sections, query);
    FilterSpec(sections, (s: Section) => NameMatches(s, query));
    forall s | s in r ensures s in sections && NameMatches(s, query) {
      var i :| 0 <= i < |r| && r[i] == s;
    }
    forall s | s in sections && NameMatches(s, query) ensures s in r {
      var i :| 0 <= i < |sections| && sections[i] == s;
    }
    if query == "" {
      forall i | 0 <= i < |sections| ensures NameMatches(sections[i], query) {
        IncludesEmpty(Lower(sections[i].sectionName));
      }
      FilterAll(sections, (s: Section) => NameMatches(s, query));
    }
  }

  class SectionPicker {
    var sections: seq<Section>
    var filteredSections: seq<Section>
    var searchTerm: string
    var selectedSection: Option<string>
    var message: Option<Notice>
    /** The "selectedSection" storage entry (the parsed id). */
    var storedSection: Option<string>

    constructor(stored: Option<string>)
      ensures sections == [] && filteredSections == [] && searchTerm == ""
      ensures selectedSection == None && message == None && storedSection == stored
    {
      sections := [];
      filteredSections := [];
      searchTerm := "";
      selectedSection := None;
      message := None;
      storedSection := stored;
    }

    /** `fetchSections` on mount. `token` is the stored token (None when
        absent or empty); `response` the status and section list, or the
        failure. */
    method FetchSections(token: Option<string>, response: Response<(int, seq<Section>)>) returns (requested: bool)
      modifies this
      ensures requested <==> token.Some?
      ensures token.None? ==>
        message == Some(Error("Authentication token is missing. Please log in."))
        && sections == old(sections) && filteredSections == old(filteredSections)
      ensures requested && response.Ok? && response.data.0 == 200 ==>
        sections == response.data.1 && filteredSections == response.data.1 && message == old(message)
      ensures requested && response.Ok? && response.data.0 != 200 ==>
        sections == old(sections) && filteredSections == old(filteredSections) && message == old(message)
      ensures requested && response.Failed? ==>
        message == Some(Error(OrElse(response.serverMessage, "An error occurred.")))
        && sections == old(sections) && filteredSections == old(filteredSections)
      ensures searchTerm == old(searchTerm) && selectedSection == old(selectedSection) && storedSection == old(storedSection)
    {
      if token.None? {
        message := Some(Error("Authentication token is missing. Please log in."));
        return false;
      }
      requested := true;
      match response {
        case Ok(answer) =>
          if answer.0 == 200 {
            sections := answer.1;
            filteredSections := answer.1;
          }
        case Failed(serverMessage) =>
          message := Some(Error(OrElse(serverMessage, "An error occurred.")));
      }
    }

    /** `handleSelectSection`: the selection changes and nothing else. */
    method HandleSelectSection(sectionId: string)
      modifies this
      ensures selectedSection == Some(sectionId)
      ensures sections == old(sections) && filteredSections == old(filteredSections) && searchTerm == old(searchTerm)
      ensures message == old(message) && storedSection == old(storedSection)
    {
      selectedSection := Some(sectionId);
    }

    /** `handleSearchChange`: the lowercased term, and the full list
        filtered by it (never the previous result). */
    method HandleSearchChange(value: string)
      modifies this
      ensures searchTerm == Lower(value)
      ensures filteredSections == FilterSections(sections, Lower(value))
      ensures sections == old(sections) && selectedSection == old(selectedSection)
      ensures message == old(message) && storedSection == old(storedSection)
    {
      var searchValue := Lower(value);
      searchTerm := searchValue;
      filteredSections := FilterSections(sections, searchValue);
    }

    /** `handleConfirmSelection`: with no selection (or an empty id) an
        error and nothing else; otherwise the id is stored and the page
        moves on to the course form. */
    method HandleConfirmSelection() returns (navigated: bool)
      modifies this
      ensures navigated <==> Truthy(old(selectedSection))
      ensures !navigated ==>
        message == Some(Error("Please select a section first.")) && storedSection == old(storedSection)
      ensures navigated ==> storedSection == old(selectedSection) && message == old(message)
      ensures sections == old(sections) && filteredSections == old(filteredSections)
      ensures searchTerm == old(searchTerm) && selectedSection == old(selectedSection)
    {
      if !Truthy(selectedSection) {
        message := Some(Error("Please select a section first."));
        return false;
      }
      storedSection := selectedSection;
      navigated := true;
    }
  }

  /** Searching twice gives the same list as searching once with the second
      term: each search filters the full list. */
  method SearchForgetsEarlierTerm(page: SectionPicker, first: string, second: string)
    modifies page
    ensures page.filteredSections == FilterSections(old(page.sections), Lower(second))
  {
    page.HandleSearchChange(first);
    page.HandleSearchChange(second);
  }

  /** Choosing a section and confirming hands it to a first visit of the
      course form, whose content list is that one section. */
  method ConfirmThenAddCourse(page: SectionPicker, sectionId: string) returns (form: TAddCourses.CourseForm)
    requires sectionId != ""
    modifies page
    ensures "courseContent" in form.form && form.form["courseContent"] == TAddCourses.Content([sectionId])
    ensures "status" in form.form && form.form["status"] == TAddCourses.Text("Draft")
  {
    page.HandleSelectSection(sectionId);
    var navigated := page.HandleConfirmSelection();
    form := new TAddCourses.CourseForm(None, page.storedSection);
    TAddCourses.InitialFormSpec(None, Some(sectionId));
  }
}
