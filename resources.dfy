/** The student community page: a searchable list of subject communities,
    each with a discussion thread and a shared resource list loaded from
    built-in sample data, to which the student can post messages and
    "upload" files. */
module Resources {
  import opened Common

  datatype Community = Community(id: int, name: string, subject: string, members: int)

  datatype Message = Message(user: string, content: string, timestamp: string, isVerified: bool)

  datatype Resource = Resource(id: int, name: string, size: string, fileType: string, uploadedBy: string, date: string)

  /** The four communities on offer. */
  const Communities: seq<Community> := [
    Community(1, "C++ Community", "C++", 243),
    Community(2, "Maths Community", "Maths", 178),
    Community(3, "Physics Community", "Physics", 156),
    Community(4, "JavaScript Community", "JavaScript", 312)
  ]

  /** The sample discussion of each subject. */
  const SampleMessages: map<string, seq<Message>> := map[
    "C++" := [
      Message("Student1", "Hello, any resources for C++ assignments?", "10:30 AM", false),
      Message("Student2", "You can check out the C++ Primer book.", "10:32 AM", false),
      Message("Tutor_Sarah", "I've shared some practice problems in the resources section.", "10:40 AM", true)],
    "Maths" := [
      Message("Student3", "Does anyone understand the latest math problem?", "Yesterday", false),
      Message("Student4", "I think the answer is in the tutorial notes.", "Yesterday", false),
      Message("Tutor_Mike", "I'll host a review session tomorrow at 5PM. Check the events section.", "Yesterday", true)],
    "Physics" := [
      Message("Student5", "How to approach the energy conservation problem?", "2 days ago", false),
      Message("Tutor_Alex", "I've uploaded a step-by-step guide in the resources tab.", "2 days ago", true)],
    "JavaScript" := [
      Message("Student6", "Can someone explain closures?", "3 days ago", false),
      Message("Student7", "Closures are functions that retain access to their scope.", "3 days ago", false),
      Message("Tutor_Jamie", "I shared a codepen with examples, check resources.", "3 days ago", true)]
  ]

  /** The sample resources of each subject, numbered from 1. */
  const SampleResources: map<string, seq<Resource>> := map[
    "C++" := [
      Resource(1, "C++ Assignment Helper.pdf", "2.4 MB", "PDF", "Tutor_Sarah", "Mar 15, 2025"),
      Resource(2, "Data Structures Cheat Sheet.pdf", "1.8 MB", "PDF", "Student2", "Mar 10, 2025"),
      Resource(3, "STL Examples.cpp", "56 KB", "Code", "Tutor_Sarah", "Mar 5, 2025")],
    "Maths" := [
      Resource(1, "Calculus Formula Sheet.pdf", "1.2 MB", "PDF", "Tutor_Mike", "Mar 18, 2025"),
      Resource(2, "Linear Algebra Notes.docx", "890 KB", "Document", "Student3", "Mar 12, 2025")],
    "Physics" := [
      Resource(1, "Energy Conservation Guide.pdf", "3.1 MB", "PDF", "Tutor_Alex", "Mar 19, 2025"),
      Resource(2, "Physics Lab Report Template.docx", "720 KB", "Document", "Tutor_Alex", "Mar 8, 2025")],
    "JavaScript" := [
      Resource(1, "Closures Explained.js", "45 KB", "Code", "Tutor_Jamie", "Mar 17, 2025"),
      Resource(2, "JavaScript Best Practices.pdf", "1.5 MB", "PDF", "Student7", "Mar 9, 2025"),
      Resource(3, "ES6 Features.md", "320 KB", "Document", "Tutor_Jamie", "Mar 3, 2025")]
  ]

  /** `table[subject] || []`: every stored list is non-empty, hence truthy. */
  function Lookup<T>(table: map<string, seq<T>>, subject: string): (r: seq<T>)
    ensures subject !in table ==> r == []
    ensures subject in table ==> r == table[subject]
  {
    if subject in table then table[subject] else []
  }

  /** Resource ids number the list 1, 2, 3, … in order, so they are distinct. */
  predicate IdsNumbered(resources: seq<Resource>) {
    forall i :: 0 <= i < |resources| ==> resources[i].id == i + 1
  }

  lemma NumberedIdsDistinct(resources: seq<Resource>)
    requires IdsNumbered(resources)
    ensures forall i, j :: 0 <= i < j < |resources| ==> resources[i].id != resources[j].id
  {
  }

  /** Every sample resource list is numbered from 1. */
  lemma SampleResourcesNumbered(subject: string)
    ensures IdsNumbered(Lookup(SampleResources, subject))
  {
  }

  /** The resource a successful upload appends. */
  function NewResource(resources: seq<Resource>, name: string, fileType: string, date: string): (r: Resource)
    ensures r.id == |resources| + 1 && r.name == name && r.fileType == fileType
    ensures r.uploadedBy == "Current Student" && r.size == "1.2 MB" && r.date == date
  {
    Resource(|resources| + 1, name, "1.2 MB", fileType, "Current Student", date)
  }

  /** Appending the upload keeps the list numbered. */
  lemma UploadKeepsNumbered(resources: seq<Resource>, name: string, fileType: string, date: string)
    requires IdsNumbered(resources)
    ensures IdsNumbered(resources + [NewResource(resources, name, fileType, date)])
  {
  }

  // ---------------------------------------------------------------------
  // Community search

  predicate NameMatches(c: Community, query: string) {
    Includes(Lower(c.name), query)
  }

  /** `filteredCommunities`. */
  function FilterCommunities(communities: seq<Community>, query: string): seq<Community> {
    Filter(communities, (c: Community) => NameMatches(c, query))
  }

  /** The list keeps, in order, exactly the communities whose lowercased
      name contains the query; the empty query keeps them all. */
  lemma FilterCommunitiesSpec(communities: seq<Community>, query: string)
    ensures forall c :: c in FilterCommunities(communities, query) <==> c in communities && NameMatches(c, query)
    ensures IsSubsequence(FilterCommunities(communities, query), communities)
    ensures query == "" ==> FilterCommunities(communities, query) == communities
  {
    var r := FilterCommunities(communities, query);
    FilterSpec(communities, (c: Community) => NameMatches(c, query));
    forall c | c in r ensures c in communities && NameMatches(c, query) {
      var i :| 0 <= i < |r| && r[i] == c;
    }
    forall c | c in communities && NameMatches(c, query) ensures c in r {
      var i :| 0 <= i < |communities| && communities[i] == c;
    }
    if query == "" {
      forall i | 0 <= i < |communities| ensures NameMatches(communities[i], query) {
        IncludesEmpty(Lower(communities[i].name));
      }
      FilterAll(communities, (c: Community) => NameMatches(c, query));
    }
  }

  class CommunityPage {
    var selectedCommunity: Option<Community>
    var messageContent: string
    var messages: seq<Message>
    var resources: seq<Resource>
    var searchQuery: string
    var activeTab: string
    var isUploading: bool
    var newFileName: string
    var newFileType: string

    /** The resource list stays numbered 1, 2, 3, … */
    predicate Valid()
      reads this
    {
      IdsNumbered(resources)
    }

    constructor()
      ensures Valid()
      ensures selectedCommunity == None && messageContent == "" && messages == [] && resources == []
      ensures searchQuery == "" && activeTab == "discussions" && !isUploading
      ensures newFileName == "" && newFileType == "Document"
    {
      selectedCommunity := None;
      messageContent := "";
      messages := [];
      resources := [];
      searchQuery := "";
      activeTab := "discussions";
      isUploading := false;
      newFileName := "";
      newFileType := "Document";
    }

    /** handleSelectCommunity: the subject's sample thread and resources (or
        empty lists), back on the discussion tab. */
    method HandleSelectCommunity(community: Community)
      modifies this
      ensures Valid()
      ensures selectedCommunity == Some(community)
      ensures messages == Lookup(SampleMessages, community.subject)
      ensures resources == Lookup(SampleResources, community.subject)
      ensures community.subject !in SampleMessages ==> messages == [] && resources == []
      ensures activeTab == "discussions"
      ensures messageContent == old(messageContent) && searchQuery == old(searchQuery)
      ensures isUploading == old(isUploading) && newFileName == old(newFileName) && newFileType == old(newFileType)
    {
      selectedCommunity := Some(community);
      messages := Lookup(SampleMessages, community.subject);
      resources := Lookup(SampleResources, community.subject);
      SampleResourcesNumbered(community.subject);
      activeTab := "discussions";
    }

    /** handleSendMessage: blank content changes nothing; otherwise one
        message from "Current Student" with the typed content is appended
        and the input is cleared. `timeString` is the formatted clock. */
    method HandleSendMessage(timeString: string)
      requires Valid()
      modifies this
      ensures Valid()
      ensures IsBlank(old(messageContent)) ==> messages == old(messages) && messageContent == old(messageContent)
      ensures !IsBlank(old(messageContent)) ==>
        messages == old(messages) + [Message("Current Student", old(messageContent), timeString, false)]
        && messageContent == ""
      ensures |messages| <= |old(messages)| + 1 && messages[..|old(messages)|] == old(messages)
      ensures selectedCommunity == old(selectedCommunity) && resources == old(resources)
      ensures searchQuery == old(searchQuery) && activeTab == old(activeTab)
      ensures isUploading == old(isUploading) && newFileName == old(newFileName) && newFileType == old(newFileType)
    {
      if IsBlank(messageContent) {
        return;
      }
      var newMessage := Message("Current Student", messageContent, timeString, false);
      messages := messages + [newMessage];
      messageContent := "";
    }

    /** handleUploadFile: a blank name changes nothing; otherwise the new
        resource is appended with the next id, the name is cleared and the
        upload form closes. `date` is the formatted current date. */
    method HandleUploadFile(date: string)
      requires Valid()
      modifies this
      ensures Valid()
      ensures IsBlank(old(newFileName)) ==>
        resources == old(resources) && newFileName == old(newFileName) && isUploading == old(isUploading)
      ensures !IsBlank(old(newFileName)) ==>
        resources == old(resources) + [Resource(|old(resources)| + 1, old(newFileName), "1.2 MB", old(newFileType), "Current Student", date)]
        && newFileName == "" && !isUploading
      ensures selectedCommunity == old(selectedCommunity) && messages == old(messages)
      ensures messageContent == old(messageContent) && searchQuery == old(searchQuery)
      ensures activeTab == old(activeTab) && newFileType == old(newFileType)
    {
      if IsBlank(newFileName) {
        return;
      }
      var newFile := NewResource(resources, newFileName, newFileType, date);
      UploadKeepsNumbered(resources, newFileName, newFileType, date);
      resources := resources + [newFile];
      newFileName := "";
      isUploading := false;
    }

    method HandleSearchChange(value: string)
      modifies this
      ensures searchQuery == Lower(value)
      ensures selectedCommunity == old(selectedCommunity) && messages == old(messages) && resources == old(resources)
      ensures messageContent == old(messageContent) && activeTab == old(activeTab)
      ensures isUploading == old(isUploading) && newFileName == old(newFileName) && newFileType == old(newFileType)
    {
      searchQuery := Lower(value);
    }

    /** The Discussions and Resources tab buttons. */
    method SetActiveTab(tab: string)
      modifies this
      ensures activeTab == tab
      ensures selectedCommunity == old(selectedCommunity) && messages == old(messages) && resources == old(resources)
      ensures messageContent == old(messageContent) && searchQuery == old(searchQuery)
      ensures isUploading == old(isUploading) && newFileName == old(newFileName) && newFileType == old(newFileType)
    {
      activeTab := tab;
    }

    /** The upload button opens the form when closed and closes it when
        open; the form's Cancel button closes it. */
    method ToggleUploadForm()
      modifies this
      ensures isUploading == !old(isUploading)
      ensures selectedCommunity == old(selectedCommunity) && messages == old(messages) && resources == old(resources)
      ensures messageContent == old(messageContent) && searchQuery == old(searchQuery) && activeTab == old(activeTab)
      ensures newFileName == old(newFileName) && newFileType == old(newFileType)
    {
      isUploading := !isUploading;
    }

    method CancelUpload()
      modifies this
      ensures !isUploading
      ensures selectedCommunity == old(selectedCommunity) && messages == old(messages) && resources == old(resources)
      ensures messageContent == old(messageContent) && searchQuery == old(searchQuery) && activeTab == old(activeTab)
      ensures newFileName == old(newFileName) && newFileType == old(newFileType)
    {
      isUploading := false;
    }

    /** The message box and the two inputs of the upload form. */
    method SetMessageContent(value: string)
      modifies this
      ensures messageContent == value
      ensures selectedCommunity == old(selectedCommunity) && messages == old(messages) && resources == old(resources)
      ensures searchQuery == old(searchQuery) && activeTab == old(activeTab)
      ensures isUploading == old(isUploading) && newFileName == old(newFileName) && newFileType == old(newFileType)
    {
      messageContent := value;
    }

    method SetNewFileName(value: string)
      modifies this
      ensures newFileName == value
      ensures selectedCommunity == old(selectedCommunity) && messages == old(messages) && resources == old(resources)
      ensures messageContent == old(messageContent) && searchQuery == old(searchQuery) && activeTab == old(activeTab)
      ensures isUploading == old(isUploading) && newFileType == old(newFileType)
    {
      newFileName := value;
    }

    method SetNewFileType(value: string)
      modifies this
      ensures newFileType == value
      ensures selectedCommunity == old(selectedCommunity) && messages == old(messages) && resources == old(resources)
      ensures messageContent == old(messageContent) && searchQuery == old(searchQuery) && activeTab == old(activeTab)
      ensures isUploading == old(isUploading) && newFileName == old(newFileName)
    {
      newFileType := value;
    }

    function FilteredCommunities(): seq<Community>
      reads this
    {
      FilterCommunities(Communities, searchQuery)
    }
  }
}
