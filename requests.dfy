/** The tutor's class-request list: requests fetched from the backend and
    normalised, a search over student e-mail, name and topic, accepting or
    declining pending requests, and a modal to attach a Zoom link to an
    accepted one. */
module Requests {
  import opened Common

  /** A class request as the backend sends it (`req.student.email`,
      `req.course.courseName`, ...); `time` and `createdAt` are the raw
      timestamps. */
  datatype RawRequest = RawRequest(
    id: string,
    studentEmail: string,
    studentName: Option<string>,
    courseName: string,
    time: string,
    status: string,
    zoomLink: Option<string>,
    notes: Option<string>,
    createdAt: string)

  /** A request as the page keeps it. */
  datatype Request = Request(
    id: string,
    student: string,
    studentName: Option<string>,
    topic: string,
    time: string,
    status: string,
    zoomLink: string,
    notes: string,
    isNew: bool,
    createdAt: string)

  function FormatRequest(raw: RawRequest): (r: Request)
    ensures r.isNew <==> raw.status == "Pending"
    ensures r.zoomLink == "" <==> !Truthy(raw.zoomLink)
    ensures Truthy(raw.zoomLink) ==> r.zoomLink == raw.zoomLink.value
    ensures r.notes == "" <==> !Truthy(raw.notes)
    ensures Truthy(raw.notes) ==> r.notes == raw.notes.value
    ensures r.id == raw.id && r.student == raw.studentEmail && r.studentName == raw.studentName
    ensures r.topic == raw.courseName && r.status == raw.status
  {
    Request(raw.id, raw.studentEmail, raw.studentName, raw.courseName, raw.time, raw.status,
      OrElse(raw.zoomLink, ""), OrElse(raw.notes, ""), raw.status == "Pending", raw.createdAt)
  }

  function FormatAll(raw: seq<RawRequest>): (r: seq<Request>)
    ensures |r| == |raw|
    ensures forall i :: 0 <= i < |raw| ==> r[i] == FormatRequest(raw[i])
  {
    seq(|raw|, i requires 0 <= i < |raw| => FormatRequest(raw[i]))
  }

  // ---------------------------------------------------------------------
  // Search

  /** The query occurs in the e-mail, in the name when there is one, or in
      the topic. */
  predicate Matches(r: Request, query: string) {
    Includes(Lower(r.student), query)
    || (Truthy(r.studentName) && Includes(Lower(r.studentName.value), query))
    || Includes(Lower(r.topic), query)
  }

  function Search(requests: seq<Request>, query: string): seq<Request> {
    Filter(requests, (r: Request) => Matches(r, query))
  }

  /** The search keeps exactly the matching requests, as an order-preserving
      sub-list, and the empty query keeps them all. */
  lemma SearchSpec(requests: seq<Request>, query: string)
    ensures forall r :: r in Search(requests, query) <==> r in requests && Matches(r, query)
    ensures IsSubsequence(Search(requests, query), requests)
    ensures query == "" ==> Search(requests, query) == requests
  {
    var s := Search(requests, query);
    FilterSpec(requests, (r: Request) => Matches(r, query));
    forall r | r in s ensures r in requests && Matches(r, query) {
      var i :| 0 <= i < |s| && s[i] == r;
    }
    forall r | r in requests && Matches(r, query) ensures r in s {
      var i :| 0 <= i < |requests| && requests[i] == r;
    }
    if query == "" {
      forall i | 0 <= i < |requests| ensures Matches(requests[i], query) {
        IncludesEmpty(Lower(requests[i].student));
      }
      FilterAll(requests, (r: Request) => Matches(r, query));
    }
  }

  // ---------------------------------------------------------------------
  // Updates by id

  /** `requests.map(req => req.id === id ? { ...req, status: action, isNew: false } : req)`. */
  function SetStatus(requests: seq<Request>, id: string, action: string): (r: seq<Request>)
    ensures |r| == |requests|
    ensures forall i :: 0 <= i < |r| && requests[i].id == id ==> r[i] == requests[i].(status := action, isNew := false)
    ensures forall i :: 0 <= i < |r| && requests[i].id != id ==> r[i] == requests[i]
  {
    seq(|requests|, i requires 0 <= i < |requests| =>
      if requests[i].id == id then requests[i].(status := action, isNew := false) else requests[i])
  }

  /** `requests.map(req => req.id === currentRequestId ? { ...req, zoomLink } : req)`;
      no id (`null`) matches no request. */
  function SetZoomLink(requests: seq<Request>, id: Option<string>, link: string): (r: seq<Request>)
    ensures |r| == |requests|
    ensures forall i :: 0 <= i < |r| && id == Some(requests[i].id) ==> r[i] == requests[i].(zoomLink := link)
    ensures forall i :: 0 <= i < |r| && id != Some(requests[i].id) ==> r[i] == requests[i]
  {
    seq(|requests|, i requires 0 <= i < |requests| =>
      if id == Some(requests[i].id) then requests[i].(zoomLink := link) else requests[i])
  }

  /** Setting the same status twice is the same as setting it once. */
  lemma SetStatusIdempotent(requests: seq<Request>, id: string, action: string)
    ensures SetStatus(SetStatus(requests, id, action), id, action) == SetStatus(requests, id, action)
  {
  }

  /** Updates of two different ids commute. */
  lemma SetStatusCommutes(requests: seq<Request>, a: string, b: string, x: string, y: string)
    requires a != b
    ensures SetStatus(SetStatus(requests, a, x), b, y) == SetStatus(SetStatus(requests, b, y), a, x)
  {
  }

  // ---------------------------------------------------------------------
  // Action buttons

  datatype Action = ViewDetails | ZoomLinkButton(caption: string) | Accept | Decline

  /** The buttons a request's card shows. */
  function ActionsFor(r: Request): seq<Action> {
    [ViewDetails]
    + (if r.status == "Accepted" then [ZoomLinkButton(if r.zoomLink != "" then "Update Zoom Link" else "Add Zoom Link")] else [])
    + (if r.status == "Pending" then [Accept, Decline] else [])
  }

  /** Accept and Decline are offered exactly for pending requests, the Zoom
      link button exactly for accepted ones, labelled by whether a link is
      already set. */
  lemma ActionsForSpec(r: Request)
    ensures Accept in ActionsFor(r) <==> r.status == "Pending"
    ensures Decline in ActionsFor(r) <==> r.status == "Pending"
    ensures (exists l :: ZoomLinkButton(l) in ActionsFor(r)) <==> r.status == "Accepted"
    ensures ZoomLinkButton("Update Zoom Link") in ActionsFor(r) <==> r.status == "Accepted" && r.zoomLink != ""
  {
    if r.status == "Accepted" {
      var l := if r.zoomLink != "" then "Update Zoom Link" else "Add Zoom Link";
      assert ActionsFor(r)[1] == ZoomLinkButton(l);
    }
  }

  /** Once a request is accepted its Accept and Decline buttons are gone and
      the Zoom link button takes their place; a declined request keeps only
      View Details. */
  lemma ActionsAfterHandling(requests: seq<Request>, id: string, i: int)
    requires 0 <= i < |requests| && requests[i].id == id
    ensures Accept !in ActionsFor(SetStatus(requests, id, "Accepted")[i])
    ensures exists l :: ZoomLinkButton(l) in ActionsFor(SetStatus(requests, id, "Accepted")[i])
    ensures ActionsFor(SetStatus(requests, id, "Declined")[i]) == [ViewDetails]
  {
    ActionsForSpec(SetStatus(requests, id, "Accepted")[i]);
  }

  // ---------------------------------------------------------------------
  // The page

  class RequestsPage {
    var requests: seq<Request>
    var filteredRequests: seq<Request>
    var searchQuery: string
    var showZoomModal: bool
    var zoomLink: string
    var loading: bool
    var error: Option<string>
    var currentRequestId: Option<string>

    /** The search view agrees with the list and the query. */
    predicate FilterCurrent()
      reads this
    {
      filteredRequests == Search(requests, searchQuery)
    }

    constructor()
      ensures requests == [] && filteredRequests == [] && searchQuery == ""
      ensures !showZoomModal && zoomLink == "" && currentRequestId == None
      ensures loading && error == Some("")
      ensures FilterCurrent()
    {
      requests := [];
      filteredRequests := [];
      searchQuery := "";
      showZoomModal := false;
      zoomLink := "";
      loading := true;
      error := Some("");
      currentRequestId := None;
    }

    /** fetchRequests: without a token nothing is sent; otherwise the list
        is replaced by the normalised requests, and the search view is reset
        to the whole list whatever the query. */
    method FetchRequests(token: Option<string>, response: Response<Option<seq<RawRequest>>>) returns (sent: bool)
      modifies this
      ensures sent <==> Truthy(token)
      ensures !sent ==> error == Some("Unauthorized: No token found.")
      ensures sent && response.Ok? && response.data.Some? ==>
        requests == FormatAll(response.data.value) && filteredRequests == requests && error == None
      ensures sent && response.Ok? && response.data.None? ==> error == Some("No class requests found")
      ensures sent && response.Failed? ==> error == Some("Failed to load class requests. Please try again.")
      ensures !(sent && response.Ok? && response.data.Some?) ==>
        requests == old(requests) && filteredRequests == old(filteredRequests)
      ensures !loading
      ensures searchQuery == old(searchQuery) && showZoomModal == old(showZoomModal)
      ensures zoomLink == old(zoomLink) && currentRequestId == old(currentRequestId)
    {
      loading := true;
      error := None;
      if !Truthy(token) {
        error := Some("Unauthorized: No token found.");
        loading := false;
        return false;
      }
      sent := true;
      match response {
        case Ok(Some(raw)) =>
          var formatted := FormatAll(raw);
          requests := formatted;
          filteredRequests := formatted;
        case Ok(None) =>
          error := Some("No class requests found");
        case Failed(_) =>
          error := Some("Failed to load class requests. Please try again.");
      }
      loading := false;
    }

    /** handleSearchChange. */
    method HandleSearchChange(value: string)
      modifies this
      ensures searchQuery == Lower(value)
      ensures filteredRequests == Search(requests, Lower(value))
      ensures FilterCurrent()
      ensures requests == old(requests) && showZoomModal == old(showZoomModal) && zoomLink == old(zoomLink)
      ensures loading == old(loading) && error == old(error) && currentRequestId == old(currentRequestId)
    {
      var query := Lower(value);
      searchQuery := query;
      filteredRequests := Search(requests, query);
    }

    /** handleAction(id, action): after a successful post, the requests with
        that id take the new status and lose their "new" mark, the search
        view is recomputed, and a reload is started (`refresh`); a failed
        post only raises the alert. */
    method HandleAction(id: string, action: string, post: Response<()>) returns (alert: Option<string>, refresh: bool)
      modifies this
      ensures post.Ok? ==> requests == SetStatus(old(requests), id, action) && FilterCurrent()
      ensures post.Ok? ==> alert == None && refresh
      ensures post.Failed? ==> alert == Some("Failed to update request status. Please try again.") && !refresh
      ensures post.Failed? ==> requests == old(requests) && filteredRequests == old(filteredRequests)
      ensures searchQuery == old(searchQuery) && showZoomModal == old(showZoomModal) && zoomLink == old(zoomLink)
      ensures loading == old(loading) && error == old(error) && currentRequestId == old(currentRequestId)
    {
      if post.Failed? {
        return Some("Failed to update request status. Please try again."), false;
      }
      var updated := SetStatus(requests, id, action);
      requests := updated;
      filteredRequests := Search(updated, searchQuery);
      return None, true;
    }

    /** openZoomModal(request). */
    method OpenZoomModal(request: Request)
      modifies this
      ensures currentRequestId == Some(request.id) && zoomLink == request.zoomLink && showZoomModal
      ensures requests == old(requests) && filteredRequests == old(filteredRequests) && searchQuery == old(searchQuery)
      ensures loading == old(loading) && error == old(error)
    {
      currentRequestId := Some(request.id);
      zoomLink := request.zoomLink;
      showZoomModal := true;
    }

    /** Typing in the modal's input. */
    method SetZoomLinkInput(value: string)
      modifies this
      ensures zoomLink == value
      ensures requests == old(requests) && filteredRequests == old(filteredRequests) && searchQuery == old(searchQuery)
      ensures showZoomModal == old(showZoomModal) && currentRequestId == old(currentRequestId)
      ensures loading == old(loading) && error == old(error)
    {
      zoomLink := value;
    }

    /** The modal's Cancel button. */
    method CancelZoomModal()
      modifies this
      ensures !showZoomModal && zoomLink == "" && currentRequestId == None
      ensures requests == old(requests) && filteredRequests == old(filteredRequests) && searchQuery == old(searchQuery)
      ensures loading == old(loading) && error == old(error)
    {
      showZoomModal := false;
      zoomLink := "";
      currentRequestId := None;
    }

    /** handleAddZoomLink: a blank link raises an alert and changes nothing;
        a successful save sets the link on the current request only,
        recomputes the search view, closes and clears the modal and starts a
        reload; a failed save only raises an alert. */
    method HandleAddZoomLink(patch: Response<()>) returns (alert: string, sent: bool, refresh: bool)
      modifies this
      ensures sent <==> !IsBlank(old(zoomLink))
      ensures !sent ==> alert == "Please enter a valid Zoom link"
      ensures !sent || patch.Failed? ==>
        requests == old(requests) && filteredRequests == old(filteredRequests)
        && showZoomModal == old(showZoomModal) && zoomLink == old(zoomLink) && currentRequestId == old(currentRequestId)
      ensures sent && patch.Failed? ==> alert == "Failed to add Zoom link. Please try again."
      ensures sent && patch.Ok? ==>
        requests == SetZoomLink(old(requests), old(currentRequestId), old(zoomLink)) && FilterCurrent()
        && !showZoomModal && zoomLink == "" && currentRequestId == None
        && alert == "Zoom link has been added successfully"
      ensures refresh <==> sent && patch.Ok?
      ensures searchQuery == old(searchQuery) && loading == old(loading) && error == old(error)
    {
      if IsBlank(zoomLink) {
        alert, sent, refresh := "Please enter a valid Zoom link", false, false;
      } else if patch.Failed? {
        alert, sent, refresh := "Failed to add Zoom link. Please try again.", true, false;
      } else {
        var updated := SetZoomLink(requests, currentRequestId, zoomLink);
        requests := updated;
        filteredRequests := Search(updated, searchQuery);
        showZoomModal := false;
        zoomLink := "";
        currentRequestId := None;
        alert, sent, refresh := "Zoom link has been added successfully", true, true;
      }
    }
  }

  /** The reload that follows an action shows every request again even
      while a query is typed: the search box keeps its text but the list is
      no longer filtered by it. */
  lemma ReloadIgnoresQuery(requests: seq<Request>, query: string)
    requires exists i :: 0 <= i < |requests| && !Matches(requests[i], query)
    ensures requests != Search(requests, query)
  {
    var i :| 0 <= i < |requests| && !Matches(requests[i], query);
    SearchSpec(requests, query);
    assert requests[i] in requests;
    assert requests[i] !in Search(requests, query);
  }
}
