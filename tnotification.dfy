/** The tutor's notification page: the notifications loaded with the login
    token, and a search over their message and read status. */
module TNotification {
  import opened Common

  datatype Notification = Notification(message: string, createdAt: string, status: string)

  /** A notification is kept when the query occurs in its lowercased message
      or its lowercased status. */
  predicate Matches(n: Notification, query: string) {
    Includes(Lower(n.message), query) || Includes(Lower(n.status), query)
  }

  /** `filteredNotifications`. */
  function FilterNotifications(notifications: seq<Notification>, query: string): seq<Notification> {
    Filter(notifications, (n: Notification) => Matches(n, query))
  }

  /** The search keeps, in their order, exactly the notifications whose
      message or status contains the query; the empty query keeps them all. */
  lemma FilterNotificationsSpec(notifications: seq<Notification>, query: string)
    ensures forall n :: n in FilterNotifications(notifications, query) <==> n in notifications && Matches(n, query)
    ensures IsSubsequence(FilterNotifications(notifications, query), notifications)
    ensures query == "" ==> FilterNotifications(notifications, query) == notifications
  {
    var r := FilterNotifications(notifications, query);
    FilterSpec(notifications, (n: Notification) => Matches(n, query));
    forall n | n in r ensures n in notifications && Matches(n, query) {
      var i :| 0 <= i < |r| && r[i] == n;
    }
    forall n | n in notifications && Matches(n, query) ensures n in r {
      var i :| 0 <= i < |notifications| && notifications[i] == n;
    }
    if query == "" {
      forall i | 0 <= i < |notifications| ensures Matches(notifications[i], query) {
        IncludesEmpty(Lower(notifications[i].message));
      }
      FilterAll(notifications, (n: Notification) => Matches(n, query));
    }
  }

  /** Searching by read status: a notification whose status contains the
      query is kept whatever its message says. */
  lemma StatusQueryKeepsStatus(notifications: seq<Notification>, query: string)
    ensures forall i :: 0 <= i < |notifications| && Includes(Lower(notifications[i].status), query) ==>
      notifications[i] in FilterNotifications(notifications, query)
  {
    FilterSpec(notifications, (n: Notification) => Matches(n, query));
  }

  /** What the page body shows. */
  datatype View =
    | Spinner
    | ErrorBanner(text: string)
    | List(items: seq<Notification>)
    | NoneFound(suggestAdjusting: bool)

  class NotificationPage {
    var notifications: seq<Notification>
    var loading: bool
    var error: Option<string>
    var searchQuery: string

    constructor()
      ensures notifications == [] && loading && error == None && searchQuery == ""
    {
      notifications := [];
      loading := true;
      error := None;
      searchQuery := "";
    }

    /** `fetchNotifications`. `token` is the stored token (None when absent
        or empty). The early return for a missing token still runs the
        `finally` block, so `loading` always ends false. */
    method FetchNotifications(token: Option<string>, response: Response<seq<Notification>>) returns (requested: bool)
      modifies this
      ensures !loading
      ensures requested <==> token.Some?
      ensures token.None? ==> error == Some("Unauthorized: No token found.") && notifications == old(notifications)
      ensures requested && response.Ok? ==> error == None && notifications == response.data
      ensures requested && response.Failed? ==>
        error == Some("Failed to fetch notifications. Please try again.") && notifications == old(notifications)
      ensures searchQuery == old(searchQuery)
    {
      loading := true;
      error := None;
      if token.None? {
        error := Some("Unauthorized: No token found.");
        loading := false;
        return false;
      }
      requested := true;
      match response {
        case Ok(data) =>
          notifications := data;
        case Failed(_) =>
          error := Some("Failed to fetch notifications. Please try again.");
      }
      loading := false;
    }

    method HandleSearchChange(value: string)
      modifies this
      ensures searchQuery == Lower(value)
      ensures notifications == old(notifications) && loading == old(loading) && error == old(error)
    {
      searchQuery := Lower(value);
    }

    function Filtered(): seq<Notification>
      reads this
    {
      FilterNotifications(notifications, searchQuery)
    }

    /** The page body: the spinner while loading, else the error, else the
        matching notifications, else "No Notifications Found" with a hint
        when a query is typed. */
    function Body(): (v: View)
      reads this
      ensures v == Spinner <==> loading
      ensures v.ErrorBanner? <==> !loading && error.Some?
      ensures v.List? ==> v.items == Filtered() && v.items != []
      ensures v.NoneFound? <==> !loading && error.None? && Filtered() == []
      ensures v.NoneFound? ==> (v.suggestAdjusting <==> searchQuery != "")
    {
      if loading then Spinner
      else if error.Some? then ErrorBanner(error.value)
      else if Filtered() != [] then List(Filtered())
      else NoneFound(searchQuery != "")
    }
  }

  /** After any fetch the spinner is gone: a missing token shows its error
      rather than loading for ever. */
  method FetchNeverLeavesSpinner(page: NotificationPage, token: Option<string>, response: Response<seq<Notification>>)
    modifies page
    ensures page.Body() != Spinner
    ensures token.None? ==> page.Body() == ErrorBanner("Unauthorized: No token found.")
  {
    var requested := page.FetchNotifications(token, response);
  }
}
