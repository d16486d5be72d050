/**
 * The notifications page of static/js/notification-page.js: the page's
 * state object (filter, page, loading flag, the loaded notifications and the
 * unread counter) and the pure helpers it renders with. Server replies are
 * parameters; a reply that never arrives is a load that never finishes.
 */
module NotificationPage {
  import opened Wrappers
  import opened Strings

  /** A notification as the API sends it. */
  datatype ApiNotification = ApiNotification(id: string, kind: string, message: string, status: string, createdAt: string)

  /** A notification as the page keeps it. */
  datatype Notification = Notification(id: string, title: string, message: string, kind: string,
                                       status: string, timestamp: string, read: bool)

  datatype Pagination = Pagination(page: int, totalPages: int, total: int)

  /** What `api.getNotifications` gives: a thrown error or a reply with optional data and pagination. */
  datatype LoadReply = LoadThrown | LoadReplied(success: bool, data: Option<seq<ApiNotification>>, pagination: Option<Pagination>)

  /** What `api.getUnreadNotificationsCount` gives; `unreadCount` is `None` when it is not a number. */
  datatype CountReply = CountThrown | CountReplied(success: bool, unreadCount: Option<int>)

  /** A toast shown to the user. */
  datatype Toast = Toast(text: string, kind: string)

  const PerPage := 20

  /** `getNotificationTitle`. */
  function Title(kind: string): (r: string)
    ensures kind !in {"general", "booking", "booking_created", "payment", "reminder", "alert", "system"} ==> r == "Notification"
    ensures kind == "booking" ==> r == "Booking Update"
  {
    match kind
    case "general" => "General Notification"
    case "booking" => "Booking Update"
    case "booking_created" => "Booking Created"
    case "payment" => "Payment Notification"
    case "reminder" => "Reminder"
    case "alert" => "Alert"
    case "system" => "System Notification"
    case _ => "Notification"
  }

  /** `mapNotificationType`: the display style of an API type, "info" by default. */
  function DisplayType(apiType: string): (r: string)
    ensures r in {"info", "success", "warning", "error"}
    ensures r == "success" <==> apiType == "payment"
    ensures r == "warning" <==> apiType == "reminder"
    ensures r == "error" <==> apiType == "alert"
  {
    match apiType
    case "payment" => "success"
    case "reminder" => "warning"
    case "alert" => "error"
    case _ => "info"
  }

  /** One element of the `processNotifications` map. */
  function Convert(n: ApiNotification): (r: Notification)
    ensures r.read <==> n.status == "read"
    ensures r.id == n.id && r.kind == n.kind && r.status == n.status && r.title == Title(n.kind)
  {
    Notification(n.id, Title(n.kind), n.message, n.kind, n.status, n.createdAt, n.status == "read")
  }

  function ConvertAll(data: seq<ApiNotification>): (r: seq<Notification>)
    ensures |r| == |data|
    ensures forall i :: 0 <= i < |data| ==> r[i] == Convert(data[i])
  {
    seq(|data|, i requires 0 <= i < |data| => Convert(data[i]))
  }

  /** The number of notifications not yet read. */
  function UnreadCount(ns: seq<Notification>): (r: nat)
    ensures r <= |ns|
  {
    if ns == [] then 0 else (if ns[0].read then 0 else 1) + UnreadCount(ns[1..])
  }

  lemma {:induction false} UnreadCountAppend(a: seq<Notification>, b: seq<Notification>)
    ensures UnreadCount(a + b) == UnreadCount(a) + UnreadCount(b)
    decreases |a|
  {
    if a == [] {
      assert a + b == b;
    } else {
      assert (a + b)[1..] == a[1..] + b;
      UnreadCountAppend(a[1..], b);
    }
  }

  /** Replacing one notification changes the unread count by that notification's own contribution. */
  lemma {:induction false} UnreadCountUpdate(ns: seq<Notification>, i: nat, n: Notification)
    requires i < |ns|
    ensures UnreadCount(ns[i := n]) ==
      UnreadCount(ns) - (if ns[i].read then 0 else 1) + (if n.read then 0 else 1)
  {
    assert ns == ns[..i] + [ns[i]] + ns[i + 1..];
    assert ns[i := n] == ns[..i] + [n] + ns[i + 1..];
    UnreadCountAppend(ns[..i] + [ns[i]], ns[i + 1..]);
    UnreadCountAppend(ns[..i], [ns[i]]);
    UnreadCountAppend(ns[..i] + [n], ns[i + 1..]);
    UnreadCountAppend(ns[..i], [n]);
  }

  /** The type names that filter by exact type. */
  const TypeFilters: set<string> := {"general", "booking", "payment", "reminder", "alert", "system"}

  /** Whether `filter` keeps `n`: unread keeps the unread ones, a type name its own type, anything else all. */
  predicate Keeps(filter: string, n: Notification)
  {
    if filter == "unread" then !n.read
    else if filter in TypeFilters then n.kind == filter
    else true
  }

  /** `getFilteredNotifications`: an order-preserving selection. */
  function Filtered(ns: seq<Notification>, filter: string): (r: seq<Notification>)
    ensures |r| <= |ns|
    ensures forall n :: n in r <==> n in ns && Keeps(filter, n)
    ensures filter != "unread" && filter !in TypeFilters ==> r == ns
  {
    if ns == [] then []
    else (if Keeps(filter, ns[0]) then [ns[0]] else []) + Filtered(ns[1..], filter)
  }

  /** Filtering distributes over concatenation, so the relative order of kept items is unchanged. */
  lemma {:induction false} FilteredAppend(a: seq<Notification>, b: seq<Notification>, filter: string)
    ensures Filtered(a + b, filter) == Filtered(a, filter) + Filtered(b, filter)
    decreases |a|
  {
    if a == [] {
      assert a + b == b;
    } else {
      assert (a + b)[1..] == a[1..] + b;
      FilteredAppend(a[1..], b, filter);
    }
  }

  /** The unread filter shows exactly as many items as the unread counter counts. */
  lemma {:induction false} UnreadFilterCount(ns: seq<Notification>)
    ensures |Filtered(ns, "unread")| == UnreadCount(ns)
  {
    if ns != [] {
      UnreadFilterCount(ns[1..]);
    }
  }

  /** The first position holding `id`, if any. */
  function FirstIndex(ns: seq<Notification>, id: string): (r: Option<nat>)
    ensures r.Some? ==> r.value < |ns| && ns[r.value].id == id && forall j :: 0 <= j < r.value ==> ns[j].id != id
    ensures r.None? ==> forall j :: 0 <= j < |ns| ==> ns[j].id != id
  {
    if ns == [] then None
    else if ns[0].id == id then Some(0)
    else match FirstIndex(ns[1..], id)
      case None => None
      case Some(k) => Some(k + 1)
  }

  /** `Array.prototype.find` over the ids. */
  method FindIndex(ns: seq<Notification>, id: string) returns (idx: Option<nat>)
    ensures idx == FirstIndex(ns, id)
  {
    var i := 0;
    while i < |ns|
      invariant 0 <= i <= |ns|
      invariant forall j :: 0 <= j < i ==> ns[j].id != id
    {
      if ns[i].id == id {
        return Some(i);
      }
      i := i + 1;
    }
    return None;
  }

  /** A notification after it has been marked read. */
  function MarkedOne(n: Notification): Notification
  {
    n.(read := true, status := "read")
  }

  /** The list after a successful `markAsRead(id)`: the first item with that id is marked read. */
  function MarkedRead(ns: seq<Notification>, id: string): (r: seq<Notification>)
  {
    match FirstIndex(ns, id)
    case None => ns
    case Some(i) => ns[i := MarkedOne(ns[i])]
  }

  /** Only the first item with the id changes; the unread count drops by one exactly when that item was unread. */
  lemma MarkedReadChangesOne(ns: seq<Notification>, id: string)
    ensures var r := MarkedRead(ns, id);
      |r| == |ns| &&
      (forall j :: 0 <= j < |ns| && Some(j) != FirstIndex(ns, id) ==> r[j] == ns[j]) &&
      (forall j :: 0 <= j < |ns| && Some(j) == FirstIndex(ns, id) ==> r[j].read && r[j].status == "read" && r[j].id == id) &&
      UnreadCount(r) == UnreadCount(ns) -
        (if FirstIndex(ns, id).Some? && !ns[FirstIndex(ns, id).value].read then 1 else 0)
  {
    var fi := FirstIndex(ns, id);
    if fi.Some? {
      UnreadCountUpdate(ns, fi.value, MarkedOne(ns[fi.value]));
    }
  }

  /** The list after a successful `deleteNotification(id)`. */
  function Without(ns: seq<Notification>, id: string): (r: seq<Notification>)
    ensures |r| <= |ns|
    ensures forall n :: n in r <==> n in ns && n.id != id
  {
    if ns == [] then []
    else (if ns[0].id != id then [ns[0]] else []) + Without(ns[1..], id)
  }

  /** Deleting from a concatenation deletes from each part: the items that stay keep their order. */
  lemma {:induction false} WithoutAppend(a: seq<Notification>, b: seq<Notification>, id: string)
    ensures Without(a + b, id) == Without(a, id) + Without(b, id)
  {
    if a == [] {
      assert a + b == b;
    } else {
      assert (a + b)[1..] == a[1..] + b;
      WithoutAppend(a[1..], b, id);
    }
  }

  /** Deleting never raises the unread count. */
  lemma {:induction false} WithoutUnread(ns: seq<Notification>, id: string)
    ensures UnreadCount(Without(ns, id)) <= UnreadCount(ns)
  {
    if ns != [] {
      WithoutUnread(ns[1..], id);
      UnreadCountAppend(if ns[0].id != id then [ns[0]] else [], Without(ns[1..], id));
    }
  }

  /** The list after a successful `markAllAsRead`. */
  function AllRead(ns: seq<Notification>): (r: seq<Notification>)
    ensures |r| == |ns|
  {
    seq(|ns|, i requires 0 <= i < |ns| => MarkedOne(ns[i]))
  }

  /** After marking all, nothing is unread and each item keeps its id, type and message. */
  lemma {:induction false} AllReadNoneUnread(ns: seq<Notification>)
    ensures UnreadCount(AllRead(ns)) == 0
    ensures forall i :: 0 <= i < |ns| ==> (AllRead(ns)[i].read && AllRead(ns)[i].id == ns[i].id &&
      AllRead(ns)[i].kind == ns[i].kind && AllRead(ns)[i].message == ns[i].message)
  {
    if ns != [] {
      AllReadNoneUnread(ns[1..]);
      assert AllRead(ns)[1..] == AllRead(ns[1..]);
    }
  }

  /** What `updateStats` writes: the total text, the unread text and whether the mark-all button is disabled. */
  datatype Stats = Stats(totalText: string, unreadText: string, markAllDisabled: bool)

  function StatsOf(ns: seq<Notification>): (r: Stats)
    ensures r.markAllDisabled <==> UnreadCount(ns) == 0
    ensures r.unreadText == NatToString(UnreadCount(ns)) + " unread"
    ensures r.totalText == NatToString(|ns|) + (if |ns| == 1 then " notification" else " notifications")
  {
    var total := |ns|;
    var unread := UnreadCount(ns);
    Stats(NatToString(total) + " notification" + (if total != 1 then "s" else ""),
          NatToString(unread) + " unread", unread == 0)
  }

  /** After a successful mark-all the button is disabled and the page says "0 unread". */
  lemma StatsAfterMarkAll(ns: seq<Notification>)
    ensures StatsOf(AllRead(ns)).markAllDisabled
    ensures StatsOf(AllRead(ns)).unreadText == "0 unread"
  {
    AllReadNoneUnread(ns);
  }

  /** What `updatePagination` shows: hidden for one page, else the button states and "Page p of n". */
  datatype PagerView = Hidden | Pager(prevDisabled: bool, nextDisabled: bool, info: string)

  function PagerOf(p: Option<Pagination>): (r: PagerView)
    ensures r.Hidden? <==> p.None? || p.value.totalPages <= 1
    ensures r.Pager? ==> (r.prevDisabled <==> p.value.page <= 1) && (r.nextDisabled <==> p.value.page >= p.value.totalPages)
  {
    if p.None? || p.value.totalPages <= 1 then Hidden
    else Pager(p.value.page <= 1, p.value.page >= p.value.totalPages,
               "Page " + IntToString(p.value.page) + " of " + IntToString(p.value.totalPages))
  }

  /** What `handleMarkAllRead` does: an info toast when nothing is unread, else a confirmation naming the count. */
  datatype Prompt = Info(text: string) | Confirm(title: string, message: string)

  function MarkAllPrompt(ns: seq<Notification>): (r: Prompt)
    ensures r.Info? <==> UnreadCount(ns) == 0
    ensures r.Confirm? ==> (r.message ==
      "Are you sure you want to mark all " + NatToString(UnreadCount(ns)) + " unread notifications as read?")
  {
    var unread := |Filtered(ns, "unread")|;
    UnreadFilterCount(ns);
    if unread == 0 then Info("No unread notifications to mark as read")
    else Confirm("Mark All as Read", "Are you sure you want to mark all " + NatToString(unread) + " unread notifications as read?")
  }

  /**
   * `formatTimeAgo` on the elapsed milliseconds: the floored seconds bucketed
   * into "Just now", minutes, hours and days; `None` stands for the locale
   * date text shown from a week on.
   */
  function TimeAgo(elapsedMs: int): (r: Option<string>)
    ensures r.None? <==> elapsedMs / 1000 >= 604800
  {
    var secs := elapsedMs / 1000;
    if secs < 60 then Some("Just now")
    else if secs < 3600 then Some(NatToString(secs / 60) + "m ago")
    else if secs < 86400 then Some(NatToString(secs / 3600) + "h ago")
    else if secs < 604800 then Some(NatToString(secs / 86400) + "d ago")
    else None
  }

  /** The bucket a time-ago text falls in, with the count it shows and the range that count covers. */
  lemma TimeAgoBuckets(elapsedMs: int)
    ensures var s := elapsedMs / 1000;
      (s < 60 ==> TimeAgo(elapsedMs) == Some("Just now")) &&
      (60 <= s < 3600 ==> (exists m: nat :: (1 <= m <= 59 && m * 60 <= s < (m + 1) * 60 &&
        TimeAgo(elapsedMs) == Some(NatToString(m) + "m ago")))) &&
      (3600 <= s < 86400 ==> (exists h: nat :: (1 <= h <= 23 && h * 3600 <= s < (h + 1) * 3600 &&
        TimeAgo(elapsedMs) == Some(NatToString(h) + "h ago")))) &&
      (86400 <= s < 604800 ==> (exists d: nat :: (1 <= d <= 6 && d * 86400 <= s < (d + 1) * 86400 &&
        TimeAgo(elapsedMs) == Some(NatToString(d) + "d ago"))))
  {
    var s := elapsedMs / 1000;
    if 60 <= s < 3600 {
      var m: nat := s / 60;
      assert 1 <= m <= 59 && m * 60 <= s < (m + 1) * 60;
      assert TimeAgo(elapsedMs) == Some(NatToString(m) + "m ago");
    } else if 3600 <= s < 86400 {
      var h: nat := s / 3600;
      assert 1 <= h <= 23 && h * 3600 <= s < (h + 1) * 3600;
      assert TimeAgo(elapsedMs) == Some(NatToString(h) + "h ago");
    } else if 86400 <= s < 604800 {
      var d: nat := s / 86400;
      assert 1 <= d <= 6 && d * 86400 <= s < (d + 1) * 86400;
      assert TimeAgo(elapsedMs) == Some(NatToString(d) + "d ago");
    }
  }

  /** A timestamp in the future reads "Just now". */
  lemma FutureIsJustNow(elapsedMs: int)
    requires elapsedMs < 0
    ensures TimeAgo(elapsedMs) == Some("Just now")
  {
  }

  /** The `NotificationPage` object. */
  class Page {
    var currentFilter: string
    var currentPage: int
    var totalPages: int
    var isLoading: bool
    var notifications: seq<Notification>
    var unreadCount: int
    var totalNotifications: int

    constructor ()
      ensures currentFilter == "all" && currentPage == 1 && totalPages == 1 && !isLoading
      ensures notifications == [] && unreadCount == 0 && totalNotifications == 0
    {
      currentFilter := "all";
      currentPage := 1;
      totalPages := 1;
      isLoading := false;
      notifications := [];
      unreadCount := 0;
      totalNotifications := 0;
    }

    /** The items the list shows under the current filter. */
    function Visible(): seq<Notification>
      reads this
    {
      Filtered(notifications, currentFilter)
    }

    /** The previous-page button: moves back only from a page after the first. */
    method PrevPage() returns (moved: bool)
      modifies this
      ensures moved <==> old(currentPage) > 1
      ensures currentPage == if moved then old(currentPage) - 1 else old(currentPage)
      ensures notifications == old(notifications) && totalPages == old(totalPages) && isLoading == old(isLoading)
      ensures unreadCount == old(unreadCount) && currentFilter == old(currentFilter) && totalNotifications == old(totalNotifications)
    {
      moved := currentPage > 1;
      if moved {
        currentPage := currentPage - 1;
      }
    }

    /** The next-page button: moves on only before the last page. */
    method NextPage() returns (moved: bool)
      modifies this
      ensures moved <==> old(currentPage) < old(totalPages)
      ensures currentPage == if moved then old(currentPage) + 1 else old(currentPage)
      ensures notifications == old(notifications) && totalPages == old(totalPages) && isLoading == old(isLoading)
      ensures unreadCount == old(unreadCount) && currentFilter == old(currentFilter) && totalNotifications == old(totalNotifications)
    {
      moved := currentPage < totalPages;
      if moved {
        currentPage := currentPage + 1;
      }
    }

    /**
     * The synchronous start of `loadNotifications`: nothing while a load is
     * in flight, else the flag is raised and the page and page size requested.
     */
    method BeginLoad() returns (request: Option<(int, int)>)
      modifies this
      ensures old(isLoading) ==> request.None? && isLoading
      ensures !old(isLoading) ==> request == Some((old(currentPage), PerPage)) && isLoading
      ensures currentPage == old(currentPage) && notifications == old(notifications) && unreadCount == old(unreadCount)
      ensures totalPages == old(totalPages) && currentFilter == old(currentFilter) && totalNotifications == old(totalNotifications)
    {
      if isLoading {
        return None;
      }
      isLoading := true;
      request := Some((currentPage, PerPage));
    }

    /**
     * The rest of `loadNotifications` once the reply is in: a successful
     * reply with data is processed (with the unread-count reply), anything
     * else leaves the list as it was; the flag is lowered in every case.
     */
    method FinishLoad(reply: LoadReply, countReply: CountReply)
      modifies this
      ensures !isLoading
      ensures reply.LoadReplied? && reply.success && reply.data.Some? ==>
        notifications == ConvertAll(reply.data.value) &&
        unreadCount == NewUnreadCount(countReply, notifications) &&
        (reply.pagination.Some? ==>
          currentPage == reply.pagination.value.page && totalPages == reply.pagination.value.totalPages &&
          totalNotifications == reply.pagination.value.total) &&
        (reply.pagination.None? ==>
          currentPage == old(currentPage) && totalPages == old(totalPages) && totalNotifications == old(totalNotifications))
      ensures !(reply.LoadReplied? && reply.success && reply.data.Some?) ==>
        notifications == old(notifications) && unreadCount == old(unreadCount) && currentPage == old(currentPage) &&
        totalPages == old(totalPages) && totalNotifications == old(totalNotifications)
      ensures currentFilter == old(currentFilter)
    {
      if reply.LoadReplied? && reply.success && reply.data.Some? {
        ProcessNotifications(reply.data.value, reply.pagination, countReply);
      }
      isLoading := false;
    }

    /** `processNotifications`, with the unread-count reply it triggers. */
    method ProcessNotifications(data: seq<ApiNotification>, pagination: Option<Pagination>, countReply: CountReply)
      modifies this
      ensures notifications == ConvertAll(data)
      ensures forall i :: 0 <= i < |data| ==> (notifications[i].read <==> data[i].status == "read")
      ensures unreadCount == NewUnreadCount(countReply, notifications)
      ensures pagination.Some? ==> (currentPage == pagination.value.page && totalPages == pagination.value.totalPages &&
        totalNotifications == pagination.value.total)
      ensures pagination.None? ==> (currentPage == old(currentPage) && totalPages == old(totalPages) &&
        totalNotifications == old(totalNotifications))
      ensures isLoading == old(isLoading) && currentFilter == old(currentFilter)
    {
      notifications := ConvertAll(data);
      if pagination.Some? {
        currentPage := pagination.value.page;
        totalPages := pagination.value.totalPages;
        totalNotifications := pagination.value.total;
      }
      FetchUnreadCount(countReply);
    }

    /** `fetchUnreadCount`. */
    method FetchUnreadCount(reply: CountReply)
      modifies this
      ensures unreadCount == NewUnreadCount(reply, notifications)
      ensures notifications == old(notifications) && currentPage == old(currentPage) && totalPages == old(totalPages)
      ensures isLoading == old(isLoading) && currentFilter == old(currentFilter) && totalNotifications == old(totalNotifications)
    {
      if reply.CountReplied? && reply.success && reply.unreadCount.Some? {
        unreadCount := reply.unreadCount.value;
      } else {
        unreadCount := UnreadCount(notifications);
      }
    }

    /** `handleFilterChange`: only the filter changes. */
    method HandleFilterChange(filter: string)
      modifies this
      ensures currentFilter == filter
      ensures notifications == old(notifications) && unreadCount == old(unreadCount) && currentPage == old(currentPage)
      ensures totalPages == old(totalPages) && isLoading == old(isLoading) && totalNotifications == old(totalNotifications)
    {
      currentFilter := filter;
    }

    /** `markAsRead`: on success the first item with the id is marked read; a toast reports the outcome. */
    method MarkAsRead(id: string, success: bool) returns (toast: Toast)
      modifies this
      ensures success ==> (notifications == MarkedRead(old(notifications), id) &&
        toast == Toast("Notification marked as read", "success"))
      ensures !success ==> (notifications == old(notifications) &&
        toast == Toast("Failed to mark notification as read", "error"))
      ensures unreadCount == old(unreadCount) && currentPage == old(currentPage) && totalPages == old(totalPages)
      ensures isLoading == old(isLoading) && currentFilter == old(currentFilter) && totalNotifications == old(totalNotifications)
    {
      if !success {
        return Toast("Failed to mark notification as read", "error");
      }
      var idx := FindIndex(notifications, id);
      if idx.Some? {
        notifications := notifications[idx.value := MarkedOne(notifications[idx.value])];
      }
      toast := Toast("Notification marked as read", "success");
    }

    /** `deleteNotification`: on success every item with the id is removed. */
    method DeleteNotification(id: string, success: bool) returns (toast: Toast)
      modifies this
      ensures success ==> (notifications == Without(old(notifications), id) &&
        toast == Toast("Notification deleted successfully", "success"))
      ensures !success ==> (notifications == old(notifications) &&
        toast == Toast("Failed to delete notification", "error"))
      ensures unreadCount == old(unreadCount) && currentPage == old(currentPage) && totalPages == old(totalPages)
      ensures isLoading == old(isLoading) && currentFilter == old(currentFilter) && totalNotifications == old(totalNotifications)
    {
      if success {
        notifications := Without(notifications, id);
        toast := Toast("Notification deleted successfully", "success");
      } else {
        toast := Toast("Failed to delete notification", "error");
      }
    }

    /** `markAllAsRead`: on success each item in turn is marked read. */
    method MarkAllAsRead(success: bool) returns (toast: Toast)
      modifies this
      ensures success ==> (notifications == AllRead(old(notifications)) &&
        toast == Toast("All notifications marked as read", "success"))
      ensures !success ==> (notifications == old(notifications) &&
        toast == Toast("Failed to mark all notifications as read", "error"))
      ensures unreadCount == old(unreadCount) && currentPage == old(currentPage) && totalPages == old(totalPages)
      ensures isLoading == old(isLoading) && currentFilter == old(currentFilter) && totalNotifications == old(totalNotifications)
    {
      if !success {
        return Toast("Failed to mark all notifications as read", "error");
      }
      var i := 0;
      while i < |notifications|
        invariant 0 <= i <= |notifications| == |old(notifications)|
        invariant forall k :: 0 <= k < i ==> notifications[k] == MarkedOne(old(notifications)[k])
        invariant forall k :: i <= k < |notifications| ==> notifications[k] == old(notifications)[k]
        invariant unreadCount == old(unreadCount) && currentPage == old(currentPage) && totalPages == old(totalPages)
        invariant isLoading == old(isLoading) && currentFilter == old(currentFilter) && totalNotifications == old(totalNotifications)
      {
        notifications := notifications[i := MarkedOne(notifications[i])];
        i := i + 1;
      }
      toast := Toast("All notifications marked as read", "success");
    }
  }

  /** The unread counter `fetchUnreadCount` settles on: the server's number, else the local count. */
  function NewUnreadCount(reply: CountReply, ns: seq<Notification>): (r: int)
    ensures reply.CountReplied? && reply.success && reply.unreadCount.Some? ==> r == reply.unreadCount.value
    ensures !(reply.CountReplied? && reply.success && reply.unreadCount.Some?) ==> r == UnreadCount(ns)
  {
    if reply.CountReplied? && reply.success && reply.unreadCount.Some? then reply.unreadCount.value
    else UnreadCount(ns)
  }

  /** The pager's buttons are enabled exactly when the page buttons would move. */
  lemma PagerMatchesButtons(p: Pagination)
    requires p.totalPages > 1
    ensures var v := PagerOf(Some(p));
      v.Pager? && (!v.prevDisabled <==> p.page > 1) && (!v.nextDisabled <==> p.page < p.totalPages)
  {
  }

  /**
   * `markAsRead` as written, on a page that also loads the site-wide
   * notification manager: after the list is updated it calls the manager's
   * `fetchNotifications`, which the manager does not define, and the
   * resulting TypeError is caught as a failure, so the re-render is skipped
   * and the error toast is shown.
   */
  function MarkAsReadAsWritten(ns: seq<Notification>, id: string, success: bool, managerLoaded: bool): (r: (seq<Notification>, Toast))
    ensures !success ==> r == (ns, Toast("Failed to mark notification as read", "error"))
    ensures success ==> r.0 == MarkedRead(ns, id)
    ensures success ==> (r.1.kind == "error" <==> managerLoaded)
  {
    if !success then (ns, Toast("Failed to mark notification as read", "error"))
    else if managerLoaded then (MarkedRead(ns, id), Toast("Failed to mark notification as read", "error"))
    else (MarkedRead(ns, id), Toast("Notification marked as read", "success"))
  }

  /** With the manager loaded, a notification the server did mark read is reported as a failure. */
  lemma MarkAsReadAsWrittenReportsFailure(ns: seq<Notification>, id: string)
    requires FirstIndex(ns, id).Some? && !ns[FirstIndex(ns, id).value].read
    ensures var (after, toast) := MarkAsReadAsWritten(ns, id, true, true);
      UnreadCount(after) == UnreadCount(ns) - 1 && toast.kind == "error"
  {
    MarkedReadChangesOne(ns, id);
  }

  /**
   * `deleteNotification` as written: with the site-wide manager loaded, the
   * call to its undefined `fetchNotifications` throws after the item is
   * removed, and the catch reports a failure.
   */
  function DeleteNotificationAsWritten(ns: seq<Notification>, id: string, success: bool, managerLoaded: bool): (r: (seq<Notification>, Toast))
    ensures !success ==> r == (ns, Toast("Failed to delete notification", "error"))
    ensures success ==> r.0 == Without(ns, id)
    ensures success ==> (r.1.kind == "error" <==> managerLoaded)
  {
    if !success then (ns, Toast("Failed to delete notification", "error"))
    else if managerLoaded then (Without(ns, id), Toast("Failed to delete notification", "error"))
    else (Without(ns, id), Toast("Notification deleted successfully", "success"))
  }

  /** With the manager loaded, a notification the server did delete is gone from the list and yet reported as a failure. */
  lemma DeleteNotificationAsWrittenReportsFailure(ns: seq<Notification>, id: string)
    ensures var (after, toast) := DeleteNotificationAsWritten(ns, id, true, true);
      (forall k :: 0 <= k < |after| ==> after[k].id != id) && toast == Toast("Failed to delete notification", "error")
  {
    var after := Without(ns, id);
    forall k | 0 <= k < |after| ensures after[k].id != id {
      assert after[k] in after;
    }
  }

  /**
   * `markAllAsRead` as written: with the site-wide manager loaded, the call
   * to its undefined `fetchNotifications` throws after every item is marked
   * read, and the catch reports a failure.
   */
  function MarkAllAsReadAsWritten(ns: seq<Notification>, success: bool, managerLoaded: bool): (r: (seq<Notification>, Toast))
    ensures !success ==> r == (ns, Toast("Failed to mark all notifications as read", "error"))
    ensures success ==> r.0 == AllRead(ns)
    ensures success ==> (r.1.kind == "error" <==> managerLoaded)
  {
    if !success then (ns, Toast("Failed to mark all notifications as read", "error"))
    else if managerLoaded then (AllRead(ns), Toast("Failed to mark all notifications as read", "error"))
    else (AllRead(ns), Toast("All notifications marked as read", "success"))
  }

  /** With the manager loaded, a page whose items the server did mark read shows none unread and yet reports a failure. */
  lemma MarkAllAsReadAsWrittenReportsFailure(ns: seq<Notification>)
    ensures var (after, toast) := MarkAllAsReadAsWritten(ns, true, true);
      UnreadCount(after) == 0 && toast == Toast("Failed to mark all notifications as read", "error")
  {
    AllReadNoneUnread(ns);
  }
}
