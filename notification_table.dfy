/**
 * The DataTables view of the notifications (static/js/notification-datatable.js):
 * the table manager's counters, the row filter it installs for each tab, the
 * time-ago text and the booking-details status maps. Rows are the API's
 * notification records; replies are parameters.
 */
module NotificationTable {
  import opened Wrappers
  import opened Strings
  import NotificationPage

  /** A row of the table: the fields of an API notification the manager reads. */
  datatype Row = Row(id: string, kind: string, status: string)

  /** The number of rows whose status is not "read". */
  function UnreadRows(rows: seq<Row>): (r: nat)
    ensures r <= |rows|
  {
    if rows == [] then 0 else (if rows[0].status != "read" then 1 else 0) + UnreadRows(rows[1..])
  }

  /** The types each category tab shows. */
  function CategoryTypes(filter: string): (r: set<string>)
    ensures filter !in {"general", "booking", "payment"} ==> r == {}
  {
    match filter
    case "general" => {"general", "system", "alert"}
    case "booking" => {"booking", "booking_created", "reminder"}
    case "payment" => {"payment"}
    case _ => {}
  }

  /** A custom row filter pushed onto the table's search list. */
  datatype RowFilter = UnreadOnly | Category(name: string)

  predicate Passes(f: RowFilter, row: Row)
  {
    match f
    case UnreadOnly => row.status != "read"
    case Category(name) => row.kind in CategoryTypes(name)
  }

  /** Every filter of the list keeps the row. */
  predicate PassesAll(fs: seq<RowFilter>, row: Row)
  {
    fs == [] || (Passes(fs[0], row) && PassesAll(fs[1..], row))
  }

  /** The rows the table draws under a list of row filters, in order. */
  function Drawn(rows: seq<Row>, fs: seq<RowFilter>): (r: seq<Row>)
    ensures |r| <= |rows|
    ensures forall row :: row in r <==> row in rows && PassesAll(fs, row)
  {
    if rows == [] then []
    else (if PassesAll(fs, rows[0]) then [rows[0]] else []) + Drawn(rows[1..], fs)
  }

  /** The filter list `handleFilterChange` installs for a tab: none for "all", one filter otherwise. */
  function FiltersFor(filter: string): (r: seq<RowFilter>)
    ensures filter == "all" <==> r == []
    ensures filter == "unread" ==> r == [UnreadOnly]
    ensures filter != "all" && filter != "unread" ==> r == [Category(filter)]
  {
    if filter == "all" then []
    else if filter == "unread" then [UnreadOnly]
    else [Category(filter)]
  }

  /** The "all" tab draws every row; a tab that is no known category draws none. */
  lemma {:induction false} TabsDraw(rows: seq<Row>, filter: string)
    ensures filter == "all" ==> Drawn(rows, FiltersFor(filter)) == rows
    ensures filter !in {"all", "unread", "general", "booking", "payment"} ==> Drawn(rows, FiltersFor(filter)) == []
  {
    if rows != [] {
      TabsDraw(rows[1..], filter);
      if filter !in {"all", "unread", "general", "booking", "payment"} {
        assert !Passes(FiltersFor(filter)[0], rows[0]);
      }
    }
  }

  /** The unread tab draws exactly as many rows as the unread counter counts. */
  lemma {:induction false} UnreadTabCount(rows: seq<Row>)
    ensures |Drawn(rows, FiltersFor("unread"))| == UnreadRows(rows)
  {
    if rows != [] {
      UnreadTabCount(rows[1..]);
      var fs := FiltersFor("unread");
      assert fs == [UnreadOnly] && fs[1..] == [];
      assert PassesAll(fs, rows[0]) <==> rows[0].status != "read";
      assert Drawn(rows, fs) == (if PassesAll(fs, rows[0]) then [rows[0]] else []) + Drawn(rows[1..], fs);
    }
  }

  /** The three category tabs never show the same row. */
  lemma CategoriesDisjoint(row: Row)
    ensures !(row.kind in CategoryTypes("general") && row.kind in CategoryTypes("booking"))
    ensures !(row.kind in CategoryTypes("general") && row.kind in CategoryTypes("payment"))
    ensures !(row.kind in CategoryTypes("booking") && row.kind in CategoryTypes("payment"))
  {
  }

  /** `true` for a string that already carries a zone: a trailing 'Z' or any '+'. */
  predicate HasZone(s: string)
  {
    EndsWith(s, "Z") || '+' in s
  }

  /** The UTC fix in `formatTimeAgo`: 'Z' is appended to a timestamp that carries no zone. */
  function AsUtc(s: string): (r: string)
    ensures HasZone(r)
    ensures HasZone(s) ==> r == s
    ensures !HasZone(s) ==> r == s + "Z"
  {
    if !EndsWith(s, "Z") && '+' !in s then s + "Z" else s
  }

  lemma AsUtcIdempotent(s: string)
    ensures AsUtc(AsUtc(s)) == AsUtc(s)
  {
  }

  /**
   * The buckets of this file's `formatTimeAgo` on the elapsed milliseconds,
   * with its own guard for a negative difference; `None` is the locale date.
   */
  function TimeAgo(elapsedMs: int): (r: Option<string>)
  {
    var secs := elapsedMs / 1000;
    if secs < 0 then Some("Just now")
    else if secs < 60 then Some("Just now")
    else if secs < 3600 then Some(NatToString(secs / 60) + "m ago")
    else if secs < 86400 then Some(NatToString(secs / 3600) + "h ago")
    else if secs < 604800 then Some(NatToString(secs / 86400) + "d ago")
    else None
  }

  /** The table and the notifications page give the same text for every elapsed time. */
  lemma TimeAgoAgrees(elapsedMs: int)
    ensures TimeAgo(elapsedMs) == NotificationPage.TimeAgo(elapsedMs)
  {
  }

  /** The actions the booking-details modal offers. */
  datatype BookingAction = ConfirmBooking | CancelBooking

  function ModalActions(status: string): (r: seq<BookingAction>)
    ensures ConfirmBooking in r <==> status == "pending" || status == "scheduled"
    ensures CancelBooking in r <==> status in {"pending", "scheduled", "confirmed"}
    ensures |r| <= 2
  {
    if status == "pending" || status == "scheduled" then [ConfirmBooking, CancelBooking]
    else if status == "confirmed" then [CancelBooking]
    else []
  }

  /** `getBookingStatusClass`. */
  function StatusClass(status: string): (r: string)
    ensures status !in {"pending", "scheduled", "confirmed", "completed", "cancelled"} ==> r == "status-default"
    ensures status == "pending" || status == "scheduled" ==> r == "status-pending"
    ensures status in {"confirmed", "completed", "cancelled"} ==> r == "status-" + status
  {
    match status
    case "pending" => "status-pending"
    case "scheduled" => "status-pending"
    case "confirmed" => "status-confirmed"
    case "completed" => "status-completed"
    case "cancelled" => "status-cancelled"
    case _ => "status-default"
  }

  /** `charAt(0).toUpperCase() + slice(1)`. */
  function Capitalized(s: string): (r: string)
    ensures |r| == |s|
    ensures |s| > 0 ==> r[0] == UpperChar(s[0]) && r[1..] == s[1..]
  {
    if s == "" then "" else [UpperChar(s[0])] + s[1..]
  }

  /** `getBookingStatusText`: the table's text, else the capitalised status. */
  function StatusText(status: string): (r: string)
  {
    match status
    case "pending" => "Pending"
    case "scheduled" => "Scheduled"
    case "confirmed" => "Confirmed"
    case "completed" => "Completed"
    case "cancelled" => "Cancelled"
    case _ => Capitalized(status)
  }

  /** Every entry of the status-text table is the capitalised status, so the text is always the capitalised status. */
  lemma StatusTextCapitalizes(status: string)
    ensures StatusText(status) == Capitalized(status)
  {
    match status
    case "pending" => assert Capitalized("pending") == "Pending";
    case "scheduled" => assert Capitalized("scheduled") == "Scheduled";
    case "confirmed" => assert Capitalized("confirmed") == "Confirmed";
    case "completed" => assert Capitalized("completed") == "Completed";
    case "cancelled" => assert Capitalized("cancelled") == "Cancelled";
    case _ =>
  }

  /** What `updateStats` writes: the total, the unread count and whether the mark-all button is disabled. */
  datatype Stats = Stats(total: int, unread: int, markAllDisabled: bool)

  /** What `handleMarkAllRead` does first: an error toast when nothing is unread, else the confirmation dialog. */
  datatype Prompt = NothingUnread | ConfirmMarkAll

  /** The `NotificationsDataTable` object. */
  class Manager {
    var notifications: seq<Row>
    var currentFilter: string
    var unreadCount: int
    var totalCount: int
    var searchFilters: seq<RowFilter>

    constructor ()
      ensures notifications == [] && currentFilter == "all" && unreadCount == 0 && totalCount == 0 && searchFilters == []
    {
      notifications := [];
      currentFilter := "all";
      unreadCount := 0;
      totalCount := 0;
      searchFilters := [];
    }

    /**
     * The `dataSrc` callback: with data the rows are kept and counted and the
     * table is shown when there is at least one; without data nothing is kept.
     */
    method LoadRows(data: Option<seq<Row>>) returns (rows: seq<Row>, showTable: bool)
      modifies this
      ensures data.Some? ==> (rows == data.value && notifications == data.value &&
        totalCount == |data.value| && unreadCount == UnreadRows(data.value) && (showTable <==> |data.value| > 0))
      ensures data.None? ==> (rows == [] && !showTable && notifications == old(notifications) &&
        totalCount == old(totalCount) && unreadCount == old(unreadCount))
      ensures currentFilter == old(currentFilter) && searchFilters == old(searchFilters)
    {
      if data.None? {
        return [], false;
      }
      notifications := data.value;
      totalCount := |data.value|;
      unreadCount := UnreadRows(data.value);
      rows := data.value;
      showTable := |data.value| > 0;
    }

    /** `handleFilterChange`: the tab becomes current and the search list is replaced by its filters. */
    method HandleFilterChange(filter: string)
      modifies this
      ensures currentFilter == filter && searchFilters == FiltersFor(filter)
      ensures notifications == old(notifications) && unreadCount == old(unreadCount) && totalCount == old(totalCount)
    {
      currentFilter := filter;
      searchFilters := [];
      if filter != "all" {
        if filter == "unread" {
          searchFilters := searchFilters + [UnreadOnly];
        } else {
          searchFilters := searchFilters + [Category(filter)];
        }
      }
    }

    /** The rows currently drawn. */
    function Shown(): seq<Row>
      reads this
    {
      Drawn(notifications, searchFilters)
    }

    function StatsView(): (r: Stats)
      reads this
      ensures r.total == totalCount && r.unread == unreadCount
      ensures r.markAllDisabled <==> unreadCount == 0
    {
      Stats(totalCount, unreadCount, unreadCount == 0)
    }

    function MarkAllPrompt(): (r: Prompt)
      reads this
      ensures r == NothingUnread <==> unreadCount == 0
    {
      if unreadCount == 0 then NothingUnread else ConfirmMarkAll
    }
  }

  /** After a load and the unread tab, the table draws as many rows as the unread counter shows. */
  lemma UnreadTabMatchesCounter(rows: seq<Row>)
    ensures |Drawn(rows, FiltersFor("unread"))| == UnreadRows(rows)
    ensures UnreadRows(rows) == 0 <==> forall i :: 0 <= i < |rows| ==> rows[i].status == "read"
  {
    UnreadTabCount(rows);
    UnreadRowsZero(rows);
  }

  lemma {:induction false} UnreadRowsZero(rows: seq<Row>)
    ensures UnreadRows(rows) == 0 <==> forall i :: 0 <= i < |rows| ==> rows[i].status == "read"
  {
    if rows != [] {
      UnreadRowsZero(rows[1..]);
      assert forall i :: 1 <= i < |rows| ==> rows[i] == rows[1..][i - 1];
    }
  }
}
