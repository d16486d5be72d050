/**
 * The bookings report of users/reports.py (`ReportsManager.generate_bookings_report`).
 *
 * Prices are integer cents. The report keeps its revenue in cents; the
 * dollar amounts the source stores are `cents / 100` (see `TotalRevenue`).
 * Dates are day numbers; `today` is the clock reading the source takes.
 * The two booking fetches are inputs: `None` is a failed fetch (a non-200
 * reply or a request error). A booking field's `None` is a key the reply
 * does not carry, read through its `.get` default; a key present with a
 * JSON null, on which the report raises, is not modelled.
 */
module Reports {
  import opened Wrappers
  import opened Strings

  datatype StaffRef = StaffRef(id: Option<string>, firstName: Option<string>, lastName: Option<string>)

  /** One entry of a booking's `booking_services`. */
  datatype BookingService = BookingService(assignedStaff: Option<StaffRef>, serviceName: Option<string>, price: Option<int>)

  datatype Booking = Booking(totalPrice: Option<int>, status: Option<string>, startAt: Option<string>, services: seq<BookingService>)

  // ---------------------------------------------------------------------
  // Windows

  /** Length in days of the report window for a period name; unknown names fall back to a week. */
  function WindowDays(period: string): (d: nat)
  {
    if period == "month" then 30 else if period == "year" then 365 else 7
  }

  /** A fetch window, from its first to its last day. */
  datatype Window = Window(from: int, to: int)

  /** The current window ends today; the previous one has the same length and ends where the current one starts. */
  function Windows(period: string, today: int): (w: (Window, Window))
    ensures w.0.to == today && w.1.to == w.0.from
    ensures w.0.to - w.0.from == w.1.to - w.1.from == WindowDays(period)
    ensures period == "week" || period !in {"month", "year"} ==> w.0.to - w.0.from == 7
    ensures period == "month" ==> w.0.to - w.0.from == 30
    ensures period == "year" ==> w.0.to - w.0.from == 365
  {
    var start := today - WindowDays(period);
    (Window(start, today), Window(start - WindowDays(period), start))
  }

  // ---------------------------------------------------------------------
  // Reading one booking

  /** The lower-cased status, "pending" when absent. */
  function StatusOf(b: Booking): string { ToLower(b.status.GetOr("pending")) }

  /** `float(total_price or 0)` in cents. */
  function PriceCents(b: Booking): int { b.totalPrice.GetOr(0) }

  /** The first ten characters of `start_at` (the date part), "" when absent. */
  function DayOf(b: Booking): string
  {
    var s := b.startAt.GetOr("");
    if |s| <= 10 then s else s[..10]
  }

  /** Python's f-string text of an optional name: `None` renders as "None". */
  function NameText(o: Option<string>): string { if o.Some? then o.value else "None" }

  /** The key under which a booking service is grouped by staff. */
  function StaffKey(s: BookingService): string
  {
    if s.assignedStaff.Some? && s.assignedStaff.value.id.Some? then s.assignedStaff.value.id.value else "Unassigned"
  }

  /** The staff name: "first last" stripped when either name is non-empty, else "Unassigned". */
  function StaffName(s: BookingService): string
  {
    var first := if s.assignedStaff.Some? then s.assignedStaff.value.firstName else None;
    var last := if s.assignedStaff.Some? then s.assignedStaff.value.lastName else None;
    if Present(first) || Present(last) then Trim(NameText(first) + " " + NameText(last)) else "Unassigned"
  }

  predicate Present(o: Option<string>) { o.Some? && o.value != "" }

  function ServiceKey(s: BookingService): string { s.serviceName.GetOr("Unknown") }

  function ServicePrice(s: BookingService): int { s.price.GetOr(0) }

  // ---------------------------------------------------------------------
  // The counting loop as a fold

  datatype StaffTally = StaffTally(name: string, count: nat, revenueCents: int)

  datatype ServiceTally = ServiceTally(count: nat, revenue: int)

  /** The report fields the loop of lines 135-192 updates. */
  datatype Tally = Tally(
    total: nat, completed: nat, cancelled: nat, pending: nat,
    revenueCents: int,
    byDay: map<string, nat>,
    revenueByDay: map<string, int>,
    byStaff: map<string, StaffTally>,
    byService: map<string, ServiceTally>,
    breakdown: map<string, nat>)

  const BreakdownKeys: set<string> := {"completed", "pending", "cancelled", "confirmed", "no_show"}

  const InitialTally: Tally :=
    Tally(0, 0, 0, 0, 0, map[], map[], map[], map[],
      map["completed" := 0, "pending" := 0, "cancelled" := 0, "confirmed" := 0, "no_show" := 0])

  function GetNat(m: map<string, nat>, k: string): nat { if k in m then m[k] else 0 }

  function GetInt(m: map<string, int>, k: string): int { if k in m then m[k] else 0 }

  /** One service counted under its staff member (lines 166-179). */
  function AddStaffOne(m: map<string, StaffTally>, s: BookingService, done: bool, price: int): map<string, StaffTally>
  {
    var key := StaffKey(s);
    var e := if key in m then m[key] else StaffTally(StaffName(s), 0, 0);
    m[key := e.(count := e.count + 1, revenueCents := e.revenueCents + (if done then price else 0))]
  }

  function AddStaff(m: map<string, StaffTally>, svcs: seq<BookingService>, done: bool, price: int): map<string, StaffTally>
    decreases |svcs|
  {
    if svcs == [] then m else AddStaffOne(AddStaff(m, svcs[..|svcs| - 1], done, price), svcs[|svcs| - 1], done, price)
  }

  /** One service counted under its name; its revenue is the service's own price (lines 183-192). */
  function AddServiceOne(m: map<string, ServiceTally>, s: BookingService, done: bool): map<string, ServiceTally>
  {
    var key := ServiceKey(s);
    var e := if key in m then m[key] else ServiceTally(0, 0);
    m[key := e.(count := e.count + 1, revenue := e.revenue + (if done then ServicePrice(s) else 0))]
  }

  function AddServices(m: map<string, ServiceTally>, svcs: seq<BookingService>, done: bool): map<string, ServiceTally>
    decreases |svcs|
  {
    if svcs == [] then m else AddServiceOne(AddServices(m, svcs[..|svcs| - 1], done), svcs[|svcs| - 1], done)
  }

  /** One pass of the loop body for booking `b`. */
  function CountBooking(t: Tally, b: Booking): Tally
  {
    CountFields(t, b.services, StatusOf(b), PriceCents(b), DayOf(b))
  }

  /** One pass of the loop body for a booking with this status, price, day and services. */
  function CountFields(t: Tally, svcs: seq<BookingService>, status: string, price: int, day: string): Tally
  {
    var done := status == "completed";
    Tally(
      t.total + 1,
      if done then t.completed + 1 else t.completed,
      if !done && status == "cancelled" then t.cancelled + 1 else t.cancelled,
      if !done && status != "cancelled" then t.pending + 1 else t.pending,
      if done then t.revenueCents + price else t.revenueCents,
      if day != "" then t.byDay[day := GetNat(t.byDay, day) + 1] else t.byDay,
      if day != "" && done then t.revenueByDay[day := GetInt(t.revenueByDay, day) + price] else t.revenueByDay,
      AddStaff(t.byStaff, svcs, done, price),
      AddServices(t.byService, svcs, done),
      if status in t.breakdown then t.breakdown[status := t.breakdown[status] + 1] else t.breakdown)
  }

  /** The loop run over `bs` from the initial report. */
  function Tallied(bs: seq<Booking>): Tally
    decreases |bs|
  {
    if bs == [] then InitialTally else CountBooking(Tallied(bs[..|bs| - 1]), bs[|bs| - 1])
  }

  // ---------------------------------------------------------------------
  // Reference counts

  function CountStatus(bs: seq<Booking>, status: string): nat
    decreases |bs|
  {
    if bs == [] then 0 else CountStatus(bs[..|bs| - 1], status) + (if StatusOf(bs[|bs| - 1]) == status then 1 else 0)
  }

  /** Bookings whose status is one of `keys`. */
  function CountStatusIn(bs: seq<Booking>, keys: set<string>): nat
    decreases |bs|
  {
    if bs == [] then 0 else CountStatusIn(bs[..|bs| - 1], keys) + (if StatusOf(bs[|bs| - 1]) in keys then 1 else 0)
  }

  /** Sum of the prices of completed bookings, in cents. */
  function CompletedRevenue(bs: seq<Booking>): int
    decreases |bs|
  {
    if bs == [] then 0 else CompletedRevenue(bs[..|bs| - 1]) + (if StatusOf(bs[|bs| - 1]) == "completed" then PriceCents(bs[|bs| - 1]) else 0)
  }

  function CountDay(bs: seq<Booking>, day: string): nat
    decreases |bs|
  {
    if bs == [] then 0 else CountDay(bs[..|bs| - 1], day) + (if DayOf(bs[|bs| - 1]) == day then 1 else 0)
  }

  /** Bookings with a non-empty `start_at` date. */
  function CountDated(bs: seq<Booking>): nat
    decreases |bs|
  {
    if bs == [] then 0 else CountDated(bs[..|bs| - 1]) + (if DayOf(bs[|bs| - 1]) != "" then 1 else 0)
  }

  function ServicesWithStaff(svcs: seq<BookingService>, key: string): nat
    decreases |svcs|
  {
    if svcs == [] then 0 else ServicesWithStaff(svcs[..|svcs| - 1], key) + (if StaffKey(svcs[|svcs| - 1]) == key then 1 else 0)
  }

  /** Booking services, over all bookings, grouped under staff key `key`. */
  function CountStaff(bs: seq<Booking>, key: string): nat
    decreases |bs|
  {
    if bs == [] then 0 else CountStaff(bs[..|bs| - 1], key) + ServicesWithStaff(bs[|bs| - 1].services, key)
  }

  // ---------------------------------------------------------------------
  // Properties of the loop

  /**
   * Every booking is counted once in total and once in exactly one of
   * completed, cancelled and pending; any status other than completed or
   * cancelled counts as pending.
   */
  lemma {:induction false} TalliedCounts(bs: seq<Booking>)
    ensures var t := Tallied(bs);
      t.total == |bs| && t.total == t.completed + t.cancelled + t.pending &&
      t.completed == CountStatus(bs, "completed") && t.cancelled == CountStatus(bs, "cancelled") &&
      t.pending == |bs| - CountStatusIn(bs, {"completed", "cancelled"})
    decreases |bs|
  {
    if bs != [] {
      TalliedCounts(bs[..|bs| - 1]);
      CountStatusInBound(bs[..|bs| - 1], {"completed", "cancelled"});
    }
  }

  lemma {:induction false} CountStatusInBound(bs: seq<Booking>, keys: set<string>)
    ensures CountStatusIn(bs, keys) <= |bs|
    decreases |bs|
  {
    if bs != [] { CountStatusInBound(bs[..|bs| - 1], keys); }
  }

  /** The status breakdown keeps exactly its five keys, each counting the bookings with that status. */
  lemma {:induction false} BreakdownCounts(bs: seq<Booking>)
    ensures Tallied(bs).breakdown.Keys == BreakdownKeys
    ensures forall k :: k in BreakdownKeys ==> Tallied(bs).breakdown[k] == CountStatus(bs, k)
    decreases |bs|
  {
    if bs != [] { BreakdownCounts(bs[..|bs| - 1]); }
  }

  lemma {:induction false} CountStatusSplit(bs: seq<Booking>)
    ensures CountStatus(bs, "completed") + CountStatus(bs, "pending") + CountStatus(bs, "cancelled") +
            CountStatus(bs, "confirmed") + CountStatus(bs, "no_show") == CountStatusIn(bs, BreakdownKeys)
    decreases |bs|
  {
    if bs != [] { CountStatusSplit(bs[..|bs| - 1]); }
  }

  /** The breakdown counts add up to at most the total: other statuses (say 'scheduled') appear only as pending. */
  lemma BreakdownAtMostTotal(bs: seq<Booking>)
    ensures Tallied(bs).breakdown.Keys == BreakdownKeys
    ensures var t := Tallied(bs);
      t.breakdown["completed"] + t.breakdown["pending"] + t.breakdown["cancelled"] +
      t.breakdown["confirmed"] + t.breakdown["no_show"] <= t.total
  {
    BreakdownCounts(bs);
    CountStatusSplit(bs);
    CountStatusInBound(bs, BreakdownKeys);
    TalliedCounts(bs);
  }

  /** Revenue accrues only from completed bookings. */
  lemma {:induction false} RevenueFromCompleted(bs: seq<Booking>)
    ensures Tallied(bs).revenueCents == CompletedRevenue(bs)
    decreases |bs|
  {
    if bs != [] { RevenueFromCompleted(bs[..|bs| - 1]); }
  }

  /** Each non-empty date maps to the number of bookings on it; the empty date is never a key. */
  lemma {:induction false} DayCounts(bs: seq<Booking>)
    ensures "" !in Tallied(bs).byDay
    ensures forall d :: d in Tallied(bs).byDay ==> Tallied(bs).byDay[d] == CountDay(bs, d) > 0
    ensures forall d :: d != "" && CountDay(bs, d) > 0 ==> d in Tallied(bs).byDay
    decreases |bs|
  {
    if bs != [] { DayCounts(bs[..|bs| - 1]); }
  }

  /** The sum of a map's values. */
  ghost function MapSum(m: map<string, nat>): nat
    decreases m.Keys
  {
    if m == map[] then 0 else var k :| k in m; m[k] + MapSum(m - {k})
  }

  lemma {:induction false} MapSumRemove(m: map<string, nat>, k: string)
    requires k in m
    ensures MapSum(m) == m[k] + MapSum(m - {k})
    decreases m.Keys
  {
    var j :| j in m && MapSum(m) == m[j] + MapSum(m - {j});
    if j != k {
      var mj, mk := m - {j}, m - {k};
      assert mj.Keys == m.Keys - {j} && mk.Keys == m.Keys - {k};
      assert k in mj && j in mk;
      MapSumRemove(mj, k);
      MapSumRemove(mk, j);
      assert mj - {k} == mk - {j};
    }
  }

  lemma MapSumIncrement(m: map<string, nat>, k: string)
    ensures MapSum(m[k := GetNat(m, k) + 1]) == MapSum(m) + 1
  {
    var m' := m[k := GetNat(m, k) + 1];
    MapSumRemove(m', k);
    assert m' - {k} == m - {k};
    if k in m { MapSumRemove(m, k); } else { assert m - {k} == m; }
  }

  /** The day counts add up to the number of bookings with a non-empty `start_at`. */
  lemma {:induction false} DaySum(bs: seq<Booking>)
    ensures MapSum(Tallied(bs).byDay) == CountDated(bs)
    decreases |bs|
  {
    if bs == [] {
      assert Tallied(bs).byDay == map[];
    } else {
      var prev := bs[..|bs| - 1];
      DaySum(prev);
      var d := DayOf(bs[|bs| - 1]);
      var m := Tallied(prev).byDay;
      assert Tallied(bs).byDay == (if d != "" then m[d := GetNat(m, d) + 1] else m);
      assert CountDated(bs) == CountDated(prev) + (if d != "" then 1 else 0);
      if d != "" { MapSumIncrement(m, d); }
    }
  }

  lemma {:induction false} AddStaffCounts(m: map<string, StaffTally>, svcs: seq<BookingService>, done: bool, price: int, key: string)
    ensures var m' := AddStaff(m, svcs, done, price);
      (key in m' <==> key in m || ServicesWithStaff(svcs, key) > 0) &&
      (key in m' ==> m'[key].count == (if key in m then m[key].count else 0) + ServicesWithStaff(svcs, key))
    decreases |svcs|
  {
    if svcs != [] { AddStaffCounts(m, svcs[..|svcs| - 1], done, price, key); }
  }

  /** Staff groups count once per booking service (not per booking); services without an assigned id go under 'Unassigned'. */
  lemma {:induction false} StaffCounts(bs: seq<Booking>, key: string)
    ensures key in Tallied(bs).byStaff <==> CountStaff(bs, key) > 0
    ensures key in Tallied(bs).byStaff ==> Tallied(bs).byStaff[key].count == CountStaff(bs, key)
    decreases |bs|
  {
    if bs != [] {
      StaffCounts(bs[..|bs| - 1], key);
      var b := bs[|bs| - 1];
      AddStaffCounts(Tallied(bs[..|bs| - 1]).byStaff, b.services, StatusOf(b) == "completed", PriceCents(b), key);
    }
  }

  function ServicesNamed(svcs: seq<BookingService>, key: string): nat
    decreases |svcs|
  {
    if svcs == [] then 0 else ServicesNamed(svcs[..|svcs| - 1], key) + (if ServiceKey(svcs[|svcs| - 1]) == key then 1 else 0)
  }

  /** The sum of the own prices of the services grouped under name `key`. */
  function NamedPrice(svcs: seq<BookingService>, key: string): (r: int)
    ensures ServicesNamed(svcs, key) == 0 ==> r == 0
    decreases |svcs|
  {
    if svcs == [] then 0 else NamedPrice(svcs[..|svcs| - 1], key) + (if ServiceKey(svcs[|svcs| - 1]) == key then ServicePrice(svcs[|svcs| - 1]) else 0)
  }

  /** Booking services, over all bookings, grouped under service name `key`. */
  function CountService(bs: seq<Booking>, key: string): nat
    decreases |bs|
  {
    if bs == [] then 0 else CountService(bs[..|bs| - 1], key) + ServicesNamed(bs[|bs| - 1].services, key)
  }

  /** The own prices of the services named `key` in completed bookings. */
  function CompletedServiceRevenue(bs: seq<Booking>, key: string): (r: int)
    ensures CountService(bs, key) == 0 ==> r == 0
    decreases |bs|
  {
    if bs == [] then 0
    else
      var b := bs[|bs| - 1];
      CompletedServiceRevenue(bs[..|bs| - 1], key) + (if StatusOf(b) == "completed" then NamedPrice(b.services, key) else 0)
  }

  lemma {:induction false} AddServicesCounts(m: map<string, ServiceTally>, svcs: seq<BookingService>, done: bool, key: string)
    ensures var m' := AddServices(m, svcs, done);
      (key in m' <==> key in m || ServicesNamed(svcs, key) > 0) &&
      (key in m' ==> m'[key].count == (if key in m then m[key].count else 0) + ServicesNamed(svcs, key)) &&
      (key in m' ==> m'[key].revenue == (if key in m then m[key].revenue else 0) + (if done then NamedPrice(svcs, key) else 0))
    decreases |svcs|
  {
    if svcs != [] { AddServicesCounts(m, svcs[..|svcs| - 1], done, key); }
  }

  /**
   * Service groups count once per booking service under its name ('Unknown'
   * without one), and their revenue is the services' own prices over
   * completed bookings only.
   */
  lemma {:induction false} ServiceCounts(bs: seq<Booking>, key: string)
    ensures key in Tallied(bs).byService <==> CountService(bs, key) > 0
    ensures key in Tallied(bs).byService ==>
      Tallied(bs).byService[key].count == CountService(bs, key) &&
      Tallied(bs).byService[key].revenue == CompletedServiceRevenue(bs, key)
    decreases |bs|
  {
    if bs != [] {
      ServiceCounts(bs[..|bs| - 1], key);
      var b := bs[|bs| - 1];
      AddServicesCounts(Tallied(bs[..|bs| - 1]).byService, b.services, StatusOf(b) == "completed", key);
    }
  }

  /** Completed bookings dated `day`. */
  function CompletedOn(bs: seq<Booking>, day: string): nat
    decreases |bs|
  {
    if bs == [] then 0
    else CompletedOn(bs[..|bs| - 1], day) + (if DayOf(bs[|bs| - 1]) == day && StatusOf(bs[|bs| - 1]) == "completed" then 1 else 0)
  }

  /** The prices of the completed bookings dated `day`, in cents. */
  function DayRevenue(bs: seq<Booking>, day: string): (r: int)
    ensures CompletedOn(bs, day) == 0 ==> r == 0
    decreases |bs|
  {
    if bs == [] then 0
    else
      var b := bs[|bs| - 1];
      DayRevenue(bs[..|bs| - 1], day) + (if DayOf(b) == day && StatusOf(b) == "completed" then PriceCents(b) else 0)
  }

  /** A day has revenue iff a completed booking is dated that day, and its revenue is theirs alone. */
  lemma {:induction false} DayRevenues(bs: seq<Booking>, day: string)
    ensures day in Tallied(bs).revenueByDay <==> day != "" && CompletedOn(bs, day) > 0
    ensures day in Tallied(bs).revenueByDay ==> Tallied(bs).revenueByDay[day] == DayRevenue(bs, day)
    decreases |bs|
  {
    if bs != [] { DayRevenues(bs[..|bs| - 1], day); }
  }

  // ---------------------------------------------------------------------
  // The report

  /** Sum of raw `total_price` over the previous period's completed bookings (status defaulting to ''). */
  function PreviousRevenueRaw(bs: seq<Booking>): int
    decreases |bs|
  {
    if bs == [] then 0
    else PreviousRevenueRaw(bs[..|bs| - 1]) + (if ToLower(bs[|bs| - 1].status.GetOr("")) == "completed" then PriceCents(bs[|bs| - 1]) else 0)
  }

  /** The current revenue in the dollars the source stores. */
  function Dollars(cents: int): real { cents as real / 100.0 }

  /**
   * The comparison of lines 199-215 as written: the current revenue is in
   * dollars but the previous one is summed in raw cents.
   */
  function ComparisonAsWritten(t: Tally, previous: Option<seq<Booking>>): (c: (real, real))
    ensures previous.None? || previous.value == [] ==> c == (0.0, 0.0)
  {
    if previous.None? || previous.value == [] then (0.0, 0.0)
    else
      var prevTotal := |previous.value|;
      var prevRevenue := PreviousRevenueRaw(previous.value);
      ((t.total as real - prevTotal as real) / prevTotal as real * 100.0,
       if prevRevenue > 0 then (Dollars(t.revenueCents) - prevRevenue as real) / prevRevenue as real * 100.0 else 0.0)
  }

  /** A booking completed in both periods at the same price. */
  const Sample: Booking := Booking(Some(5000), Some("completed"), Some("2024-01-01T10:00:00"), [])

  /** As written, two identical periods report a 99% fall in revenue instead of no change. */
  lemma ComparisonAsWrittenMisreports()
    ensures Tallied([Sample]).revenueCents == 5000 && PreviousRevenueRaw([Sample]) == 5000
    ensures ComparisonAsWritten(Tallied([Sample]), Some([Sample])) == (0.0, -99.0)
  {
    assert [Sample][..0] == [];
    assert StatusOf(Sample) == "completed";
    assert ToLower("completed") == "completed";
  }

  /**
   * The comparison as intended: both revenues in dollars. Percentages are
   * computed only for a non-empty previous period, the revenue one only when
   * the previous revenue is positive.
   */
  function Comparison(t: Tally, previous: Option<seq<Booking>>): (c: (real, real))
    ensures previous.None? || previous.value == [] ==> c == (0.0, 0.0)
    ensures previous.Some? && previous.value != [] ==>
      c.0 == (t.total as real - |previous.value| as real) / |previous.value| as real * 100.0
    ensures previous.Some? && PreviousRevenueRaw(previous.value) <= 0 ==> c.1 == 0.0
    ensures previous.Some? && t.revenueCents == PreviousRevenueRaw(previous.value) ==> c.1 == 0.0
    ensures previous.Some? && PreviousRevenueRaw(previous.value) > 0 ==>
      c.1 == (Dollars(t.revenueCents) - Dollars(PreviousRevenueRaw(previous.value))) / Dollars(PreviousRevenueRaw(previous.value)) * 100.0
  {
    if previous.None? || previous.value == [] then (0.0, 0.0)
    else
      var prevTotal := |previous.value|;
      var prevRevenue := PreviousRevenueRaw(previous.value);
      ((t.total as real - prevTotal as real) / prevTotal as real * 100.0,
       if prevRevenue > 0 then (Dollars(t.revenueCents) - Dollars(prevRevenue)) / Dollars(prevRevenue) * 100.0 else 0.0)
  }

  datatype Report = Report(
    period: string, window: Window, tally: Tally,
    averageBookingValue: real, bookingsChange: real, revenueChange: real)

  function TotalRevenue(r: Report): real { Dollars(r.tally.revenueCents) }

  /** `average_booking_value`: revenue over completed bookings, 0.0 with none completed. */
  function Average(t: Tally): (avg: real)
    ensures t.completed == 0 ==> avg == 0.0
    ensures t.completed > 0 ==> avg * t.completed as real == Dollars(t.revenueCents)
  {
    if t.completed > 0 then Dollars(t.revenueCents) / t.completed as real else 0.0
  }

  /**
   * `generate_bookings_report`: `None` exactly when the current fetch
   * failed; a failed previous fetch only leaves the comparison at 0.
   */
  function BookingsReport(period: string, today: int, current: Option<seq<Booking>>, previous: Option<seq<Booking>>): (r: Option<Report>)
    ensures r.None? <==> current.None?
    ensures r.Some? ==> r.value.window == Windows(period, today).0 && r.value.tally == Tallied(current.value)
    ensures r.Some? && previous.None? ==> r.value.bookingsChange == 0.0 && r.value.revenueChange == 0.0
  {
    if current.None? then None
    else
      var t := Tallied(current.value);
      var c := Comparison(t, previous);
      Some(Report(period, Windows(period, today).0, t, Average(t), c.0, c.1))
  }

  /** The inner loop of lines 164-179: each service of one booking counted under its staff member. */
  method TallyStaff(byStaff: map<string, StaffTally>, svcs: seq<BookingService>, done: bool, price: int)
    returns (m: map<string, StaffTally>)
    ensures m == AddStaff(byStaff, svcs, done, price)
  {
    m := byStaff;
    var j := 0;
    while j < |svcs|
      invariant 0 <= j <= |svcs|
      invariant m == AddStaff(byStaff, svcs[..j], done, price)
    {
      m := AddStaffOne(m, svcs[j], done, price);
      assert svcs[..j + 1][..j] == svcs[..j];
      j := j + 1;
    }
    assert svcs[..|svcs|] == svcs;
  }

  /** The inner loop of lines 182-192: each service of one booking counted under its name. */
  method TallyServices(byService: map<string, ServiceTally>, svcs: seq<BookingService>, done: bool)
    returns (m: map<string, ServiceTally>)
    ensures m == AddServices(byService, svcs, done)
  {
    m := byService;
    var j := 0;
    while j < |svcs|
      invariant 0 <= j <= |svcs|
      invariant m == AddServices(byService, svcs[..j], done)
    {
      m := AddServiceOne(m, svcs[j], done);
      assert svcs[..j + 1][..j] == svcs[..j];
      j := j + 1;
    }
    assert svcs[..|svcs|] == svcs;
  }

  /** Lines 139-148: the status breakdown and the completed, cancelled and pending counters. */
  method TallyStatus(t: Tally, status: string, price: int)
    returns (breakdown: map<string, nat>, completed: nat, cancelled: nat, pending: nat, revenue: int)
    ensures breakdown == (if status in t.breakdown then t.breakdown[status := t.breakdown[status] + 1] else t.breakdown)
    ensures completed == (if status == "completed" then t.completed + 1 else t.completed)
    ensures cancelled == (if status != "completed" && status == "cancelled" then t.cancelled + 1 else t.cancelled)
    ensures pending == (if status != "completed" && status != "cancelled" then t.pending + 1 else t.pending)
    ensures revenue == (if status == "completed" then t.revenueCents + price else t.revenueCents)
  {
    breakdown := t.breakdown;
    if status in breakdown {
      breakdown := breakdown[status := breakdown[status] + 1];
    }
    completed, cancelled, pending, revenue := t.completed, t.cancelled, t.pending, t.revenueCents;
    if status == "completed" {
      completed, revenue := completed + 1, revenue + price;
    } else if status == "cancelled" {
      cancelled := cancelled + 1;
    } else {
      pending := pending + 1;
    }
  }

  /** Lines 150-161: the per-day counts and revenue. */
  method TallyDay(t: Tally, day: string, done: bool, price: int)
    returns (byDay: map<string, nat>, revenueByDay: map<string, int>)
    ensures byDay == (if day != "" then t.byDay[day := GetNat(t.byDay, day) + 1] else t.byDay)
    ensures revenueByDay == (if day != "" && done then t.revenueByDay[day := GetInt(t.revenueByDay, day) + price] else t.revenueByDay)
  {
    byDay, revenueByDay := t.byDay, t.revenueByDay;
    if day != "" {
      byDay := byDay[day := GetNat(byDay, day) + 1];
      if done {
        revenueByDay := revenueByDay[day := GetInt(revenueByDay, day) + price];
      }
    }
  }

  /** The body of the loop of lines 135-192 for one booking. */
  method CountOne(t: Tally, b: Booking) returns (t': Tally)
    ensures t' == CountBooking(t, b)
  {
    var status := StatusOf(b);
    var done := status == "completed";
    var price := PriceCents(b);
    var breakdown, completed, cancelled, pending, revenue := TallyStatus(t, status, price);
    var day := DayOf(b);
    var byDay, revenueByDay := TallyDay(t, day, done, price);
    var byStaff := TallyStaff(t.byStaff, b.services, done, price);
    var byService := TallyServices(t.byService, b.services, done);
    t' := Tally(t.total + 1, completed, cancelled, pending, revenue, byDay, revenueByDay, byStaff, byService, breakdown);
    assert t' == CountFields(t, b.services, status, price, day);
  }

  /** The counting loop of lines 135-192, booking by booking. */
  method TallyBookings(bs: seq<Booking>) returns (t: Tally)
    ensures t == Tallied(bs)
  {
    t := InitialTally;
    var i := 0;
    while i < |bs|
      invariant 0 <= i <= |bs|
      invariant t == Tallied(bs[..i])
    {
      t := CountOne(t, bs[i]);
      assert bs[..i + 1][..i] == bs[..i];
      i := i + 1;
    }
    assert bs[..|bs|] == bs;
  }

  /** `generate_bookings_report`: fetch outcomes in, report out. */
  method GenerateBookingsReport(period: string, today: int, current: Option<seq<Booking>>, previous: Option<seq<Booking>>)
    returns (report: Option<Report>)
    ensures report == BookingsReport(period, today, current, previous)
  {
    if current.None? {
      return None;
    }
    var t := TallyBookings(current.value);
    var average := 0.0;
    if t.completed > 0 {
      average := Dollars(t.revenueCents) / t.completed as real;
    }
    var bookingsChange, revenueChange := 0.0, 0.0;
    if previous.Some? && previous.value != [] {
      var prevTotal := |previous.value|;
      var prevRevenue := PreviousRevenueRaw(previous.value);
      bookingsChange := (t.total as real - prevTotal as real) / prevTotal as real * 100.0;
      if prevRevenue > 0 {
        revenueChange := (Dollars(t.revenueCents) - Dollars(prevRevenue)) / Dollars(prevRevenue) * 100.0;
      }
    }
    report := Some(Report(period, Windows(period, today).0, t, average, bookingsChange, revenueChange));
  }
}
