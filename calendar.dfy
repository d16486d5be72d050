/**
 * The staff calendar of static/js/calendar.js: the seven-day window around
 * the current date, the booking and time-off caches with their refresh
 * rule, the client-side staff filter, and where an event block is drawn.
 *
 * Dates are day numbers and times of day are hours and minutes in the
 * browser's zone; the fetches are inputs and the rendered grid is returned
 * as values.
 */
module Calendar {
  import opened Wrappers
  import opened Strings
  import opened Utils
  import BookingService

  const StartHour := 8
  const EndHour := 20
  const IntervalMinutes := 15
  /** Pixels per 15-minute slot. */
  const SlotHeight := 16

  /** The grid has one row of four slots for each hour from 8 to 20 inclusive. */
  const GridHeight := (EndHour - StartHour + 1) * 4 * SlotHeight

  /** `getStartDate`: three days before the given date. */
  function StartDay(day: int): int { day - 3 }

  /** The seven day columns: three before the date, the date, three after. */
  function WeekDays(day: int): (days: seq<int>)
    ensures |days| == 7 && days[0] == StartDay(day) && days[3] == day
    ensures forall i :: 0 <= i < 7 ==> days[i] == StartDay(day) + i
  {
    seq(7, i => StartDay(day) + i)
  }

  /** Moving a week on gives the seven days that follow, with no gap and no overlap. */
  lemma NextWeekFollows(day: int)
    ensures WeekDays(day + 7)[0] == WeekDays(day)[6] + 1
    ensures forall x :: x in WeekDays(day) ==> x !in WeekDays(day + 7)
  {
  }

  /** The labels of the time column, one per hour row. */
  function TimeColumn(): (labels: seq<string>)
    ensures |labels| == EndHour - StartHour + 1
    ensures forall k :: 0 <= k < |labels| ==> labels[k] == FormatTime(StartHour + k, 0)
  {
    seq(EndHour - StartHour + 1, k => FormatTime(StartHour + k, 0))
  }

  // ---------------------------------------------------------------------
  // Event blocks

  datatype Moment = Moment(day: int, hour: int, minute: int)

  datatype Placement = Placement(top: real, height: real, text: string)

  /** Pixels from the 8:00 line down to hour:minute. */
  function Offset(hour: int, minute: int): real
  {
    ((hour - StartHour) * 60 + minute) as real / IntervalMinutes as real * SlotHeight as real
  }

  /** `createEventElement` for a day column: nothing for another day or a start hour outside 8-20. */
  function CreateEventElement(start: Moment, end: Moment, day: int): (r: Option<Placement>)
    ensures r.Some? <==> start.day == day && StartHour <= start.hour <= EndHour
    ensures r.Some? ==> r.value.top == Offset(start.hour, start.minute)
    ensures r.Some? && end.hour > EndHour ==> r.value.top + r.value.height == GridHeight as real
    ensures r.Some? && end.hour <= EndHour ==> r.value.top + r.value.height == Offset(end.hour, end.minute)
    ensures r.Some? ==> (r.value.text ==
      FormatTime(start.hour, start.minute) + " - " +
      (if end.hour > EndHour then FormatTime(EndHour, 0) else FormatTime(end.hour, end.minute)))
  {
    if start.day != day || start.hour < StartHour || start.hour > EndHour then None
    else
      var top := Offset(start.hour, start.minute);
      var bottom := if end.hour > EndHour then (EndHour - StartHour + 1) as real * 60.0 / IntervalMinutes as real * SlotHeight as real
        else Offset(end.hour, end.minute);
      var endText := FormatTime(if end.hour < EndHour then end.hour else EndHour, if end.hour > EndHour then 0 else end.minute);
      Some(Placement(top, bottom - top, FormatTime(start.hour, start.minute) + " - " + endText))
  }

  /** A block for a same-day event that starts inside the grid and ends after it starts lies inside the grid, with positive height. */
  lemma PlacementInsideGrid(start: Moment, end: Moment)
    requires StartHour <= start.hour <= EndHour && 0 <= start.minute < 60
    requires 0 <= end.hour < 24 && 0 <= end.minute < 60
    requires start.hour * 60 + start.minute < end.hour * 60 + end.minute
    ensures var p := CreateEventElement(start, end, start.day).value;
      0.0 <= p.top < GridHeight as real && 0.0 < p.height && p.top + p.height <= GridHeight as real
  {
  }

  /** Fifteen minutes are one 16-pixel slot. */
  lemma QuarterIsOneSlot(hour: int, minute: int)
    ensures Offset(hour, minute + 15) == Offset(hour, minute) + SlotHeight as real
  {
  }

  // ---------------------------------------------------------------------
  // Staff filter

  /** A time-off record: `user` is the id of its `user`, when it has one. */
  datatype TimeOff = TimeOff(id: string, user: Option<string>)

  predicate AnyIn(ids: seq<string>, selected: seq<string>)
  {
    exists k :: 0 <= k < |ids| && ids[k] in selected
  }

  /** The booking filter of lines 66-80: `user_ids` when present, else the services' staff, else dropped. */
  predicate KeepBooking(b: BookingService.ApiBooking, selected: seq<string>)
  {
    if b.userIds.Some? then AnyIn(b.userIds.value, selected)
    else if b.bookingServices.Some? then AnyIn(b.bookingServices.value, selected)
    else false
  }

  predicate KeepTimeOff(t: TimeOff, selected: seq<string>)
  {
    t.user.Some? && t.user.value in selected
  }

  /** Whether a staff selection is in force (`selectedStaffIds && selectedStaffIds.length > 0`). */
  predicate Filtering(selected: Option<seq<string>>) { selected.Some? && |selected.value| > 0 }

  /** `filter` on bookings: an order-preserving subsequence of exactly the kept bookings. */
  function FilterBookings(bs: seq<BookingService.ApiBooking>, selected: seq<string>): (r: seq<BookingService.ApiBooking>)
    ensures |r| <= |bs|
    ensures forall b :: b in r <==> b in bs && KeepBooking(b, selected)
    decreases |bs|
  {
    if bs == [] then []
    else
      var rest := FilterBookings(bs[1..], selected);
      assert forall b :: b in bs <==> b == bs[0] || b in bs[1..];
      if KeepBooking(bs[0], selected) then [bs[0]] + rest else rest
  }

  function FilterTimeOffs(ts: seq<TimeOff>, selected: seq<string>): (r: seq<TimeOff>)
    ensures |r| <= |ts|
    ensures forall t :: t in r <==> t in ts && KeepTimeOff(t, selected)
    decreases |ts|
  {
    if ts == [] then []
    else
      var rest := FilterTimeOffs(ts[1..], selected);
      assert forall t :: t in ts <==> t == ts[0] || t in ts[1..];
      if KeepTimeOff(ts[0], selected) then [ts[0]] + rest else rest
  }

  /** Filtering a concatenation filters each part: the kept bookings keep their order. */
  lemma {:induction false} FilterBookingsAppend(a: seq<BookingService.ApiBooking>, b: seq<BookingService.ApiBooking>, selected: seq<string>)
    ensures FilterBookings(a + b, selected) == FilterBookings(a, selected) + FilterBookings(b, selected)
  {
    if a == [] {
      assert a + b == b;
    } else {
      assert (a + b)[1..] == a[1..] + b;
      FilterBookingsAppend(a[1..], b, selected);
    }
  }

  /** Filtering a concatenation filters each part: the kept time-offs keep their order. */
  lemma {:induction false} FilterTimeOffsAppend(a: seq<TimeOff>, b: seq<TimeOff>, selected: seq<string>)
    ensures FilterTimeOffs(a + b, selected) == FilterTimeOffs(a, selected) + FilterTimeOffs(b, selected)
  {
    if a == [] {
      assert a + b == b;
    } else {
      assert (a + b)[1..] == a[1..] + b;
      FilterTimeOffsAppend(a[1..], b, selected);
    }
  }

  /** The bookings drawn: all of them without a selection, else exactly the kept ones. */
  function VisibleBookings(bs: seq<BookingService.ApiBooking>, selected: Option<seq<string>>): (r: seq<BookingService.ApiBooking>)
    ensures !Filtering(selected) ==> r == bs
    ensures Filtering(selected) ==> forall b :: b in r <==> b in bs && KeepBooking(b, selected.value)
  {
    if Filtering(selected) then FilterBookings(bs, selected.value) else bs
  }

  /** The time-offs drawn: all of them without a selection, else exactly those of selected staff. */
  function VisibleTimeOffs(ts: seq<TimeOff>, selected: Option<seq<string>>): (r: seq<TimeOff>)
    ensures !Filtering(selected) ==> r == ts
    ensures Filtering(selected) ==> forall t :: t in r <==> t in ts && KeepTimeOff(t, selected.value)
  {
    if Filtering(selected) then FilterTimeOffs(ts, selected.value) else ts
  }

  /** Selecting every staff member a booking names keeps it; a booking naming no staff is never kept. */
  lemma FilterByStaff(b: BookingService.ApiBooking, selected: seq<string>)
    ensures b.userIds.Some? && |b.userIds.value| > 0 && b.userIds.value[0] in selected ==> KeepBooking(b, selected)
    ensures b.userIds.None? && b.bookingServices.None? ==> !KeepBooking(b, selected)
    ensures b.userIds.Some? && |b.userIds.value| == 0 ==> !KeepBooking(b, selected)
  {
  }

  // ---------------------------------------------------------------------
  // Time-off query

  /** The second argument of `fetchTimeOffs`, sent as `availability_type`. */
  datatype AvailabilityArg = Named(name: string) | DateArg(day: int)

  datatype TimeOffQuery = TimeOffQuery(startDay: int, availabilityType: AvailabilityArg)

  /** Line 59 as written: the window's end date lands in the `availabilityType` parameter. */
  function TimeOffQueryAsWritten(startDay: int, endDay: int): (q: TimeOffQuery)
    ensures q.startDay == startDay
  {
    TimeOffQuery(startDay, DateArg(endDay))
  }

  /** The query is never the default "weekly" type: the API receives a date where it expects a type name. */
  lemma TimeOffQueryAsWrittenSendsDate(startDay: int, endDay: int)
    ensures !TimeOffQueryAsWritten(startDay, endDay).availabilityType.Named?
  {
  }

  /** The call with `fetchTimeOffs`'s own default type. */
  function TimeOffQueryFor(startDay: int): (q: TimeOffQuery)
    ensures q.startDay == startDay && q.availabilityType == Named("weekly")
  {
    TimeOffQuery(startDay, Named("weekly"))
  }

  /** The two calls a refresh makes: bookings over the whole window, time-offs from its first day. */
  datatype Fetch = Fetch(bookingsFrom: int, bookingsTo: int, timeOffs: TimeOffQuery)

  class CalendarState {
    var currentDay: int
    var selectedStaffIds: Option<seq<string>>
    var cachedBookings: seq<BookingService.ApiBooking>
    var cachedTimeOffs: seq<TimeOff>

    constructor (today: int)
      ensures currentDay == today && selectedStaffIds.None? && cachedBookings == [] && cachedTimeOffs == []
    {
      currentDay := today;
      selectedStaffIds := None;
      cachedBookings := [];
      cachedTimeOffs := [];
    }

    /**
     * `renderCalendar`: fetch only with an empty booking cache or on a forced
     * refresh, then the visible bookings and time-offs and the seven columns.
     */
    method RenderCalendar(day: int, forceRefresh: bool, fetchedBookings: seq<BookingService.ApiBooking>, fetchedTimeOffs: seq<TimeOff>)
      returns (fetch: Option<Fetch>, bookings: seq<BookingService.ApiBooking>, timeOffs: seq<TimeOff>, columns: seq<int>)
      modifies this
      ensures fetch.Some? <==> |old(cachedBookings)| == 0 || forceRefresh
      ensures fetch.Some? ==> fetch.value == Fetch(StartDay(day), StartDay(day) + 6, TimeOffQueryFor(StartDay(day)))
      ensures fetch.Some? ==> cachedBookings == fetchedBookings && cachedTimeOffs == fetchedTimeOffs
      ensures fetch.None? ==> cachedBookings == old(cachedBookings) && cachedTimeOffs == old(cachedTimeOffs)
      ensures currentDay == old(currentDay) && selectedStaffIds == old(selectedStaffIds)
      ensures bookings == VisibleBookings(cachedBookings, selectedStaffIds)
      ensures timeOffs == VisibleTimeOffs(cachedTimeOffs, selectedStaffIds)
      ensures columns == WeekDays(day)
    {
      var start := StartDay(day);
      var end := start + 6;
      fetch := None;
      if |cachedBookings| == 0 || forceRefresh {
        fetch := Some(Fetch(start, end, TimeOffQueryFor(start)));
        cachedBookings := fetchedBookings;
        cachedTimeOffs := fetchedTimeOffs;
      }
      if selectedStaffIds.Some? && |selectedStaffIds.value| > 0 {
        bookings := FilterBookings(cachedBookings, selectedStaffIds.value);
        timeOffs := FilterTimeOffs(cachedTimeOffs, selectedStaffIds.value);
      } else {
        bookings := cachedBookings;
        timeOffs := cachedTimeOffs;
      }
      columns := WeekDays(day);
    }

    /** The "previous week" button: the date moves back a week and the calendar is rendered again. */
    method PrevWeek(fetchedBookings: seq<BookingService.ApiBooking>, fetchedTimeOffs: seq<TimeOff>)
      returns (fetch: Option<Fetch>, bookings: seq<BookingService.ApiBooking>, timeOffs: seq<TimeOff>, columns: seq<int>)
      modifies this
      ensures currentDay == old(currentDay) - 7 && selectedStaffIds == old(selectedStaffIds)
      ensures fetch.Some? <==> |old(cachedBookings)| == 0
      ensures fetch.Some? ==> fetch.value == Fetch(StartDay(currentDay), StartDay(currentDay) + 6, TimeOffQueryFor(StartDay(currentDay)))
      ensures fetch.Some? ==> cachedBookings == fetchedBookings && cachedTimeOffs == fetchedTimeOffs
      ensures fetch.None? ==> cachedBookings == old(cachedBookings) && cachedTimeOffs == old(cachedTimeOffs)
      ensures bookings == VisibleBookings(cachedBookings, selectedStaffIds)
      ensures timeOffs == VisibleTimeOffs(cachedTimeOffs, selectedStaffIds)
      ensures columns == WeekDays(currentDay)
    {
      currentDay := currentDay - 7;
      fetch, bookings, timeOffs, columns := RenderCalendar(currentDay, false, fetchedBookings, fetchedTimeOffs);
    }

    /** The "next week" button: the date moves on a week and the calendar is rendered again. */
    method NextWeek(fetchedBookings: seq<BookingService.ApiBooking>, fetchedTimeOffs: seq<TimeOff>)
      returns (fetch: Option<Fetch>, bookings: seq<BookingService.ApiBooking>, timeOffs: seq<TimeOff>, columns: seq<int>)
      modifies this
      ensures currentDay == old(currentDay) + 7 && selectedStaffIds == old(selectedStaffIds)
      ensures fetch.Some? <==> |old(cachedBookings)| == 0
      ensures fetch.Some? ==> fetch.value == Fetch(StartDay(currentDay), StartDay(currentDay) + 6, TimeOffQueryFor(StartDay(currentDay)))
      ensures fetch.Some? ==> cachedBookings == fetchedBookings && cachedTimeOffs == fetchedTimeOffs
      ensures fetch.None? ==> cachedBookings == old(cachedBookings) && cachedTimeOffs == old(cachedTimeOffs)
      ensures bookings == VisibleBookings(cachedBookings, selectedStaffIds)
      ensures timeOffs == VisibleTimeOffs(cachedTimeOffs, selectedStaffIds)
      ensures columns == WeekDays(currentDay)
    {
      currentDay := currentDay + 7;
      fetch, bookings, timeOffs, columns := RenderCalendar(currentDay, false, fetchedBookings, fetchedTimeOffs);
    }

    /**
     * `refreshCalendar`: a given selection (even an empty one) replaces the
     * current one, an absent one keeps it; then the calendar is rendered again.
     */
    method RefreshCalendar(selection: Option<Option<seq<string>>>, fetchedBookings: seq<BookingService.ApiBooking>, fetchedTimeOffs: seq<TimeOff>)
      returns (fetch: Option<Fetch>, bookings: seq<BookingService.ApiBooking>, timeOffs: seq<TimeOff>, columns: seq<int>)
      modifies this
      ensures selection.Some? ==> selectedStaffIds == selection.value
      ensures selection.None? ==> selectedStaffIds == old(selectedStaffIds)
      ensures currentDay == old(currentDay)
      ensures fetch.Some? <==> |old(cachedBookings)| == 0
      ensures fetch.Some? ==> fetch.value == Fetch(StartDay(currentDay), StartDay(currentDay) + 6, TimeOffQueryFor(StartDay(currentDay)))
      ensures fetch.Some? ==> cachedBookings == fetchedBookings && cachedTimeOffs == fetchedTimeOffs
      ensures fetch.None? ==> cachedBookings == old(cachedBookings) && cachedTimeOffs == old(cachedTimeOffs)
      ensures bookings == VisibleBookings(cachedBookings, selectedStaffIds)
      ensures timeOffs == VisibleTimeOffs(cachedTimeOffs, selectedStaffIds)
      ensures columns == WeekDays(currentDay)
    {
      if selection.Some? {
        selectedStaffIds := selection.value;
      }
      fetch, bookings, timeOffs, columns := RenderCalendar(currentDay, false, fetchedBookings, fetchedTimeOffs);
    }
  }
}
