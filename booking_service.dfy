/**
 * The booking service of static/js/booking-service.js: the one-minute
 * booking cache and its key, the booking query parameters, the conversion
 * of API bookings into calendar events, and the validation and payload of
 * creating or updating a booking. The API is an input: each call's reply
 * (or the exception it raises) is a parameter.
 */
module BookingService {
  import opened Wrappers
  import opened Strings
  import opened Utils

  // ---------------------------------------------------------------------
  // The order of `Array.prototype.sort()` on strings

  /** Lexicographic order on characters, as the default `sort()` compares strings. */
  predicate StrLe(a: string, b: string)
    decreases |a|
  {
    a == [] || (b != [] && (a[0] < b[0] || (a[0] == b[0] && StrLe(a[1..], b[1..]))))
  }

  lemma {:induction false} StrLeRefl(a: string)
    ensures StrLe(a, a)
    decreases |a|
  {
    if a != [] { StrLeRefl(a[1..]); }
  }

  lemma {:induction false} StrLeTotal(a: string, b: string)
    ensures StrLe(a, b) || StrLe(b, a)
    decreases |a|
  {
    if a != [] && b != [] && a[0] == b[0] { StrLeTotal(a[1..], b[1..]); }
  }

  lemma {:induction false} StrLeAntisym(a: string, b: string)
    requires StrLe(a, b) && StrLe(b, a)
    ensures a == b
    decreases |a|
  {
    if a != [] {
      StrLeAntisym(a[1..], b[1..]);
      assert a == [a[0]] + a[1..] && b == [b[0]] + b[1..];
    }
  }

  lemma {:induction false} StrLeTrans(a: string, b: string, c: string)
    requires StrLe(a, b) && StrLe(b, c)
    ensures StrLe(a, c)
    decreases |a|
  {
    if a != [] && a[0] == b[0] && b[0] == c[0] { StrLeTrans(a[1..], b[1..], c[1..]); }
  }

  predicate Sorted(s: seq<string>)
  {
    forall i, j :: 0 <= i < j < |s| ==> StrLe(s[i], s[j])
  }

  /** `x` placed before the first element it does not exceed. */
  function Insert(x: string, s: seq<string>): (r: seq<string>)
    ensures |r| == |s| + 1
    ensures multiset(r) == multiset(s) + multiset{x}
    decreases |s|
  {
    if s == [] then [x]
    else if StrLe(x, s[0]) then [x] + s
    else
      assert s == [s[0]] + s[1..];
      [s[0]] + Insert(x, s[1..])
  }

  lemma {:induction false} InsertSorted(x: string, s: seq<string>)
    requires Sorted(s)
    ensures Sorted(Insert(x, s))
    decreases |s|
  {
    if s != [] {
      if StrLe(x, s[0]) {
        forall j | 0 < j < |s| + 1 ensures StrLe(x, ([x] + s)[j]) {
          if j > 1 { StrLeTrans(x, s[0], s[j - 1]); } else { assert ([x] + s)[j] == s[0]; }
        }
      } else {
        StrLeTotal(x, s[0]);
        InsertSorted(x, s[1..]);
        var rest := Insert(x, s[1..]);
        var r := [s[0]] + rest;
        forall j | 0 <= j < |rest| ensures StrLe(s[0], rest[j]) {
          assert rest[j] in multiset(rest);
          if rest[j] != x {
            assert rest[j] in multiset(s[1..]);
            var k :| 0 <= k < |s[1..]| && s[1..][k] == rest[j];
            assert s[k + 1] == rest[j];
          }
        }
        forall i, j | 0 <= i < j < |r| ensures StrLe(r[i], r[j]) {
          if i == 0 { assert r[j] == rest[j - 1]; } else { assert r[i] == rest[i - 1] && r[j] == rest[j - 1]; }
        }
      }
    }
  }

  /** The sorted order `staffIds.sort()` leaves behind: a sorted rearrangement of the ids. */
  function Sort(s: seq<string>): (r: seq<string>)
    ensures |r| == |s|
    ensures multiset(r) == multiset(s)
    ensures Sorted(r)
    decreases |s|
  {
    if s == [] then []
    else
      assert s == [s[0]] + s[1..];
      var rest := Sort(s[1..]);
      InsertSorted(s[0], rest);
      Insert(s[0], rest)
  }

  /** The first element of a sorted sequence is at most each of its elements. */
  lemma SortedHeadLeast(a: seq<string>, x: string)
    requires Sorted(a) && x in a
    ensures StrLe(a[0], x)
  {
    var k :| 0 <= k < |a| && a[k] == x;
    if k == 0 { StrLeRefl(x); }
  }

  lemma TailMultiset(a: seq<string>)
    requires a != []
    ensures multiset(a[1..]) == multiset(a) - multiset{a[0]}
  {
    assert a == [a[0]] + a[1..];
  }

  /** A sorted rearrangement is unique: two sorted sequences with the same elements are equal. */
  lemma {:induction false} SortedUnique(a: seq<string>, b: seq<string>)
    requires Sorted(a) && Sorted(b) && multiset(a) == multiset(b)
    ensures a == b
    decreases |a|
  {
    if a == [] {
      assert |b| == |multiset(b)|;
    } else {
      SortedSameHead(a, b);
      SortedTails(a, b);
      SortedUnique(a[1..], b[1..]);
      assert a == [a[0]] + a[1..] && b == [b[0]] + b[1..];
    }
  }

  /** Two sorted sequences with the same non-empty multiset start with the same element. */
  lemma SortedSameHead(a: seq<string>, b: seq<string>)
    requires Sorted(a) && Sorted(b) && multiset(a) == multiset(b) && a != []
    ensures b != [] && a[0] == b[0]
  {
    assert a[0] in multiset(b);
    assert b[0] in multiset(a);
    SortedHeadLeast(a, b[0]);
    SortedHeadLeast(b, a[0]);
    StrLeAntisym(a[0], b[0]);
  }

  /** Dropping the same first element leaves sorted tails with the same multiset. */
  lemma SortedTails(a: seq<string>, b: seq<string>)
    requires Sorted(a) && Sorted(b) && a != [] && b != [] && a[0] == b[0] && multiset(a) == multiset(b)
    ensures Sorted(a[1..]) && Sorted(b[1..]) && multiset(a[1..]) == multiset(b[1..])
  {
    TailMultiset(a);
    TailMultiset(b);
  }

  // ---------------------------------------------------------------------
  // The booking cache

  /** `bookingCache.expirationTime`, in milliseconds. */
  const ExpirationTime := 60000

  /** `staffKey`: "all" without a staff list, else the sorted ids joined by ','. */
  function StaffKey(staffIds: Option<seq<string>>): string
  {
    if staffIds.None? then "all" else Join(Sort(staffIds.value), ',')
  }

  /** `generateCacheKey`. */
  function CacheKey(start: Date, end: Date, staffIds: Option<seq<string>>): string
  {
    FormatDate(start) + "_" + FormatDate(end) + "_" + StaffKey(staffIds)
  }

  /** The key does not depend on the order in which the staff ids are given. */
  lemma CacheKeyOrderFree(start: Date, end: Date, a: seq<string>, b: seq<string>)
    requires multiset(a) == multiset(b)
    ensures CacheKey(start, end, Some(a)) == CacheKey(start, end, Some(b))
  {
    SortedUnique(Sort(a), Sort(b));
  }

  /** `generateCacheKey` as written: the caller's array is sorted in place as a side effect. */
  method GenerateCacheKey(start: Date, end: Date, staffIds: array?<string>) returns (key: string)
    modifies staffIds
    ensures key == CacheKey(start, end, if staffIds == null then None else Some(old(staffIds[..])))
    ensures staffIds != null ==> staffIds[..] == Sort(old(staffIds[..]))
  {
    if staffIds == null {
      key := CacheKey(start, end, None);
    } else {
      var sorted := Sort(staffIds[..]);
      forall i | 0 <= i < staffIds.Length {
        staffIds[i] := sorted[i];
      }
      key := FormatDate(start) + "_" + FormatDate(end) + "_" + Join(staffIds[..], ',');
      assert staffIds[..] == sorted;
    }
  }

  datatype Customer = Customer(firstName: Option<string>, lastName: Option<string>)

  /**
   * An API booking, as far as the pages read it: `userIds` is its `user_ids`
   * array when it has one, `bookingServices` the `user_id` of each entry of
   * `booking_services`.
   */
  datatype ApiBooking = ApiBooking(
    id: string, startAt: string, endAt: string, status: string, notes: Option<string>,
    totalPrice: int, customer: Option<Customer>, userIds: Option<seq<string>>, bookingServices: Option<seq<string>>)

  class BookingCache {
    var data: Option<seq<ApiBooking>>
    var timestamp: Option<int>
    var cacheKey: Option<string>

    constructor ()
      ensures data.None? && timestamp.None? && cacheKey.None?
    {
      data, timestamp, cacheKey := None, None, None;
    }

    /** `isCacheValid` at time `now` (ms): data, a non-zero timestamp and the same key, less than a minute old. */
    predicate IsCacheValid(key: string, now: int)
      reads this
      ensures IsCacheValid(key, now) ==> data.Some? && cacheKey == Some(key)
      ensures IsCacheValid(key, now) ==> timestamp.Some? && now < timestamp.value + ExpirationTime
    {
      data.Some? && timestamp.Some? && timestamp.value != 0 && cacheKey == Some(key) &&
      now - timestamp.value < ExpirationTime
    }

    /** `clearCache`: afterwards no key is valid at any time. */
    method ClearCache()
      modifies this
      ensures data.None? && timestamp.None? && cacheKey.None?
      ensures forall key, now :: !IsCacheValid(key, now)
    {
      data, timestamp, cacheKey := None, None, None;
    }

    /**
     * `submitBooking` (no booking id) and `updateBooking` (with one): the
     * alert when the form is incomplete, otherwise the one API call with the
     * payload; a successful reply clears the cache.
     */
    method SaveBooking(form: Form, checked: seq<string>, bookingId: Option<string>, reply: ApiReply)
      returns (sent: Option<BookingData>, outcome: SaveOutcome)
      modifies this
      ensures sent == (if BuildBookingData(form, checked).Ready? then Some(BuildBookingData(form, checked).data) else None)
      ensures outcome == SaveResult(BuildBookingData(form, checked), bookingId, reply)
      ensures outcome.Saved? ==> data.None? && timestamp.None? && cacheKey.None?
      ensures !outcome.Saved? ==> data == old(data) && timestamp == old(timestamp) && cacheKey == old(cacheKey)
    {
      var v := BuildBookingData(form, checked);
      if !v.Ready? {
        return None, SaveResult(v, bookingId, reply);
      }
      var payload := BuildPayload(form, checked);
      sent := Some(payload);
      outcome := SaveResult(v, bookingId, reply);
      if outcome.Saved? {
        ClearCache();
      }
    }
  }

  // ---------------------------------------------------------------------
  // Fetching bookings

  datatype Params = Params(startDate: string, endDate: string, staffId: Option<seq<string>>)

  /** The query of `fetchBookings`: `staff_id` only for a non-empty staff list, holding the ids in order. */
  function FetchParams(start: Date, end: Date, staffIds: Option<seq<string>>): (p: Params)
    ensures p.startDate == FormatDate(start) && p.endDate == FormatDate(end)
    ensures p.staffId.Some? <==> staffIds.Some? && |staffIds.value| > 0
    ensures p.staffId.Some? ==> p.staffId.value == staffIds.value
  {
    Params(FormatDate(start), FormatDate(end), if staffIds.Some? && |staffIds.value| > 0 then staffIds else None)
  }

  /** The `forEach` of lines 53-58 that pushes the ids one at a time. */
  method BuildParams(start: Date, end: Date, staffIds: Option<seq<string>>) returns (p: Params)
    ensures p == FetchParams(start, end, staffIds)
  {
    var staffId: Option<seq<string>> := None;
    if staffIds.Some? && |staffIds.value| > 0 {
      var ids := staffIds.value;
      var i := 0;
      while i < |ids|
        invariant 0 <= i <= |ids|
        invariant i == 0 ==> staffId.None?
        invariant i > 0 ==> staffId == Some(ids[..i])
      {
        var pushed := if staffId.None? then [] else staffId.value;
        staffId := Some(pushed + [ids[i]]);
        assert ids[..i + 1] == ids[..i] + [ids[i]];
        i := i + 1;
      }
      assert ids[..|ids|] == ids;
    }
    p := Params(FormatDate(start), FormatDate(end), staffId);
  }

  /** What an API call gives back: an exception with its message, or a reply. */
  datatype ApiReply = Thrown(error: string) | Replied(success: bool, data: seq<ApiBooking>, message: Option<string>)

  /** `fetchBookings`: the reply's data on success, otherwise (including an exception) no bookings. */
  function FetchBookings(reply: ApiReply): (r: seq<ApiBooking>)
    ensures reply.Thrown? ==> r == []
    ensures reply.Replied? && !reply.success ==> r == []
    ensures reply.Replied? && reply.success ==> r == reply.data
  {
    if reply.Replied? && reply.success then reply.data else []
  }

  // ---------------------------------------------------------------------
  // Bookings as calendar events

  datatype Event = Event(
    id: string, title: string, description: string, startUtc: string, endUtc: string,
    color: string, totalPrice: int, status: string, customer: Customer, bookingServices: seq<string>)

  /** JavaScript truthiness of an optional string. */
  predicate Truthy(s: Option<string>) { s.Some? && s.value != "" }

  /** The text handed to `new Date`: 'Z' appended unless the text already has one. */
  function AsUtc(s: string): (r: string)
    ensures 'Z' in r
    ensures 'Z' in s ==> r == s
    ensures 'Z' !in s ==> r == s + "Z"
  {
    if 'Z' in s then s else s + "Z"
  }

  /** Marking a time as UTC twice is marking it once. */
  lemma AsUtcIdempotent(s: string)
    ensures AsUtc(AsUtc(s)) == AsUtc(s)
  {
  }

  function EventColor(status: string): (c: string)
    ensures c == "event-cancelled" <==> status == "cancelled"
    ensures c == "event-completed" <==> status == "completed"
    ensures c == "event-blue" <==> status != "cancelled" && status != "completed"
  {
    if status == "cancelled" then "event-cancelled" else if status == "completed" then "event-completed" else "event-blue"
  }

  /** The event title: "first last" when both names are non-empty, else "Unknown Customer". */
  function CustomerTitle(c: Customer): (t: string)
    ensures Truthy(c.firstName) && Truthy(c.lastName) ==> t == c.firstName.value + " " + c.lastName.value
    ensures !(Truthy(c.firstName) && Truthy(c.lastName)) ==> t == "Unknown Customer"
  {
    if Truthy(c.firstName) && Truthy(c.lastName) then c.firstName.value + " " + c.lastName.value
    else "Unknown Customer"
  }

  function ToEvent(b: ApiBooking): (e: Event)
    ensures e.id == b.id && e.status == b.status && e.totalPrice == b.totalPrice
    ensures e.startUtc == AsUtc(b.startAt) && e.endUtc == AsUtc(b.endAt)
    ensures e.description == if Truthy(b.notes) then b.notes.value else "No notes"
  {
    var customer := if b.customer.Some? then b.customer.value else Customer(None, None);
    Event(b.id, CustomerTitle(customer), if Truthy(b.notes) then b.notes.value else "No notes",
      AsUtc(b.startAt), AsUtc(b.endAt), EventColor(b.status), b.totalPrice, b.status, customer,
      if b.bookingServices.Some? then b.bookingServices.value else [])
  }

  /** `convertBookingsToEvents`: one event per booking, in the same order. */
  function ConvertBookingsToEvents(bookings: seq<ApiBooking>): (events: seq<Event>)
    ensures |events| == |bookings|
    ensures forall i :: 0 <= i < |bookings| ==> events[i] == ToEvent(bookings[i])
  {
    seq(|bookings|, i requires 0 <= i < |bookings| => ToEvent(bookings[i]))
  }

  /** Converting a concatenation converts the parts (the map is element-wise). */
  lemma ConvertAppend(a: seq<ApiBooking>, b: seq<ApiBooking>)
    ensures ConvertBookingsToEvents(a + b) == ConvertBookingsToEvents(a) + ConvertBookingsToEvents(b)
  {
    assert forall i :: 0 <= i < |a| ==> (a + b)[i] == a[i];
    assert forall i :: |a| <= i < |a| + |b| ==> (a + b)[i] == b[i - |a|];
  }

  // ---------------------------------------------------------------------
  // Creating and updating a booking

  /** The booking form's field values. */
  datatype Form = Form(
    startDate: string, endDate: string, startTime: string, endTime: string,
    workerId: string, customerType: string, description: string,
    firstName: string, lastName: string, email: string, phone: string)

  datatype CustomerInfo =
    | NewCustomer(firstName: string, lastName: string, email: string, phone: string)
    | ExistingCustomer(id: string)

  datatype ServiceEntry = ServiceEntry(categoryServiceId: string, userId: string, notes: string)

  datatype BookingData = BookingData(
    startTime: string, endTime: string, notes: string, services: seq<ServiceEntry>, customerInfo: CustomerInfo)

  datatype Validation = NoService | NoWorker | Ready(data: BookingData)

  /** `value || default` on a trimmed text field. */
  function OrDefault(s: string, default: string): (r: string)
    ensures r == (if Trim(s) == "" then default else Trim(s))
  {
    var t := Trim(s);
    if t == "" then default else t
  }

  /** One entry per checked service, all for the chosen worker. */
  function Entries(checked: seq<string>, worker: string): (r: seq<ServiceEntry>)
    ensures |r| == |checked|
    ensures forall i :: 0 <= i < |r| ==> r[i] == ServiceEntry(checked[i], worker, "")
  {
    seq(|checked|, i requires 0 <= i < |checked| => ServiceEntry(checked[i], worker, ""))
  }

  /** The checks and the payload of lines 198-260 (and 315-378). */
  function BuildBookingData(form: Form, checked: seq<string>): (v: Validation)
    ensures checked == [] <==> v == NoService
    ensures checked != [] && form.workerId == "" <==> v == NoWorker
    ensures v.Ready? ==>
      v.data.startTime == form.startDate + "T" + form.startTime + ":00Z" &&
      v.data.endTime == form.endDate + "T" + form.endTime + ":00Z" &&
      v.data.notes == form.description &&
      v.data.services == Entries(checked, form.workerId)
    ensures v.Ready? && form.customerType != "new" ==> v.data.customerInfo == ExistingCustomer(form.customerType)
    ensures v.Ready? && form.customerType == "new" ==>
      v.data.customerInfo == NewCustomer(OrDefault(form.firstName, "unknown"), OrDefault(form.lastName, "unknown"),
        OrDefault(form.email, "unknown@unknown.com"), OrDefault(form.phone, "0000000"))
  {
    if checked == [] then NoService
    else if form.workerId == "" then NoWorker
    else
      var info := if form.customerType == "new" then
        NewCustomer(OrDefault(form.firstName, "unknown"), OrDefault(form.lastName, "unknown"),
          OrDefault(form.email, "unknown@unknown.com"), OrDefault(form.phone, "0000000"))
        else ExistingCustomer(form.customerType);
      Ready(BookingData(form.startDate + "T" + form.startTime + ":00Z", form.endDate + "T" + form.endTime + ":00Z",
        form.description, Entries(checked, form.workerId), info))
  }

  /** A new customer's fields are never empty in the payload. */
  lemma NewCustomerFieldsNonEmpty(form: Form, checked: seq<string>)
    requires BuildBookingData(form, checked).Ready? && form.customerType == "new"
    ensures var c := BuildBookingData(form, checked).data.customerInfo;
      c.firstName != "" && c.lastName != "" && c.email != "" && c.phone != ""
  {
  }

  /** The `forEach` over the checked boxes that pushes one entry per service. */
  method PushEntries(checked: seq<string>, worker: string) returns (services: seq<ServiceEntry>)
    ensures services == Entries(checked, worker)
  {
    services := [];
    var i := 0;
    while i < |checked|
      invariant 0 <= i <= |checked| && |services| == i
      invariant forall k :: 0 <= k < i ==> services[k] == ServiceEntry(checked[k], worker, "")
    {
      services := services + [ServiceEntry(checked[i], worker, "")];
      i := i + 1;
    }
  }

  /** The payload built by lines 218-260 once both checks pass. */
  method BuildPayload(form: Form, checked: seq<string>) returns (data: BookingData)
    requires checked != [] && form.workerId != ""
    ensures Ready(data) == BuildBookingData(form, checked)
  {
    var services := PushEntries(checked, form.workerId);
    var info := if form.customerType == "new" then
      NewCustomer(OrDefault(form.firstName, "unknown"), OrDefault(form.lastName, "unknown"),
        OrDefault(form.email, "unknown@unknown.com"), OrDefault(form.phone, "0000000"))
      else ExistingCustomer(form.customerType);
    data := BookingData(form.startDate + "T" + form.startTime + ":00Z", form.endDate + "T" + form.endTime + ":00Z",
      form.description, services, info);
  }

  /** How a save ends: an alert before any call, saved, or the error message shown. */
  datatype SaveOutcome = Alert(text: string) | Saved | Failed(message: string)

  function SaveResult(v: Validation, bookingId: Option<string>, reply: ApiReply): (o: SaveOutcome)
    ensures v == NoService <==> o == Alert("Please select at least one service")
    ensures v == NoWorker <==> o == Alert("Please select a staff member")
    ensures o.Saved? <==> v.Ready? && reply.Replied? && reply.success
  {
    var verb := if bookingId.None? then "create" else "update";
    match v
    case NoService => Alert("Please select at least one service")
    case NoWorker => Alert("Please select a staff member")
    case Ready(_) =>
      match reply
      case Thrown(error) => Failed("Failed to " + verb + " booking: " + error)
      case Replied(success, _, message) =>
        if success then Saved
        else Failed("Failed to " + verb + " booking: " +
          (if Truthy(message) then message.value else "Failed to " + verb + " booking"))
  }
}
