/**
 * The customer booking page (static/js/booking.js): step navigation, the
 * selected-services set and list, staff collection, monthly availability
 * merging, 30-minute slot generation and 12-hour time text.
 *
 * Page state is `BookingState`; DOM effects are left out, and what the
 * page would render is returned instead.
 */
module Booking {
  import opened Wrappers
  import opened Strings

  // ---------------------------------------------------------------------
  // Selected services

  datatype ServiceData = ServiceData(id: string, name: string, price: int, duration: int)

  function Ids(services: seq<ServiceData>): set<string>
    decreases |services|
  {
    if services == [] then {} else {services[0].id} + Ids(services[1..])
  }

  /** No id occurs twice. */
  predicate DistinctIds(services: seq<ServiceData>)
    decreases |services|
  {
    services == [] || (services[0].id !in Ids(services[1..]) && DistinctIds(services[1..]))
  }

  /** `services.filter(s => s.id !== id)`. */
  function WithoutId(services: seq<ServiceData>, id: string): (r: seq<ServiceData>)
    ensures Ids(r) == Ids(services) - {id}
    ensures |r| <= |services|
    decreases |services|
  {
    if services == [] then []
    else
      var rest := WithoutId(services[1..], id);
      if services[0].id == id then rest
      else
        assert ([services[0]] + rest)[1..] == rest;
        [services[0]] + rest
  }

  /** The id set and the list are in sync: same ids, each listed once. */
  predicate InSync(selected: set<string>, services: seq<ServiceData>)
  {
    Ids(services) == selected && DistinctIds(services)
  }

  /** `toggleService` on (selectedServices, services). */
  function Toggle(st: (set<string>, seq<ServiceData>), d: ServiceData): (r: (set<string>, seq<ServiceData>))
  {
    if d.id in st.0 then (st.0 - {d.id}, WithoutId(st.1, d.id)) else (st.0 + {d.id}, st.1 + [d])
  }

  lemma {:induction false} WithoutIdDistinct(services: seq<ServiceData>, id: string)
    requires DistinctIds(services)
    ensures DistinctIds(WithoutId(services, id))
    decreases |services|
  {
    if services != [] {
      WithoutIdDistinct(services[1..], id);
    }
  }

  lemma {:induction false} AppendDistinct(services: seq<ServiceData>, d: ServiceData)
    requires DistinctIds(services) && d.id !in Ids(services)
    ensures DistinctIds(services + [d])
    ensures Ids(services + [d]) == Ids(services) + {d.id}
    decreases |services|
  {
    if services == [] {
      assert [d][1..] == [];
    } else {
      AppendDistinct(services[1..], d);
      assert (services + [d])[1..] == services[1..] + [d];
    }
  }

  lemma {:induction false} WithoutAppended(services: seq<ServiceData>, d: ServiceData)
    requires d.id !in Ids(services)
    ensures WithoutId(services + [d], d.id) == services
    decreases |services|
  {
    if services == [] {
      assert [d][1..] == [];
    } else {
      WithoutAppended(services[1..], d);
      assert (services + [d])[1..] == services[1..] + [d];
    }
  }

  /** Toggling keeps the id set and the list in sync. */
  lemma ToggleKeepsSync(st: (set<string>, seq<ServiceData>), d: ServiceData)
    requires InSync(st.0, st.1)
    ensures InSync(Toggle(st, d).0, Toggle(st, d).1)
  {
    if d.id in st.0 {
      WithoutIdDistinct(st.1, d.id);
    } else {
      AppendDistinct(st.1, d);
    }
  }

  /**
   * Toggling an unselected service twice restores both the set and the list;
   * toggling a selected one twice restores the set, with the entry moved to
   * the end and carrying the new data.
   */
  lemma ToggleTwice(st: (set<string>, seq<ServiceData>), d: ServiceData)
    requires InSync(st.0, st.1)
    ensures d.id !in st.0 ==> Toggle(Toggle(st, d), d) == st
    ensures d.id in st.0 ==> Toggle(Toggle(st, d), d) == (st.0, WithoutId(st.1, d.id) + [d])
  {
    if d.id !in st.0 {
      WithoutAppended(st.1, d);
      assert st.0 + {d.id} - {d.id} == st.0;
    } else {
      assert st.0 - {d.id} + {d.id} == st.0;
    }
  }

  // ---------------------------------------------------------------------
  // Progress indicator

  datatype StepLook = Done | Current | Ahead

  /** The class of progress step `stepNum` (1-based) for the current step. */
  function StepLookOf(stepNum: int, currentStep: int): StepLook
  {
    if stepNum < currentStep then Done else if stepNum == currentStep then Current else Ahead
  }

  function CountLook(looks: seq<StepLook>, l: StepLook): nat
    decreases |looks|
  {
    if looks == [] then 0 else CountLook(looks[..|looks| - 1], l) + (if looks[|looks| - 1] == l then 1 else 0)
  }

  /** `updateProgressIndicator` over `n` progress steps: each step's class and the fill width in percent. */
  method UpdateProgressIndicator(n: nat, currentStep: int) returns (looks: seq<StepLook>, width: real)
    ensures |looks| == n
    ensures forall i :: 0 <= i < n ==> looks[i] == StepLookOf(i + 1, currentStep)
    ensures CountLook(looks, Current) == (if 1 <= currentStep <= n then 1 else 0)
    ensures CountLook(looks, Done) == if currentStep <= 1 then 0 else if currentStep - 1 <= n then currentStep - 1 else n
    ensures width == (currentStep - 1) as real / 3.0 * 100.0
  {
    looks := [];
    var i := 0;
    while i < n
      invariant 0 <= i <= n && |looks| == i
      invariant forall k :: 0 <= k < i ==> looks[k] == StepLookOf(k + 1, currentStep)
      invariant CountLook(looks, Current) == (if 1 <= currentStep <= i then 1 else 0)
      invariant CountLook(looks, Done) == if currentStep <= 1 then 0 else if currentStep - 1 <= i then currentStep - 1 else i
    {
      var look := StepLookOf(i + 1, currentStep);
      assert (looks + [look])[..i] == looks;
      looks := looks + [look];
      i := i + 1;
    }
    width := (currentStep - 1) as real / 3.0 * 100.0;
  }

  // ---------------------------------------------------------------------
  // Staff of the selected services

  datatype StaffLink = StaffLink(userId: string, user: string)

  datatype CatalogueService = CatalogueService(id: string, serviceStaff: Option<seq<StaffLink>>)

  datatype CatalogueCategory = CatalogueCategory(services: Option<seq<CatalogueService>>)

  /** The staff links of the selected services, in catalogue order (the nested loops of lines 672-685). */
  function StaffLinksOfServices(svcs: seq<CatalogueService>, selected: set<string>): seq<StaffLink>
    decreases |svcs|
  {
    if svcs == [] then []
    else
      (if svcs[0].id in selected && svcs[0].serviceStaff.Some? then svcs[0].serviceStaff.value else [])
      + StaffLinksOfServices(svcs[1..], selected)
  }

  function StaffLinks(cats: seq<CatalogueCategory>, selected: set<string>): seq<StaffLink>
    decreases |cats|
  {
    if cats == [] then []
    else
      (if cats[0].services.Some? then StaffLinksOfServices(cats[0].services.value, selected) else [])
      + StaffLinks(cats[1..], selected)
  }

  /** The staff ids in first-occurrence order, as a `Map` keeps them. */
  function FirstIds(links: seq<StaffLink>): (ids: seq<string>)
    decreases |links|
  {
    if links == [] then []
    else
      var prev := FirstIds(links[..|links| - 1]);
      if links[|links| - 1].userId in prev then prev else prev + [links[|links| - 1].userId]
  }

  /** The user recorded for an id: that of its first link. */
  function FirstUser(links: seq<StaffLink>, id: string): Option<string>
    decreases |links|
  {
    if links == [] then None
    else if links[0].userId == id then Some(links[0].user)
    else FirstUser(links[1..], id)
  }

  /** The collected staff ids are distinct and are exactly the ids of the links. */
  lemma {:induction false} FirstIdsDistinct(links: seq<StaffLink>)
    ensures forall i, j :: 0 <= i < j < |FirstIds(links)| ==> FirstIds(links)[i] != FirstIds(links)[j]
    ensures forall id :: id in FirstIds(links) <==> exists k :: 0 <= k < |links| && links[k].userId == id
    decreases |links|
  {
    if links != [] {
      var init := links[..|links| - 1];
      FirstIdsDistinct(init);
      assert forall k :: 0 <= k < |init| ==> links[k] == init[k];
    }
  }

  /** The map built by lines 670-685: ids in first-occurrence order, each with its first user. */
  method CollectStaff(links: seq<StaffLink>) returns (ids: seq<string>, users: map<string, string>)
    ensures ids == FirstIds(links)
    ensures users.Keys == set id | id in ids
    ensures forall id :: id in users ==> Some(users[id]) == FirstUser(links, id)
  {
    ids, users := [], map[];
    var i := 0;
    while i < |links|
      invariant 0 <= i <= |links|
      invariant Collected(links[..i], ids, users)
    {
      var link := links[i];
      assert links[..i + 1] == links[..i] + [link];
      if link.userId !in users {
        CollectNew(links[..i], link, ids, users);
        ids := ids + [link.userId];
        users := users[link.userId := link.user];
      } else {
        CollectSeen(links[..i], link, ids, users);
      }
      i := i + 1;
    }
    assert links[..|links|] == links;
  }

  /** The ids and users collected from `seen`: ids in first-occurrence order, each with its first user. */
  predicate Collected(seen: seq<StaffLink>, ids: seq<string>, users: map<string, string>)
  {
    ids == FirstIds(seen) && users.Keys == (set id | id in ids) &&
    forall id :: id in users ==> Some(users[id]) == FirstUser(seen, id)
  }

  /** A link whose id was already collected changes nothing. */
  lemma CollectSeen(seen: seq<StaffLink>, link: StaffLink, ids: seq<string>, users: map<string, string>)
    requires Collected(seen, ids, users) && link.userId in users
    ensures Collected(seen + [link], ids, users)
  {
    assert (seen + [link])[..|seen|] == seen;
    FirstIdsDistinct(seen);
    FirstUserExtend(seen, link);
  }

  /** A link with a new id appends the id and records its user. */
  lemma CollectNew(seen: seq<StaffLink>, link: StaffLink, ids: seq<string>, users: map<string, string>)
    requires Collected(seen, ids, users) && link.userId !in users
    ensures Collected(seen + [link], ids + [link.userId], users[link.userId := link.user])
  {
    var all, uid := seen + [link], link.userId;
    assert uid !in ids;
    assert FirstIds(all) == ids + [uid] by {
      assert all[..|all| - 1] == seen && all[|all| - 1] == link;
    }
    FirstIdsDistinct(seen);
    FirstUserSome(seen, uid);
    assert FirstUser(seen, uid).None?;
    FirstUserExtend(seen, link);
    var users' := users[uid := link.user];
    assert users'.Keys == set id | id in ids + [uid];
    forall id | id in users' ensures Some(users'[id]) == FirstUser(all, id) {
      if id != uid {
        assert id in users;
      }
    }
  }

  /** An id has a recorded user exactly when some link carries it. */
  lemma {:induction false} FirstUserSome(links: seq<StaffLink>, id: string)
    ensures FirstUser(links, id).Some? <==> exists k :: 0 <= k < |links| && links[k].userId == id
    decreases |links|
  {
    if links != [] {
      FirstUserSome(links[1..], id);
      assert forall k :: 0 < k < |links| ==> links[k] == links[1..][k - 1];
      if exists k :: 0 <= k < |links[1..]| && links[1..][k].userId == id {
        var k :| 0 <= k < |links[1..]| && links[1..][k].userId == id;
        assert links[k + 1].userId == id;
      }
    }
  }

  lemma {:induction false} FirstUserExtend(links: seq<StaffLink>, link: StaffLink)
    ensures forall id :: FirstUser(links, id).Some? ==> FirstUser(links + [link], id) == FirstUser(links, id)
    ensures FirstUser(links, link.userId).None? ==> FirstUser(links + [link], link.userId) == Some(link.user)
    decreases |links|
  {
    if links != [] {
      FirstUserExtend(links[1..], link);
      assert (links + [link])[1..] == links[1..] + [link];
    } else {
      assert [link][1..] == [];
    }
  }

  /** `renderStaff`: the staff cards, and whether the single "Any Available" card is shown. */
  method RenderStaff(cats: seq<CatalogueCategory>, selected: set<string>) returns (ids: seq<string>, users: map<string, string>, anyCard: bool)
    ensures ids == FirstIds(StaffLinks(cats, selected))
    ensures anyCard <==> |ids| == 0
    ensures forall id :: id in users ==> Some(users[id]) == FirstUser(StaffLinks(cats, selected), id)
  {
    ids, users := CollectStaff(StaffLinks(cats, selected));
    anyCard := |users.Keys| == 0;
    if |ids| > 0 {
      assert ids[0] in users.Keys;
    } else {
      assert users.Keys == {};
    }
  }

  // ---------------------------------------------------------------------
  // Monthly availability

  datatype TimeSlot = TimeSlot(startTime: string, endTime: string, isAvailable: bool)

  datatype DaySlot = DaySlot(date: string, timeSlots: seq<TimeSlot>)

  datatype Week = Week(dailySlots: Option<seq<DaySlot>>)

  /** One staff member's availability; `None` is a missing `monthly.weekly_slots`. */
  datatype StaffAvailability = StaffAvailability(weeklySlots: Option<seq<Week>>)

  /** The day entries of all weeks in order, skipping weeks without a `daily_slots` array. */
  function DaysOfWeeks(weeks: seq<Week>): seq<DaySlot>
    decreases |weeks|
  {
    if weeks == [] then []
    else (if weeks[0].dailySlots.Some? then weeks[0].dailySlots.value else []) + DaysOfWeeks(weeks[1..])
  }

  function DaysOf(a: StaffAvailability): seq<DaySlot>
  {
    if a.weeklySlots.Some? then DaysOfWeeks(a.weeklySlots.value) else []
  }

  function DaysOfAll(data: seq<StaffAvailability>): seq<DaySlot>
    decreases |data|
  {
    if data == [] then [] else DaysOf(data[0]) + DaysOfAll(data[1..])
  }

  /** A day entry is used only with a date and at least one time slot. */
  predicate Usable(d: DaySlot) { d.date != "" && |d.timeSlots| > 0 }

  /** Single staff (lines 983-994): a later entry for the same date replaces an earlier one. */
  function Overwritten(days: seq<DaySlot>): map<string, seq<TimeSlot>>
    decreases |days|
  {
    if days == [] then map[]
    else
      var m := Overwritten(days[..|days| - 1]);
      var d := days[|days| - 1];
      if Usable(d) then m[d.date := d.timeSlots] else m
  }

  /** 'any' staff, first pass (lines 948-964): slots of the same date are concatenated. */
  function Concatenated(days: seq<DaySlot>): map<string, seq<TimeSlot>>
    decreases |days|
  {
    if days == [] then map[]
    else
      var m := Concatenated(days[..|days| - 1]);
      var d := days[|days| - 1];
      if !Usable(d) then m
      else if d.date in m then m[d.date := m[d.date] + d.timeSlots]
      else m[d.date := d.timeSlots]
  }

  /** The single-staff map holds, for each date, the slots of its last usable entry. */
  lemma {:induction false} OverwrittenLast(days: seq<DaySlot>, k: nat)
    requires k < |days| && Usable(days[k])
    requires forall j :: k < j < |days| ==> !(Usable(days[j]) && days[j].date == days[k].date)
    ensures days[k].date in Overwritten(days) && Overwritten(days)[days[k].date] == days[k].timeSlots
    decreases |days|
  {
    if k < |days| - 1 {
      OverwrittenLast(days[..|days| - 1], k);
    }
  }

  /** Every date of the concatenated map has a non-empty slot list, and only usable dates appear. */
  lemma {:induction false} ConcatenatedKeys(days: seq<DaySlot>)
    ensures forall date :: date in Concatenated(days) ==> date != "" && |Concatenated(days)[date]| > 0
    ensures forall k :: 0 <= k < |days| && Usable(days[k]) ==> days[k].date in Concatenated(days)
    decreases |days|
  {
    if days != [] {
      var init := days[..|days| - 1];
      ConcatenatedKeys(init);
      assert forall k :: 0 <= k < |init| ==> days[k] == init[k];
    }
  }

  /** The text key under which the 'any' merge deduplicates a slot. */
  function SlotKey(s: TimeSlot): string
  {
    s.startTime + "-" + s.endTime + "-" + (if s.isAvailable then "true" else "false")
  }

  /** The slot rebuilt from its key by `split('-')`: missing pieces read as "undefined". */
  function SlotFromKey(key: string): TimeSlot
  {
    var parts := Split(key, '-');
    TimeSlot(parts[0], if |parts| > 1 then parts[1] else "undefined", |parts| > 2 && parts[2] == "true")
  }

  /** Times without '-' survive the key round trip unchanged. */
  lemma SlotKeyRoundTrip(s: TimeSlot)
    requires '-' !in s.startTime && '-' !in s.endTime
    ensures SlotFromKey(SlotKey(s)) == s
  {
    var flag := if s.isAvailable then "true" else "false";
    assert '-' !in flag;
    assert (flag == "true") == s.isAvailable;
    SplitThree(s.startTime, s.endTime, flag, '-');
    var key := SlotKey(s);
    assert key == s.startTime + ['-'] + s.endTime + ['-'] + flag;
    var parts := Split(key, '-');
    assert parts == [s.startTime, s.endTime, flag];
    assert parts[0] == s.startTime && parts[1] == s.endTime && parts[2] == flag;
  }

  /** A time containing '-' does not: "9-30" as a start time splits into the wrong fields. */
  lemma SlotKeyLosesDashes()
    ensures SlotFromKey(SlotKey(TimeSlot("9-30", "10:00", true))) == TimeSlot("9", "30", false)
  {
    var key := SlotKey(TimeSlot("9-30", "10:00", true));
    assert key == Join(["9", "30", "10:00", "true"], '-');
    SplitJoin(["9", "30", "10:00", "true"], '-');
  }

  /** The distinct keys in first-occurrence order (`Array.from(new Set(...))`). */
  function UniqueKeys(keys: seq<string>): (r: seq<string>)
    ensures |r| <= |keys|
    ensures forall i, j :: 0 <= i < j < |r| ==> r[i] != r[j]
    ensures forall x :: x in r <==> x in keys
    decreases |keys|
  {
    if keys == [] then []
    else
      var prev := UniqueKeys(keys[..|keys| - 1]);
      assert forall x :: x in keys <==> x in keys[..|keys| - 1] || x == keys[|keys| - 1];
      if keys[|keys| - 1] in prev then prev else prev + [keys[|keys| - 1]]
  }

  /** The text keys of the slots, in order. */
  function KeysOf(slots: seq<TimeSlot>): (keys: seq<string>)
    ensures |keys| == |slots|
  {
    seq(|slots|, i requires 0 <= i < |slots| => SlotKey(slots[i]))
  }

  /** The deduplicated slot list of lines 968-973. */
  function Deduplicated(slots: seq<TimeSlot>): (r: seq<TimeSlot>)
    ensures |r| <= |slots|
  {
    var keys := UniqueKeys(KeysOf(slots));
    seq(|keys|, i requires 0 <= i < |keys| => SlotFromKey(keys[i]))
  }

  /** For '-'-free times, the merged list holds each distinct slot exactly once and nothing else. */
  lemma DeduplicatedSlots(slots: seq<TimeSlot>)
    requires forall k :: 0 <= k < |slots| ==> '-' !in slots[k].startTime && '-' !in slots[k].endTime
    ensures forall s :: s in Deduplicated(slots) <==> s in slots
    ensures forall i, j :: 0 <= i < j < |Deduplicated(slots)| ==> Deduplicated(slots)[i] != Deduplicated(slots)[j]
  {
    KeysRoundTrip(slots);
    DeduplicatedCovers(slots);
    DeduplicatedWithin(slots);
    DeduplicatedDistinct(slots);
  }

  lemma KeysRoundTrip(slots: seq<TimeSlot>)
    requires forall k :: 0 <= k < |slots| ==> '-' !in slots[k].startTime && '-' !in slots[k].endTime
    ensures forall k :: 0 <= k < |slots| ==> SlotFromKey(KeysOf(slots)[k]) == slots[k]
  {
    forall k | 0 <= k < |slots| ensures SlotFromKey(KeysOf(slots)[k]) == slots[k] {
      SlotKeyRoundTrip(slots[k]);
    }
  }

  lemma DeduplicatedCovers(slots: seq<TimeSlot>)
    requires forall k :: 0 <= k < |slots| ==> SlotFromKey(KeysOf(slots)[k]) == slots[k]
    ensures forall s :: s in slots ==> s in Deduplicated(slots)
  {
    var keys := KeysOf(slots);
    var u := UniqueKeys(keys);
    var r := Deduplicated(slots);
    forall s | s in slots ensures s in r {
      var k :| 0 <= k < |slots| && slots[k] == s;
      assert keys[k] in u;
      var j :| 0 <= j < |u| && u[j] == keys[k];
      assert r[j] == s;
    }
  }

  lemma DeduplicatedWithin(slots: seq<TimeSlot>)
    requires forall k :: 0 <= k < |slots| ==> SlotFromKey(KeysOf(slots)[k]) == slots[k]
    ensures forall s :: s in Deduplicated(slots) ==> s in slots
  {
    var keys := KeysOf(slots);
    var u := UniqueKeys(keys);
    var r := Deduplicated(slots);
    forall s | s in r ensures s in slots {
      var j :| 0 <= j < |r| && r[j] == s;
      assert u[j] in keys;
      var k :| 0 <= k < |keys| && keys[k] == u[j];
      assert s == slots[k];
    }
  }

  lemma DeduplicatedDistinct(slots: seq<TimeSlot>)
    requires forall k :: 0 <= k < |slots| ==> SlotFromKey(KeysOf(slots)[k]) == slots[k]
    ensures forall i, j :: 0 <= i < j < |Deduplicated(slots)| ==> Deduplicated(slots)[i] != Deduplicated(slots)[j]
  {
    var keys := KeysOf(slots);
    var u := UniqueKeys(keys);
    var r := Deduplicated(slots);
    forall i, j | 0 <= i < j < |r| ensures r[i] != r[j] {
      assert u[i] in keys && u[j] in keys;
      var a :| 0 <= a < |keys| && keys[a] == u[i];
      var b :| 0 <= b < |keys| && keys[b] == u[j];
      assert r[i] == slots[a] && r[j] == slots[b];
    }
  }


  /** `processMonthlyAvailability`: 'any' merges and deduplicates across staff, one staff member's later entries win. */
  function Availability(anyStaff: seq<StaffAvailability>, single: StaffAvailability, staffId: string): map<string, seq<TimeSlot>>
  {
    if staffId == "any" then
      var m := Concatenated(DaysOfAll(anyStaff));
      map date | date in m :: Deduplicated(m[date])
    else Overwritten(DaysOf(single))
  }

  /** The per-entry loop of lines 948-964 and 985-993 over the flattened day entries. */
  method MergeDays(days: seq<DaySlot>, concatenate: bool) returns (m: map<string, seq<TimeSlot>>)
    ensures m == if concatenate then Concatenated(days) else Overwritten(days)
  {
    m := map[];
    var i := 0;
    while i < |days|
      invariant 0 <= i <= |days|
      invariant m == if concatenate then Concatenated(days[..i]) else Overwritten(days[..i])
    {
      var d := days[i];
      assert days[..i + 1][..i] == days[..i];
      if Usable(d) {
        if concatenate && d.date in m {
          m := m[d.date := m[d.date] + d.timeSlots];
        } else {
          m := m[d.date := d.timeSlots];
        }
      }
      i := i + 1;
    }
    assert days[..|days|] == days;
  }

  // ---------------------------------------------------------------------
  // Page state

  class BookingState {
    var currentStep: int
    var selectedServices: set<string>
    var services: seq<ServiceData>
    var selectedStaff: Option<string>
    var selectedDate: string
    var selectedTime: string
    var monthlyAvailability: Option<map<string, seq<TimeSlot>>>

    ghost predicate Valid()
      reads this
    {
      InSync(selectedServices, services)
    }

    constructor ()
      ensures Valid()
      ensures currentStep == 1 && selectedServices == {} && services == []
      ensures selectedStaff.None? && selectedDate == "" && selectedTime == "" && monthlyAvailability.None?
    {
      currentStep := 1;
      selectedServices := {};
      services := [];
      selectedStaff := None;
      selectedDate := "";
      selectedTime := "";
      monthlyAvailability := None;
    }

    /** `canNavigateToStep`: back always; forward to 2, 3, 4 only with services, staff, or date and time. */
    predicate CanNavigateToStep(step: int)
      reads this
    {
      step <= currentStep ||
      (step == 2 && |selectedServices| > 0) ||
      (step == 3 && selectedStaff.Some?) ||
      (step == 4 && selectedDate != "" && selectedTime != "")
    }

    /**
     * Going back is always allowed; going forward only to step 2, 3 or 4,
     * each exactly when its choice is made: services, a staff member, a date
     * and a time.
     */
    lemma NavigationRule(step: int)
      ensures step <= currentStep ==> CanNavigateToStep(step)
      ensures step > currentStep && step !in {2, 3, 4} ==> !CanNavigateToStep(step)
      ensures step > currentStep && step == 2 ==> (CanNavigateToStep(step) <==> |selectedServices| > 0)
      ensures step > currentStep && step == 3 ==> (CanNavigateToStep(step) <==> selectedStaff.Some?)
      ensures step > currentStep && step == 4 ==> (CanNavigateToStep(step) <==> selectedDate != "" && selectedTime != "")
    {
    }

    /** `toggleService`: only the selection set and list change, and they stay in sync. */
    method ToggleService(d: ServiceData)
      requires Valid()
      modifies this
      ensures Valid()
      ensures (selectedServices, services) == Toggle((old(selectedServices), old(services)), d)
      ensures currentStep == old(currentStep) && selectedStaff == old(selectedStaff)
      ensures selectedDate == old(selectedDate) && selectedTime == old(selectedTime)
      ensures monthlyAvailability == old(monthlyAvailability)
    {
      ToggleKeepsSync((selectedServices, services), d);
      if d.id in selectedServices {
        selectedServices := selectedServices - {d.id};
        services := WithoutId(services, d.id);
      } else {
        selectedServices := selectedServices + {d.id};
        services := services + [d];
      }
    }

    /** `checkDayHasAvailability`. */
    predicate CheckDayHasAvailability(date: string)
      reads this
    {
      monthlyAvailability.Some? && date in monthlyAvailability.value && |monthlyAvailability.value[date]| > 0
    }

    /**
     * Once the month is processed, the calendar enables a day exactly when
     * some usable entry of the data the month was built from names it.
     */
    lemma DayHasAvailability(anyStaff: seq<StaffAvailability>, single: StaffAvailability, staffId: string, date: string)
      requires monthlyAvailability == Some(Availability(anyStaff, single, staffId))
      ensures var days := SourceDays(anyStaff, single, staffId);
        CheckDayHasAvailability(date) <==> exists k :: 0 <= k < |days| && Usable(days[k]) && days[k].date == date
    {
      DayAvailabilityAfterProcessing(anyStaff, single, staffId, date);
    }

    /** `processMonthlyAvailability`: replaces the month's availability map and nothing else. */
    method ProcessMonthlyAvailability(anyStaff: seq<StaffAvailability>, single: StaffAvailability, staffId: string)
      modifies this
      ensures monthlyAvailability == Some(Availability(anyStaff, single, staffId))
      ensures selectedServices == old(selectedServices) && services == old(services)
      ensures currentStep == old(currentStep) && selectedStaff == old(selectedStaff)
      ensures selectedDate == old(selectedDate) && selectedTime == old(selectedTime)
    {
      var m;
      if staffId == "any" {
        m := MergeDays(DaysOfAll(anyStaff), true);
        m := map date | date in m :: Deduplicated(m[date]);
      } else {
        m := MergeDays(DaysOf(single), false);
      }
      monthlyAvailability := Some(m);
    }
  }

  /** Adding a first service opens step 2. */
  lemma SelectingOpensStepTwo(selected: set<string>, services: seq<ServiceData>, d: ServiceData)
    requires InSync(selected, services) && d.id !in selected
    ensures |Toggle((selected, services), d).0| > 0
  {
  }

  /** The day entries `processMonthlyAvailability` reads: every staff member's for 'any', else the one staff member's. */
  function SourceDays(anyStaff: seq<StaffAvailability>, single: StaffAvailability, staffId: string): seq<DaySlot>
  {
    if staffId == "any" then DaysOfAll(anyStaff) else DaysOf(single)
  }

  /** After processing, a day has availability exactly when some usable entry of the source data names it. */
  lemma DayAvailabilityAfterProcessing(anyStaff: seq<StaffAvailability>, single: StaffAvailability, staffId: string, date: string)
    ensures var m := Availability(anyStaff, single, staffId);
      var days := SourceDays(anyStaff, single, staffId);
      (date in m && |m[date]| > 0) <==> exists k :: 0 <= k < |days| && Usable(days[k]) && days[k].date == date
  {
    var days := SourceDays(anyStaff, single, staffId);
    if staffId == "any" {
      ConcatenatedKeys(days);
      var c := Concatenated(days);
      if date in c {
        DeduplicatedNonEmpty(c[date]);
        ConcatenatedWitness(days, date);
      }
    } else {
      OverwrittenKeys(days);
    }
  }

  lemma DeduplicatedNonEmpty(slots: seq<TimeSlot>)
    requires |slots| > 0
    ensures |Deduplicated(slots)| > 0
  {
    var keys := KeysOf(slots);
    assert keys[0] in keys;
    assert keys[0] in UniqueKeys(keys);
  }

  lemma {:induction false} ConcatenatedWitness(days: seq<DaySlot>, date: string)
    requires date in Concatenated(days)
    ensures exists k :: 0 <= k < |days| && Usable(days[k]) && days[k].date == date
    decreases |days|
  {
    var init := days[..|days| - 1];
    if date in Concatenated(init) {
      ConcatenatedWitness(init, date);
      var k :| 0 <= k < |init| && Usable(init[k]) && init[k].date == date;
      assert days[k] == init[k];
    } else {
      assert Usable(days[|days| - 1]) && days[|days| - 1].date == date;
    }
  }

  /** The single-staff map's dates are exactly the usable entries' dates, each with a non-empty list. */
  lemma {:induction false} OverwrittenKeys(days: seq<DaySlot>)
    ensures forall date :: date in Overwritten(days) ==> |Overwritten(days)[date]| > 0
    ensures forall date :: date in Overwritten(days) <==> exists k :: 0 <= k < |days| && Usable(days[k]) && days[k].date == date
    decreases |days|
  {
    if days != [] {
      var init := days[..|days| - 1];
      OverwrittenKeys(init);
      assert forall k :: 0 <= k < |init| ==> days[k] == init[k];
      forall date | (exists k :: 0 <= k < |days| && Usable(days[k]) && days[k].date == date)
        ensures date in Overwritten(days)
      {
        var k :| 0 <= k < |days| && Usable(days[k]) && days[k].date == date;
        if k < |days| - 1 { assert init[k] == days[k]; }
      }
    }
  }

  // ---------------------------------------------------------------------
  // Slots and time text

  /** `"H:M".split(':').map(Number)` into minutes; `None` when either part is NaN or missing. */
  function ClockMinutes(t: string): (r: Option<int>)
  {
    var parts := Split(t, ':');
    if |parts| < 2 then None
    else match (NumberJs(parts[0]), NumberJs(parts[1]))
      case (Some(h), Some(m)) => Some(h * 60 + m)
      case _ => None
  }

  /** The "HH:MM" label of a minute count (`Math.floor`, JavaScript `%`, `padStart`). */
  function SlotLabel(minutes: int): string
  {
    JsPad2(minutes / 60) + ":" + JsPad2(JsRem(minutes, 60))
  }

  datatype Slot = Slot(time: string, available: bool)

  /** The start minutes from `start` every 30 minutes, strictly before `end`. */
  function HalfHours(start: int, end: int): (r: seq<int>)
    ensures start >= end <==> r == []
    decreases end - start
  {
    if start >= end then [] else [start] + HalfHours(start + 30, end)
  }

  /** A range of d minutes gives ceil(d / 30) slots. */
  lemma {:induction false} HalfHoursLength(start: int, end: int)
    requires start < end
    ensures |HalfHours(start, end)| == (end - start + 29) / 30
    decreases end - start
  {
    if start + 30 < end {
      HalfHoursLength(start + 30, end);
    }
  }

  /** The i-th slot starts 30·i minutes after the range start, and before its end. */
  lemma {:induction false} HalfHoursAt(start: int, end: int, i: nat)
    requires i < |HalfHours(start, end)|
    ensures HalfHours(start, end)[i] == start + 30 * i
    ensures start + 30 * i < end
    decreases end - start
  {
    if i > 0 {
      HalfHoursAt(start + 30, end, i - 1);
    }
  }

  /** Available slots labelled with their start times. */
  function Labelled(starts: seq<int>): (r: seq<Slot>)
    ensures |r| == |starts|
  {
    seq(|starts|, i requires 0 <= i < |starts| => Slot(SlotLabel(starts[i]), true))
  }

  function RangeSlots(range: TimeSlot): seq<Slot>
  {
    if !range.isAvailable then []
    else match (ClockMinutes(range.startTime), ClockMinutes(range.endTime))
      case (Some(s), Some(e)) => Labelled(HalfHours(s, e))
      case _ => []
  }

  /** `convertTimeRangesToSlots`: the available ranges' slots, concatenated in range order. */
  function Slots(ranges: seq<TimeSlot>): seq<Slot>
    decreases |ranges|
  {
    if ranges == [] then [] else Slots(ranges[..|ranges| - 1]) + RangeSlots(ranges[|ranges| - 1])
  }

  lemma SlotsSnoc(ranges: seq<TimeSlot>, i: nat)
    requires i < |ranges|
    ensures Slots(ranges[..i + 1]) == Slots(ranges[..i]) + RangeSlots(ranges[i])
  {
    assert ranges[..i + 1][..i] == ranges[..i];
  }

  /** Unavailable ranges contribute nothing. */
  lemma {:induction false} SlotsSkipUnavailable(ranges: seq<TimeSlot>)
    requires forall k :: 0 <= k < |ranges| ==> !ranges[k].isAvailable
    ensures Slots(ranges) == []
    decreases |ranges|
  {
    if ranges != [] { SlotsSkipUnavailable(ranges[..|ranges| - 1]); }
  }

  /** Within a day, a slot label is the zero-padded "HH:MM" of its minute count. */
  lemma SlotLabelInDay(minutes: int)
    requires 0 <= minutes < 24 * 60
    ensures SlotLabel(minutes) == Pad2(minutes / 60) + ":" + Pad2(minutes % 60)
    ensures |SlotLabel(minutes)| == 5
  {
  }

  /** The inner `while (current < end)` loop of one range. */
  method AppendHalfHours(prefix: seq<Slot>, start: int, end: int) returns (slots: seq<Slot>)
    ensures slots == prefix + Labelled(HalfHours(start, end))
  {
    slots := prefix;
    var current := start;
    ghost var done: seq<int> := [];
    while current < end
      invariant HalfHours(start, end) == done + HalfHours(current, end)
      invariant slots == prefix + Labelled(done)
      decreases end - current
    {
      HalfHoursStep(done, current, end);
      LabelledSnoc(done, current);
      slots := slots + [Slot(SlotLabel(current), true)];
      done := done + [current];
      current := current + 30;
    }
    assert done == HalfHours(start, end);
  }

  lemma HalfHoursStep(done: seq<int>, current: int, end: int)
    requires current < end
    ensures done + HalfHours(current, end) == (done + [current]) + HalfHours(current + 30, end)
  {
    assert HalfHours(current, end) == [current] + HalfHours(current + 30, end);
  }

  lemma LabelledSnoc(done: seq<int>, x: int)
    ensures Labelled(done + [x]) == Labelled(done) + [Slot(SlotLabel(x), true)]
  {
  }

  /** The loops of lines 1057-1076. */
  method ConvertTimeRangesToSlots(ranges: seq<TimeSlot>) returns (slots: seq<Slot>)
    ensures slots == Slots(ranges)
  {
    slots := [];
    var i := 0;
    while i < |ranges|
      invariant 0 <= i <= |ranges|
      invariant slots == Slots(ranges[..i])
    {
      var range := ranges[i];
      SlotsSnoc(ranges, i);
      if range.isAvailable {
        var s, e := ClockMinutes(range.startTime), ClockMinutes(range.endTime);
        if s.Some? && e.Some? {
          assert RangeSlots(range) == Labelled(HalfHours(s.value, e.value));
          slots := AppendHalfHours(slots, s.value, e.value);
        } else {
          assert RangeSlots(range) == [];
        }
      }
      i := i + 1;
    }
    assert ranges[..|ranges|] == ranges;
  }

  /** `formatTime12h`: `parseInt` of the hour (NaN reads as 12 AM), the minute text copied ("undefined" when absent). */
  function FormatTime12h(time24: string): (r: string)
    ensures EndsWith(r, " AM") || EndsWith(r, " PM")
    ensures ParseIntJs(Split(time24, ':')[0]).None? ==> StartsWith(r, "12:") && EndsWith(r, " AM")
  {
    var parts := Split(time24, ':');
    var minutes := if |parts| > 1 then parts[1] else "undefined";
    match ParseIntJs(parts[0])
    case None =>
      ConcatEnds("12:", minutes + " AM");
      ConcatEnds("12:" + minutes, " AM");
      "12:" + minutes + " AM"
    case Some(hour) => Hour12Text(hour, minutes)
  }

  /** The 12-hour text of a parsed hour: JavaScript `hour % 12`, 0 shown as 12, PM from 12 on. */
  function Hour12Text(hour: int, minutes: string): (r: string)
    ensures EndsWith(r, if hour >= 12 then " PM" else " AM")
  {
    var h := JsRem(hour, 12);
    var head := IntToString(if h == 0 then 12 else h) + ":" + minutes;
    var suffix := if hour >= 12 then " PM" else " AM";
    ConcatEnds(head, suffix);
    head + suffix
  }

  /** For "HH:MM" with an hour 0-23: hour % 12 (0 shown as 12), PM exactly from 12 on. */
  lemma FormatTime12hHours(hour: nat, minutes: string)
    requires hour < 24 && ':' !in minutes
    ensures FormatTime12h(Pad2(hour) + ":" + minutes) ==
      NatToString(if hour % 12 == 0 then 12 else hour % 12) + ":" + minutes + " " + (if hour >= 12 then "PM" else "AM")
  {
    ReadsPaddedHour(hour, minutes);
    Hour12TextOfNat(hour, minutes);
  }

  lemma ReadsPaddedHour(hour: nat, minutes: string)
    requires ':' !in minutes
    ensures FormatTime12h(Pad2(hour) + ":" + minutes) == Hour12Text(hour, minutes)
  {
    var hs := Pad2(hour);
    DigitsExclude(hs, ':');
    SplitTwo(hs, minutes, ':');
    var text := hs + ":" + minutes;
    assert text == hs + [':'] + minutes;
    var parts := Split(text, ':');
    assert parts == [hs, minutes] && parts[0] == hs && parts[1] == minutes;
    ParseIntJsPad2(hour);
  }

  lemma Hour12TextOfNat(hour: nat, minutes: string)
    ensures Hour12Text(hour, minutes) ==
      NatToString(if hour % 12 == 0 then 12 else hour % 12) + ":" + minutes + " " + (if hour >= 12 then "PM" else "AM")
  {
    var h := hour % 12;
    assert JsRem(hour, 12) == h;
    var k: nat := if h == 0 then 12 else h;
    assert IntToString(k) == NatToString(k);
  }
}
