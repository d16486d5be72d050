/**
 * The services page manager of static/js/service-manager.js: the flattening
 * of the categorised services reply, the per-category selection and count,
 * the discount rule, the assigned-staff extraction, the selected-services
 * totals with the booking end time they drive, and the save payload.
 * Prices arrive as numbers (`parseFloat` results, `None` for `NaN`); dates
 * are day numbers and times minutes, with the browser's offset from UTC a
 * parameter.
 */
module ServiceManager {
  import opened Wrappers
  import opened Strings

  /** A service row; the category fields are the ones the flattening stamps on it. */
  datatype Service = Service(id: string, name: string, price: Option<real>, discountPrice: Option<real>,
                             categoryId: Option<string>, categoryName: Option<string>)

  /** A category of the reply; `services` is `None` when it is not an array. */
  datatype Category = Category(id: string, name: string, description: string, services: Option<seq<Service>>)

  /** The category record kept for the categories table. */
  datatype CategoryInfo = CategoryInfo(id: string, name: string, description: string)

  /** The services of one category, each stamped with the category's id and name. */
  function Tagged(c: Category): (r: seq<Service>)
    ensures c.services.None? ==> r == []
    ensures c.services.Some? ==> (|r| == |c.services.value| &&
      forall i :: 0 <= i < |r| ==> r[i] == c.services.value[i].(categoryId := Some(c.id), categoryName := Some(c.name)))
  {
    if c.services.None? then []
    else seq(|c.services.value|, i requires 0 <= i < |c.services.value| =>
           c.services.value[i].(categoryId := Some(c.id), categoryName := Some(c.name)))
  }

  /** The `dataSrc` flattening: the tagged services of each category, category by category. */
  function Flatten(cats: seq<Category>): seq<Service>
  {
    if cats == [] then [] else Flatten(cats[..|cats| - 1]) + Tagged(cats[|cats| - 1])
  }

  /** `getServicesByCategory` and the categories-table count: the services whose category id matches, in order. */
  function ByCategory(services: seq<Service>, categoryId: string): (r: seq<Service>)
    ensures |r| <= |services|
    ensures forall s :: s in r <==> s in services && s.categoryId == Some(categoryId)
  {
    if services == [] then []
    else (if services[0].categoryId == Some(categoryId) then [services[0]] else []) + ByCategory(services[1..], categoryId)
  }

  lemma {:induction false} ByCategoryAppend(a: seq<Service>, b: seq<Service>, categoryId: string)
    ensures ByCategory(a + b, categoryId) == ByCategory(a, categoryId) + ByCategory(b, categoryId)
    decreases |a|
  {
    if a == [] {
      assert a + b == b;
    } else {
      assert (a + b)[1..] == a[1..] + b;
      ByCategoryAppend(a[1..], b, categoryId);
    }
  }

  /** All services of a category carry its id, and services of another category carry none of them. */
  lemma {:induction false} ByCategoryTagged(c: Category, categoryId: string)
    ensures ByCategory(Tagged(c), categoryId) == if c.id == categoryId then Tagged(c) else []
    decreases if c.services.Some? then |c.services.value| else 0
  {
    if c.services.Some? && c.services.value != [] {
      var rest := c.(services := Some(c.services.value[1..]));
      ByCategoryTagged(rest, categoryId);
      assert Tagged(c)[1..] == Tagged(rest);
    }
  }

  predicate DistinctIds(cats: seq<Category>)
  {
    forall i, j :: 0 <= i < j < |cats| ==> cats[i].id != cats[j].id
  }

  /**
   * With distinct category ids, selecting a category's services after the
   * flattening gives back exactly the services that category was loaded with.
   */
  lemma {:induction false} ByCategoryOfFlatten(cats: seq<Category>, k: nat)
    requires DistinctIds(cats) && k < |cats|
    ensures ByCategory(Flatten(cats), cats[k].id) == Tagged(cats[k])
    decreases |cats|
  {
    var n := |cats| - 1;
    var init := cats[..n];
    ByCategoryAppend(Flatten(init), Tagged(cats[n]), cats[k].id);
    ByCategoryTagged(cats[n], cats[k].id);
    if k == n {
      NoneOfFlatten(init, cats[k].id);
    } else {
      ByCategoryOfFlatten(init, k);
    }
  }

  /** No flattened service carries an id none of the categories has. */
  lemma {:induction false} NoneOfFlatten(cats: seq<Category>, categoryId: string)
    requires forall i :: 0 <= i < |cats| ==> cats[i].id != categoryId
    ensures ByCategory(Flatten(cats), categoryId) == []
    decreases |cats|
  {
    if cats != [] {
      var n := |cats| - 1;
      NoneOfFlatten(cats[..n], categoryId);
      ByCategoryAppend(Flatten(cats[..n]), Tagged(cats[n]), categoryId);
      ByCategoryTagged(cats[n], categoryId);
    }
  }

  /** The price column: the discounted price is shown only when it is positive and below the price. */
  predicate HasDiscount(s: Service)
  {
    s.discountPrice.Some? && s.discountPrice.value > 0.0 && s.price.Some? && s.discountPrice.value < s.price.value
  }

  /** The amounts the price column shows: the original and the discounted price, or the price alone. */
  function ShownPrices(s: Service): (r: seq<Option<real>>)
    ensures |r| == 2 <==> HasDiscount(s)
    ensures |r| == 2 ==> (r[0].Some? && r[1].Some? && r[1].value < r[0].value && r[1].value > 0.0)
    ensures |r| == 1 ==> r[0] == s.price
  {
    if HasDiscount(s) then [s.price, s.discountPrice] else [s.price]
  }

  /** An entry of `service_staff`: `user.id` and `user_id`, "" when absent. */
  datatype StaffEntry = StaffEntry(nestedUserId: string, userId: string)

  function EntryId(e: StaffEntry): string
  {
    if e.nestedUserId != "" then e.nestedUserId else e.userId
  }

  /** The ids extracted from `service_staff`, with the empty ones dropped. */
  function EntryIds(entries: seq<StaffEntry>): (r: seq<string>)
    ensures |r| <= |entries|
    ensures forall x :: x in r ==> x != ""
    ensures forall i :: 0 <= i < |entries| && EntryId(entries[i]) != "" ==> EntryId(entries[i]) in r
    ensures forall x :: x in r ==> exists i :: 0 <= i < |entries| && EntryId(entries[i]) == x
  {
    if entries == [] then []
    else
      var rest := EntryIds(entries[1..]);
      assert forall i :: 1 <= i < |entries| ==> entries[i] == entries[1..][i - 1];
      (if EntryId(entries[0]) != "" then [EntryId(entries[0])] else []) + rest
  }

  /** The staff ticked when a service is edited: from `service_staff` when it is an array, else `staff_ids`, else none. */
  function AssignedStaff(serviceStaff: Option<seq<StaffEntry>>, staffIds: Option<seq<string>>): (r: seq<string>)
    ensures serviceStaff.Some? ==> r == EntryIds(serviceStaff.value)
    ensures serviceStaff.None? && staffIds.Some? ==> r == staffIds.value
    ensures serviceStaff.None? && staffIds.None? ==> r == []
  {
    if serviceStaff.Some? then EntryIds(serviceStaff.value)
    else if staffIds.Some? then staffIds.value
    else []
  }

  /** A ticked service on the booking form: its `data-duration` text and its parsed price. */
  datatype Checked = Checked(duration: string, price: Option<real>)

  /** `parseInt(duration) || 0`. */
  function DurationOf(c: Checked): int
  {
    var d := ParseIntJs(c.duration);
    if d.Some? then d.value else 0
  }

  /** `parseFloat(price) || 0`. */
  function PriceOf(c: Checked): real
  {
    if c.price.Some? then c.price.value else 0.0
  }

  function TotalDuration(cs: seq<Checked>): int
  {
    if cs == [] then 0 else TotalDuration(cs[..|cs| - 1]) + DurationOf(cs[|cs| - 1])
  }

  function TotalPrice(cs: seq<Checked>): real
  {
    if cs == [] then 0.0 else TotalPrice(cs[..|cs| - 1]) + PriceOf(cs[|cs| - 1])
  }

  /** The totals do not depend on how the ticked services are split. */
  lemma {:induction false} TotalsAppend(a: seq<Checked>, b: seq<Checked>)
    ensures TotalDuration(a + b) == TotalDuration(a) + TotalDuration(b)
    ensures TotalPrice(a + b) == TotalPrice(a) + TotalPrice(b)
    decreases |b|
  {
    if b != [] {
      assert (a + b)[..|a + b| - 1] == a + b[..|b| - 1];
      TotalsAppend(a, b[..|b| - 1]);
    } else {
      assert a + b == a;
    }
  }

  /** Services whose durations are digit strings add up to their durations' sum, never below 0. */
  lemma {:induction false} TotalDurationDigits(cs: seq<Checked>)
    requires forall i :: 0 <= i < |cs| ==> cs[i].duration != "" && AllDigits(cs[i].duration)
    ensures TotalDuration(cs) >= 0
    ensures forall i :: 0 <= i < |cs| ==> DurationOf(cs[i]) == DigitsValue(cs[i].duration)
  {
    forall i | 0 <= i < |cs| ensures DurationOf(cs[i]) == DigitsValue(cs[i].duration) {
      ParseIntJsDigits(cs[i].duration);
    }
    if cs != [] {
      TotalDurationDigits(cs[..|cs| - 1]);
    }
  }

  /**
   * `updateSelectedServicesSummary`: the totals of the ticked services, 0
   * with none ticked; the returned duration is what `updateEndTime` gets.
   */
  method SummaryTotals(cs: seq<Checked>) returns (totalDuration: int, totalPrice: real)
    ensures totalDuration == TotalDuration(cs) && totalPrice == TotalPrice(cs)
    ensures cs == [] ==> totalDuration == 0 && totalPrice == 0.0
  {
    if |cs| == 0 {
      return 0, 0.0;
    }
    totalDuration, totalPrice := 0, 0.0;
    var i := 0;
    while i < |cs|
      invariant 0 <= i <= |cs|
      invariant totalDuration == TotalDuration(cs[..i]) && totalPrice == TotalPrice(cs[..i])
    {
      assert cs[..i + 1][..i] == cs[..i];
      totalDuration := totalDuration + DurationOf(cs[i]);
      totalPrice := totalPrice + PriceOf(cs[i]);
      i := i + 1;
    }
    assert cs[..|cs|] == cs;
  }

  const MinutesPerDay := 1440

  /** A time of day. */
  datatype Clock = Clock(hour: int, minute: int)

  function ClockOf(minutes: int): (r: Clock)
    ensures 0 <= r.hour < 24 && 0 <= r.minute < 60
  {
    var m := minutes % MinutesPerDay;
    Clock(m / 60, m % 60)
  }

  /**
   * The start fields of the booking form: `None` for a missing element;
   * `startDay` is the day number of the date input (`None` when empty) and
   * `startTime` the minutes of the time input (`None` when empty).
   */
  datatype EndTimeInputs = EndTimeInputs(startDay: Option<int>, startTime: Option<int>)

  /**
   * `updateEndTime` as written: the end time is read in local time but the
   * end date is the UTC date of the end instant (`toISOString`), with the
   * local time `utcOffset` minutes ahead of UTC. `None` means nothing changes.
   */
  function EndAsWritten(inputs: Option<EndTimeInputs>, duration: int, utcOffset: int): (r: Option<(int, Clock)>)
    ensures r.Some? <==> inputs.Some? && inputs.value.startDay.Some? && inputs.value.startTime.Some?
  {
    if inputs.None? || inputs.value.startDay.None? || inputs.value.startTime.None? then None
    else
      var local := inputs.value.startDay.value * MinutesPerDay + inputs.value.startTime.value + duration;
      Some(((local - utcOffset) / MinutesPerDay, ClockOf(local)))
  }

  /** Half an hour after 01:00 local time on day 0 in UTC+4, the end date written is the previous day. */
  lemma EndAsWrittenWrongDay()
    ensures EndAsWritten(Some(EndTimeInputs(Some(0), Some(60))), 30, 240) == Some((-1, Clock(1, 30)))
    ensures End(Some(EndTimeInputs(Some(0), Some(60))), 30) == Some((0, Clock(1, 30)))
  {
  }

  /** `updateEndTime` with the end date read in local time, like the end time. */
  function End(inputs: Option<EndTimeInputs>, duration: int): (r: Option<(int, Clock)>)
    ensures r.Some? <==> inputs.Some? && inputs.value.startDay.Some? && inputs.value.startTime.Some?
    ensures r.Some? ==> (r.value.0 * MinutesPerDay + r.value.1.hour * 60 + r.value.1.minute ==
      inputs.value.startDay.value * MinutesPerDay + inputs.value.startTime.value + duration)
  {
    if inputs.None? || inputs.value.startDay.None? || inputs.value.startTime.None? then None
    else
      var local := inputs.value.startDay.value * MinutesPerDay + inputs.value.startTime.value + duration;
      Some((local / MinutesPerDay, ClockOf(local)))
  }

  /** In UTC the two agree; elsewhere they differ at most in the date. */
  lemma EndAgreesInUtc(inputs: Option<EndTimeInputs>, duration: int, utcOffset: int)
    ensures EndAsWritten(inputs, duration, 0) == End(inputs, duration)
    ensures EndAsWritten(inputs, duration, utcOffset).Some? ==>
      EndAsWritten(inputs, duration, utcOffset).value.1 == End(inputs, duration).value.1
  {
  }

  /** The service object the save form builds. */
  datatype ServiceIn = ServiceIn(name: string, duration: Option<int>, price: Option<real>, discountPrice: Option<real>,
                                 additionalInfo: string, status: string, bufferBefore: int, bufferAfter: int,
                                 categoryId: string, staffIds: seq<string>)

  /** The request body: the object itself, or a multipart form with the object as JSON and the image. */
  datatype Body = Json(obj: ServiceIn) | Multipart(serviceIn: ServiceIn, image: string)

  /** The save form's fields; `discountText` is `None` when the input is missing, `image` when no file is chosen. */
  datatype ServiceForm = ServiceForm(name: string, description: string, categoryId: string, durationText: string,
                                     price: Option<real>, discountText: Option<string>, staffIds: seq<string>,
                                     image: Option<string>)

  /** `saveService`'s body; `parseFloat` is a parameter. */
  function SaveBody(f: ServiceForm, parseFloat: string -> Option<real>): (r: Body)
    ensures r.Multipart? <==> f.image.Some?
    ensures r.Multipart? ==> r.image == f.image.value
    ensures var obj := if r.Json? then r.obj else r.serviceIn;
      obj.name == f.name && obj.duration == ParseIntJs(f.durationText) && obj.price == f.price &&
      obj.additionalInfo == f.description && obj.status == "active" && obj.bufferBefore == 0 && obj.bufferAfter == 0 &&
      obj.categoryId == f.categoryId && obj.staffIds == f.staffIds &&
      (f.discountText.None? || f.discountText == Some("") ==> obj.discountPrice == Some(0.0)) &&
      (f.discountText.Some? && f.discountText.value != "" ==> obj.discountPrice == parseFloat(f.discountText.value))
  {
    var discount := if f.discountText.Some? && f.discountText.value != "" then parseFloat(f.discountText.value) else Some(0.0);
    var obj := ServiceIn(f.name, ParseIntJs(f.durationText), f.price, discount, f.description, "active", 0, 0,
                         f.categoryId, f.staffIds);
    if f.image.Some? then Multipart(obj, f.image.value) else Json(obj)
  }

  /** The request `saveService` sends: an update of the given id or a create. */
  datatype SaveRequest = Update(serviceId: string, body: Body) | Create(body: Body)

  /** The inner `forEach`: each service of the category pushed in turn, stamped with the category. */
  method PushTagged(prefix: seq<Service>, c: Category) returns (r: seq<Service>)
    ensures r == prefix + Tagged(c)
  {
    r := prefix;
    if c.services.None? {
      return;
    }
    var list := c.services.value;
    var j := 0;
    while j < |list|
      invariant 0 <= j <= |list|
      invariant r == prefix + Tagged(c)[..j]
    {
      var tagged := list[j].(categoryId := Some(c.id), categoryName := Some(c.name));
      assert Tagged(c)[..j + 1] == Tagged(c)[..j] + [tagged];
      r := r + [tagged];
      j := j + 1;
    }
    assert Tagged(c)[..j] == Tagged(c);
  }

  /** The `ServiceManager` object's service state. */
  class Manager {
    var services: seq<Service>
    var categories: seq<CategoryInfo>
    /** `window.serviceTranslations || {}`, fixed when the page loads. */
    const translations: map<string, string>

    constructor (translations: map<string, string>)
      ensures services == [] && categories == [] && this.translations == translations
    {
      services := [];
      categories := [];
      this.translations := translations;
    }

    /** The `dataSrc` callback: without data nothing is kept and no row is drawn. */
    method LoadServices(data: Option<seq<Category>>) returns (rows: seq<Service>)
      modifies this
      ensures data.Some? ==> (services == Flatten(data.value) && rows == services &&
        |categories| == |data.value| &&
        forall i :: 0 <= i < |data.value| ==>
          categories[i] == CategoryInfo(data.value[i].id, data.value[i].name, data.value[i].description))
      ensures data.None? ==> rows == [] && services == old(services) && categories == old(categories)
    {
      if data.None? {
        return [];
      }
      var cats := data.value;
      var infos := seq(|cats|, i requires 0 <= i < |cats| => CategoryInfo(cats[i].id, cats[i].name, cats[i].description));
      categories := infos;
      services := [];
      var i := 0;
      while i < |cats|
        invariant 0 <= i <= |cats|
        invariant categories == infos
        invariant services == Flatten(cats[..i])
      {
        assert cats[..i + 1][..i] == cats[..i];
        services := PushTagged(services, cats[i]);
        i := i + 1;
      }
      assert cats[..|cats|] == cats;
      rows := services;
    }

    /**
     * `saveService`: the request for the form; on success the page's
     * translation of the success message (else the English text), the
     * local list emptied and then refilled by the services table's reload
     * with `reload`, the data its reply carries; on failure the error
     * message and nothing changed.
     */
    method SaveService(serviceId: string, f: ServiceForm, parseFloat: string -> Option<real>, ok: bool,
                       reload: Option<seq<Category>>)
      returns (request: SaveRequest, message: string)
      modifies this
      ensures request == (if serviceId != "" then Update(serviceId, SaveBody(f, parseFloat)) else Create(SaveBody(f, parseFloat)))
      ensures ok && serviceId != "" ==> message == Tr(translations, "serviceUpdated", "Service updated successfully")
      ensures ok && serviceId == "" ==> message == Tr(translations, "serviceCreated", "Service created successfully")
      ensures ok && reload.Some? ==> services == Flatten(reload.value) && |categories| == |reload.value|
      ensures ok && reload.None? ==> services == [] && categories == old(categories)
      ensures !ok ==> services == old(services) && categories == old(categories) && message == "Failed to save service"
    {
      var body := SaveBody(f, parseFloat);
      request := if serviceId != "" then Update(serviceId, body) else Create(body);
      if !ok {
        return request, "Failed to save service";
      }
      message := if serviceId != "" then Tr(translations, "serviceUpdated", "Service updated successfully")
        else Tr(translations, "serviceCreated", "Service created successfully");
      services := [];
      var _ := LoadServices(reload);
    }
  }
}
