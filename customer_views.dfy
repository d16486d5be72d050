/**
 * Helpers of the customer booking views (customers/views.py): the API URL
 * builder, professional-name lookup, selected-service details, 12-hour
 * time text, and the selected-service id list kept in the session.
 *
 * The services and professionals fetches are inputs here; a failed fetch
 * is the empty list the source falls back to.
 */
module CustomerViews {
  import opened Wrappers
  import opened Strings

  const DefaultApiBase := "https://api.salona.me/api"

  /** The characters `rstrip('/api')` removes: it takes a character set, not a suffix. */
  const ApiChars: set<char> := {'/', 'a', 'p', 'i'}

  /** `get_api_url` as written: `base.rstrip('/api').rstrip('/')` + "/api/v1/" + the endpoint without leading slashes. */
  function ApiUrlAsWritten(base: string, endpoint: string): (url: string)
    ensures EndsWith(url, "/api/v1/" + LStripChar(endpoint, '/'))
    ensures StartsWith(base, url[..|url| - |"/api/v1/" + LStripChar(endpoint, '/')|])
  {
    var host := RStripChars(RStripChars(base, ApiChars), {'/'});
    var tail := "/api/v1/" + LStripChar(endpoint, '/');
    ConcatEnds(host, tail);
    host + tail
  }

  /** With a base whose host ends in one of 'a', 'p', 'i', the character-set strip eats into the host name. */
  lemma ApiUrlAsWrittenOverStrips()
    ensures ApiUrlAsWritten("https://salona.app/api", "services") == "https://salona." + "/api/v1/services"
  {
    AppHostOverStripped();
    var svc := "services";
    assert svc[0] != '/';
    assert LStripChar(svc, '/') == svc;
    assert ApiUrlAsWritten("https://salona.app/api", svc) == "https://salona." + ("/api/v1/" + svc);
    assert "/api/v1/" + svc == "/api/v1/services";
  }

  /** Both strips of "https://salona.app/api" stop at the '.' before "app". */
  lemma AppHostOverStripped()
    ensures RStripChars(RStripChars("https://salona.app/api", ApiChars), {'/'}) == "https://salona."
  {
    var host := "https://salona.";
    var tail := "app/api";
    assert host + tail == "https://salona.app/api";
    assert host[|host| - 1] == '.';
    RStripCharsTail(host, tail, ApiChars);
    RStripCharsTail(host, "", {'/'});
    assert host + "" == host;
  }

  /** The base with one trailing "/api" removed, if it has one. */
  function WithoutApiSuffix(base: string): (r: string)
    ensures EndsWith(base, "/api") ==> r + "/api" == base
    ensures !EndsWith(base, "/api") ==> r == base
  {
    if EndsWith(base, "/api") then base[..|base| - 4] else base
  }

  /** `get_api_url` as its comment intends: a trailing "/api" suffix is removed, then trailing slashes. */
  function ApiUrl(base: string, endpoint: string): (url: string)
    ensures EndsWith(url, "/api/v1/" + LStripChar(endpoint, '/'))
    ensures StartsWith(base, url[..|url| - |"/api/v1/" + LStripChar(endpoint, '/')|])
  {
    var host := RStripChars(WithoutApiSuffix(base), {'/'});
    var tail := "/api/v1/" + LStripChar(endpoint, '/');
    ConcatEnds(host, tail);
    host + tail
  }

  /** The corrected builder keeps the whole host: "https://salona.app/api" gives "https://salona.app/api/v1/…". */
  lemma ApiUrlKeepsHost(host: string, endpoint: string)
    requires host != [] && host[|host| - 1] != '/'
    ensures ApiUrl(host + "/api", endpoint) == host + ("/api/v1/" + LStripChar(endpoint, '/'))
  {
    var base := host + "/api";
    assert base[|base| - 4..] == "/api";
    assert base[..|base| - 4] == host;
    RStripCharsTail(host, "", {'/'});
    assert host + "" == host;
  }

  /** Both builders agree on the default base. */
  lemma DefaultBaseAgrees(endpoint: string)
    ensures ApiUrlAsWritten(DefaultApiBase, endpoint) == ApiUrl(DefaultApiBase, endpoint)
    ensures ApiUrl(DefaultApiBase, endpoint) == "https://api.salona.me" + ("/api/v1/" + LStripChar(endpoint, '/'))
  {
    var host := "https://api.salona.me";
    assert DefaultApiBase == host + "/api";
    assert host[|host| - 1] == 'e';
    RStripCharsTail(host, "/api", ApiChars);
    RStripCharsTail(host, "", {'/'});
    assert host + "" == host;
    assert RStripChars(RStripChars(DefaultApiBase, ApiChars), {'/'}) == host;
    assert WithoutApiSuffix(DefaultApiBase) == host;
    ApiUrlKeepsHost(host, endpoint);
  }

  // ---------------------------------------------------------------------
  // Professionals

  /** A professional's `user`; `None` is a missing or empty user object, absent names are "". */
  datatype User = User(id: Option<string>, firstName: string, lastName: string)

  datatype Professional = Professional(user: Option<User>)

  predicate Matches(p: Professional, professionalId: string)
  {
    p.user.Some? && p.user.value.id == Some(professionalId)
  }

  function DisplayName(u: User): string
  {
    var name := Trim(u.firstName + " " + u.lastName);
    if name == "" then "Professional" else name
  }

  /** `get_professional_name` over the fetched list: "Any Professional" for 'any', else the first match's name. */
  function ProfessionalName(professionals: seq<Professional>, professionalId: string): (name: string)
    ensures professionalId == "any" ==> name == "Any Professional"
    ensures professionalId != "any" && (forall k :: 0 <= k < |professionals| ==> !Matches(professionals[k], professionalId))
      ==> name == "Professional"
    ensures professionalId != "any" ==> name != ""
    decreases |professionals|
  {
    if professionalId == "any" then "Any Professional"
    else if professionals == [] then "Professional"
    else if Matches(professionals[0], professionalId) then DisplayName(professionals[0].user.value)
    else ProfessionalName(professionals[1..], professionalId)
  }

  /** The name comes from the first matching entry; later matches are never consulted. */
  lemma {:induction false} ProfessionalNameFirstMatch(professionals: seq<Professional>, professionalId: string, k: nat)
    requires professionalId != "any" && k < |professionals| && Matches(professionals[k], professionalId)
    requires forall j :: 0 <= j < k ==> !Matches(professionals[j], professionalId)
    ensures ProfessionalName(professionals, professionalId) == DisplayName(professionals[k].user.value)
    decreases k
  {
    if k > 0 {
      ProfessionalNameFirstMatch(professionals[1..], professionalId, k - 1);
    }
  }

  /** The search loop of lines 78-84. */
  method GetProfessionalName(professionals: seq<Professional>, professionalId: string) returns (name: string)
    ensures name == ProfessionalName(professionals, professionalId)
  {
    if professionalId == "any" {
      return "Any Professional";
    }
    var i := 0;
    while i < |professionals|
      invariant 0 <= i <= |professionals|
      invariant ProfessionalName(professionals[i..], professionalId) == ProfessionalName(professionals, professionalId)
    {
      if Matches(professionals[i], professionalId) {
        return DisplayName(professionals[i].user.value);
      }
      assert professionals[i..][1..] == professionals[i + 1..];
      i := i + 1;
    }
    return "Professional";
  }

  // ---------------------------------------------------------------------
  // Selected services

  /** A catalogue service; absent or zero prices are `None`/0 alike (`or` treats both as falsy). */
  datatype Service = Service(id: string, name: string, price: Option<int>, discountPrice: Option<int>, duration: Option<int>)

  datatype Category = Category(services: seq<Service>)

  /** One entry of the selected services list. */
  datatype Detail = Detail(id: string, name: string, price: int, duration: int)

  /** `discount_price or price or 0`. */
  function EffectivePrice(s: Service): (p: int)
    ensures s.discountPrice.Some? && s.discountPrice.value != 0 ==> p == s.discountPrice.value
    ensures (s.discountPrice.None? || s.discountPrice.value == 0) ==> p == s.price.GetOr(0)
  {
    if s.discountPrice.Some? && s.discountPrice.value != 0 then s.discountPrice.value
    else if s.price.Some? then s.price.value
    else 0
  }

  function DetailOf(s: Service): Detail
  {
    Detail(s.id, s.name, EffectivePrice(s), s.duration.GetOr(60))
  }

  /** The selected entries of one category, in order. */
  function PickIn(svcs: seq<Service>, ids: seq<string>): seq<Detail>
    decreases |svcs|
  {
    if svcs == [] then []
    else PickIn(svcs[..|svcs| - 1], ids) + (if svcs[|svcs| - 1].id in ids then [DetailOf(svcs[|svcs| - 1])] else [])
  }

  /** The selected entries of the catalogue, category by category. */
  function Picked(cats: seq<Category>, ids: seq<string>): seq<Detail>
    decreases |cats|
  {
    if cats == [] then [] else Picked(cats[..|cats| - 1], ids) + PickIn(cats[|cats| - 1].services, ids)
  }

  function SumPrices(ds: seq<Detail>): int
    decreases |ds|
  {
    if ds == [] then 0 else SumPrices(ds[..|ds| - 1]) + ds[|ds| - 1].price
  }

  lemma {:induction false} PickInMembers(svcs: seq<Service>, ids: seq<string>)
    ensures forall d :: d in PickIn(svcs, ids) <==> exists s :: s in svcs && s.id in ids && d == DetailOf(s)
    decreases |svcs|
  {
    if svcs != [] {
      PickInMembers(svcs[..|svcs| - 1], ids);
      assert svcs == svcs[..|svcs| - 1] + [svcs[|svcs| - 1]];
    }
  }

  /**
   * An entry is returned exactly when the catalogue holds a service with
   * that id among the selected ids; the price and duration defaults apply.
   */
  lemma {:induction false} PickedMembers(cats: seq<Category>, ids: seq<string>)
    ensures forall d :: d in Picked(cats, ids) <==>
      exists c, s :: c in cats && s in c.services && s.id in ids && d == DetailOf(s)
    decreases |cats|
  {
    if cats != [] {
      var init := cats[..|cats| - 1];
      PickedMembers(init, ids);
      PickInMembers(cats[|cats| - 1].services, ids);
      assert cats == init + [cats[|cats| - 1]];
    }
  }

  /** Selecting nothing returns nothing, with a total of 0. */
  lemma {:induction false} PickedNone(cats: seq<Category>)
    ensures Picked(cats, []) == []
    decreases |cats|
  {
    if cats != [] {
      PickedNone(cats[..|cats| - 1]);
      PickInNone(cats[|cats| - 1].services);
    }
  }

  lemma {:induction false} PickInNone(svcs: seq<Service>)
    ensures PickIn(svcs, []) == []
    decreases |svcs|
  {
    if svcs != [] { PickInNone(svcs[..|svcs| - 1]); }
  }

  lemma SumPricesAppend(ds: seq<Detail>, d: Detail)
    ensures SumPrices(ds + [d]) == SumPrices(ds) + d.price
  {
    assert (ds + [d])[..|ds|] == ds;
  }

  /** The inner loop of lines 95-104 over one category's services. */
  method AddCategory(acc: seq<Detail>, total: int, svcs: seq<Service>, ids: seq<string>) returns (acc': seq<Detail>, total': int)
    requires total == SumPrices(acc)
    ensures acc' == acc + PickIn(svcs, ids)
    ensures total' == SumPrices(acc')
  {
    acc', total' := acc, total;
    var j := 0;
    while j < |svcs|
      invariant 0 <= j <= |svcs|
      invariant acc' == acc + PickIn(svcs[..j], ids)
      invariant total' == SumPrices(acc')
    {
      assert svcs[..j + 1][..j] == svcs[..j];
      if svcs[j].id in ids {
        SumPricesAppend(acc', DetailOf(svcs[j]));
        acc' := acc' + [DetailOf(svcs[j])];
        total' := total' + EffectivePrice(svcs[j]);
      }
      j := j + 1;
    }
    assert svcs[..|svcs|] == svcs;
  }

  /** `get_services_details`: the loops of lines 94-104, returning the entries and their price total. */
  method GetServicesDetails(cats: seq<Category>, ids: seq<string>) returns (services: seq<Detail>, total: int)
    ensures services == Picked(cats, ids)
    ensures total == SumPrices(services)
  {
    services, total := [], 0;
    var i := 0;
    while i < |cats|
      invariant 0 <= i <= |cats|
      invariant services == Picked(cats[..i], ids)
      invariant total == SumPrices(services)
    {
      services, total := AddCategory(services, total, cats[i].services, ids);
      assert cats[..i + 1][..i] == cats[..i];
      i := i + 1;
    }
    assert cats[..|cats|] == cats;
  }

  // ---------------------------------------------------------------------
  // Time text and session ids

  /** The 12-hour text for an hour already read: `hour % 12`, with 0 shown as 12, and AM below 12. */
  function Clock12(hour: int, minute: string): string
  {
    var h := hour % 12;
    NatToString(if h == 0 then 12 else h) + ":" + minute + " " + (if hour < 12 then "AM" else "PM")
  }

  /**
   * `format_time_12h`: the hour before the first ':' read by Python `int`
   * (`None` is the `ValueError`), the minute text copied, "00" when absent.
   */
  function FormatTime12h(time24: string): (r: Option<string>)
    ensures ParseIntPy(Split(time24, ':')[0]).None? <==> r.None?
  {
    var parts := Split(time24, ':');
    match ParseIntPy(parts[0])
    case None => None
    case Some(hour) => Some(Clock12(hour, if |parts| > 1 then parts[1] else "00"))
  }

  /** The four cases for a valid hour: 0 → 12 AM, 1-11 AM, 12 → 12 PM, 13-23 → hour−12 PM. */
  lemma Clock12Cases(hour: nat, minute: string)
    requires hour < 24
    ensures hour == 0 ==> Clock12(hour, minute) == "12:" + minute + " AM"
    ensures 1 <= hour < 12 ==> Clock12(hour, minute) == NatToString(hour) + ":" + minute + " AM"
    ensures hour == 12 ==> Clock12(hour, minute) == "12:" + minute + " PM"
    ensures 13 <= hour ==> Clock12(hour, minute) == NatToString(hour - 12) + ":" + minute + " PM"
  {
    TwelveText();
    if hour < 12 {
      assert hour % 12 == hour;
    } else {
      assert hour % 12 == hour - 12;
    }
  }

  lemma TwelveText()
    ensures NatToString(12) == "12"
  {
    assert NatToString(1) == "1" && NatToString(2) == "2";
  }

  lemma SplitAtColon(hs: string, minute: string)
    requires AllDigits(hs) && ':' !in minute
    ensures Split(hs + ":" + minute, ':') == [hs, minute]
  {
    assert ':' !in hs by { assert forall k :: 0 <= k < |hs| ==> IsDigit(hs[k]); }
    SplitJoin([hs, minute], ':');
    assert Join([hs, minute], ':') == hs + ":" + minute;
  }

  /** "H:MM" text for an hour 0-23 reads as `Clock12` of that hour and the minute text. */
  lemma FormatTime12hHours(hour: nat, minute: string)
    requires ':' !in minute
    ensures FormatTime12h(NatToString(hour) + ":" + minute) == Some(Clock12(hour, minute))
  {
    SplitAtColon(NatToString(hour), minute);
    ParseIntPyNat(hour);
  }

  /** Without a ':' the minute text is "00". */
  lemma FormatTime12hNoMinute(hour: nat)
    ensures FormatTime12h(NatToString(hour)) == Some(Clock12(hour, "00"))
  {
    var hs := NatToString(hour);
    assert ':' !in hs by { assert forall k :: 0 <= k < |hs| ==> IsDigit(hs[k]); }
    SplitJoin([hs], ':');
    assert Join([hs], ':') == hs;
    var parts := Split(hs, ':');
    assert parts == [hs];
    ParseIntPyNat(hour);
    assert ParseIntPy(parts[0]) == Some(hour);
  }

  /** The session's `selected_services` string split on ',' with empty pieces dropped (lines 152-153, 184-185). */
  function SelectedServiceIds(session: string): (ids: seq<string>)
    ensures forall k :: 0 <= k < |ids| ==> ids[k] != "" && ',' !in ids[k]
    ensures forall x :: x in Split(session, ',') && x != "" ==> x in ids
  {
    NonEmpty(Split(session, ','))
  }

  /** A list of non-empty, comma-free ids survives the session round trip. */
  lemma SelectedServiceIdsRoundTrip(ids: seq<string>)
    requires |ids| >= 1
    requires forall k :: 0 <= k < |ids| ==> ids[k] != "" && ',' !in ids[k]
    ensures SelectedServiceIds(Join(ids, ',')) == ids
  {
    SplitJoin(ids, ',');
    NonEmptyAll(ids);
  }

  lemma {:induction false} NonEmptyAll(parts: seq<string>)
    requires forall k :: 0 <= k < |parts| ==> parts[k] != ""
    ensures NonEmpty(parts) == parts
    decreases |parts|
  {
    if parts != [] {
      NonEmptyAll(parts[1..]);
      assert [parts[0]] + parts[1..] == parts;
    }
  }
}
