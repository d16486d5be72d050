/**
 * The membership plans page of static/js/membership-plans.js: the price and
 * duration texts, the feature list of each plan type, the in-place ordering
 * of the plans by price and the state of each plan card's button. Prices are
 * integer cents. The page's translations are a map from key to text; a key
 * that is absent or empty falls back to the English text.
 */
module MembershipPlans {
  import opened Wrappers
  import opened Strings

  /** A plan as the page reads it. */
  datatype Plan = Plan(id: string, name: string, planType: string, price: int, durationDays: int)

  // ---------------------------------------------------------------- price

  /** `(price / 100).toFixed(2)` for a whole number of cents: dollars, a point, two cent digits. */
  function FormatPrice(cents: int): (r: string)
    ensures |r| >= 4 && r[|r| - 3] == '.'
    ensures cents < 0 <==> r[0] == '-'
  {
    var n: nat := if cents < 0 then -cents else cents;
    var body := NatToString(n / 100) + "." + Pad2(n % 100);
    if cents < 0 then "-" + body else body
  }

  /** The cents a price text stands for: digits, a point and two digits, optionally signed. */
  function PriceCents(s: string): (r: Option<int>)
  {
    var neg := |s| > 0 && s[0] == '-';
    var parts := Split(if neg then s[1..] else s, '.');
    if |parts| == 2 && AllDigits(parts[0]) && parts[0] != "" && AllDigits(parts[1]) && |parts[1]| == 2 then
      var n := DigitsValue(parts[0]) * 100 + DigitsValue(parts[1]);
      Some(if neg then -n else n)
    else None
  }

  /** Every price text reads back as the cents it was made from. */
  lemma PriceRoundTrip(cents: int)
    ensures PriceCents(FormatPrice(cents)) == Some(cents)
  {
    var n: nat := if cents < 0 then -cents else cents;
    var a := NatToString(n / 100);
    var b := Pad2(n % 100);
    var body := a + "." + b;
    PriceBodyReadsBack(n);
    assert IsDigit(body[0]) by { assert body[0] == a[0]; }
    var s := FormatPrice(cents);
    if cents < 0 {
      assert s == "-" + body;
      assert s[0] == '-' && s[1..] == body;
    } else {
      assert s == body;
    }
  }

  /** The unsigned price text splits at its point into the dollar and cent digits, which give back the cents. */
  lemma PriceBodyReadsBack(n: nat)
    ensures var a := NatToString(n / 100); var b := Pad2(n % 100);
      Split(a + "." + b, '.') == [a, b] && a != "" && AllDigits(a) && AllDigits(b) && |b| == 2 &&
      DigitsValue(a) * 100 + DigitsValue(b) == n
  {
    var a := NatToString(n / 100);
    var b := Pad2(n % 100);
    DigitsExclude(a, '.');
    DigitsExclude(b, '.');
    SplitTwo(a, b, '.');
    assert a + "." + b == a + ['.'] + b;
  }

  // ---------------------------------------------------------------- duration

  /** `formatDuration`: month, year and week for their day counts, else the count of days. */
  function FormatDuration(days: int, t: map<string, string>): (r: string)
    ensures days == 30 || days == 31 ==> r == Tr(t, "month", "month")
    ensures days == 365 || days == 366 ==> r == Tr(t, "year", "year")
    ensures days == 7 ==> r == Tr(t, "week", "week")
    ensures days !in {7, 30, 31, 365, 366} ==> r == IntToString(days) + " " + Tr(t, "days", "days")
  {
    if days == 30 || days == 31 then Tr(t, "month", "month")
    else if days == 365 || days == 366 then Tr(t, "year", "year")
    else if days == 7 then Tr(t, "week", "week")
    else IntToString(days) + " " + Tr(t, "days", "days")
  }

  lemma {:induction false} DigitPrefixStops(d: string, rest: string)
    requires AllDigits(d) && rest != [] && !IsDigit(rest[0])
    ensures DigitPrefix(d + rest) == d
    decreases |d|
  {
    if d != [] {
      DigitPrefixStops(d[1..], rest);
      assert (d + rest)[1..] == d[1..] + rest;
      assert [d[0]] + d[1..] == d;
    }
  }

  /** `parseInt` reads an integer's rendering back when a non-digit follows it. */
  lemma ParseIntJsIntThen(i: int, rest: string)
    requires rest != [] && !IsDigit(rest[0])
    ensures ParseIntJs(IntToString(i) + rest) == Some(i)
  {
    if i >= 0 {
      ParseNatThen(i, rest);
    } else {
      ParseNegativeThen(i, rest);
    }
  }

  lemma ParseNatThen(n: nat, rest: string)
    requires rest != [] && !IsDigit(rest[0])
    ensures ParseIntJs(IntToString(n) + rest) == Some(n)
  {
    var d := NatToString(n);
    assert IntToString(n) == d;
    ParseDigitsThen(d, rest);
  }

  lemma ParseNegativeThen(i: int, rest: string)
    requires i < 0 && rest != [] && !IsDigit(rest[0])
    ensures ParseIntJs(IntToString(i) + rest) == Some(i)
  {
    var d := NatToString(-i);
    assert IntToString(i) == "-" + d;
    ParseNegativeDigitsThen(d, rest);
  }

  /** `parseInt` of digits followed by a non-digit reads the digits. */
  lemma ParseDigitsThen(d: string, rest: string)
    requires d != "" && AllDigits(d) && rest != [] && !IsDigit(rest[0])
    ensures ParseIntJs(d + rest) == Some(DigitsValue(d))
  {
    DigitPrefixStops(d, rest);
    assert (d + rest)[0] == d[0];
    ParseIntJsLeadingDigits(d + rest, d);
  }

  /** `parseInt` of a minus, digits and a non-digit reads the negated digits. */
  lemma ParseNegativeDigitsThen(d: string, rest: string)
    requires d != "" && AllDigits(d) && rest != [] && !IsDigit(rest[0])
    ensures ParseIntJs("-" + d + rest) == Some(-(DigitsValue(d) as int))
  {
    assert "-" + d + rest == ['-'] + (d + rest);
    DigitPrefixStops(d, rest);
    assert (d + rest)[0] == d[0];
    ParseIntJsNegativeLeadingDigits(d + rest, d);
  }

  /** Any other duration text starts with its day count, which `parseInt` reads back. */
  lemma DurationDaysReadBack(days: int, t: map<string, string>)
    requires days !in {7, 30, 31, 365, 366}
    ensures ParseIntJs(FormatDuration(days, t)) == Some(days)
  {
    var rest := " " + Tr(t, "days", "days");
    DaysText(days, t);
    ParseIntJsIntThen(days, rest);
  }

  lemma DaysText(days: int, t: map<string, string>)
    requires days !in {7, 30, 31, 365, 366}
    ensures var rest := " " + Tr(t, "days", "days");
      FormatDuration(days, t) == IntToString(days) + rest && rest != [] && !IsDigit(rest[0])
  {
    var rest := " " + Tr(t, "days", "days");
    assert rest[0] == ' ';
  }

  // ---------------------------------------------------------------- features

  function CommonFeatures(t: map<string, string>): seq<string>
  {
    [Tr(t, "accessToBookingSystem", "Access to booking system"), Tr(t, "customerManagement", "Customer management"),
     Tr(t, "basicAnalytics", "Basic analytics")]
  }

  function PremiumFeatures(t: map<string, string>): seq<string>
  {
    [Tr(t, "advancedAnalytics", "Advanced analytics"), Tr(t, "prioritySupport", "Priority support"),
     Tr(t, "customBranding", "Custom branding")]
  }

  function VipFeatures(t: map<string, string>): seq<string>
  {
    [Tr(t, "unlimitedBookings", "Unlimited bookings"), Tr(t, "dedicatedSupport", "Dedicated support"),
     Tr(t, "apiAccess", "API access"), Tr(t, "whiteLabelSolution", "White-label solution")]
  }

  /** `generateFeatures`: the common features, plus the premium ones, plus the VIP ones, by the lower-cased type. */
  function Features(planType: string, t: map<string, string>): (r: seq<string>)
    ensures ToLower(planType) == "premium" ==> |r| == 6
    ensures ToLower(planType) == "vip" ==> |r| == 10
    ensures ToLower(planType) != "premium" && ToLower(planType) != "vip" ==> |r| == 3
    ensures r[..3] == CommonFeatures(t)
  {
    var kind := ToLower(planType);
    if kind == "premium" then CommonFeatures(t) + PremiumFeatures(t)
    else if kind == "vip" then CommonFeatures(t) + PremiumFeatures(t) + VipFeatures(t)
    else CommonFeatures(t)
  }

  /** Each tier's features begin with the features of the tier below it. */
  lemma FeaturesNested(other: string, t: map<string, string>)
    requires ToLower(other) != "premium" && ToLower(other) != "vip"
    ensures Features(other, t) == Features("premium", t)[..3]
    ensures Features("premium", t) == Features("vip", t)[..6]
  {
    assert ToLower("premium") == "premium";
    assert ToLower("vip") == "vip";
  }

  // ---------------------------------------------------------------- ordering

  /** Ascending by price. */
  predicate SortedByPrice(s: seq<Plan>)
  {
    forall i, j :: 0 <= i < j < |s| ==> s[i].price <= s[j].price
  }

  /** `p` placed before the first plan that costs at least as much. */
  function Insert(p: Plan, s: seq<Plan>): (r: seq<Plan>)
    ensures |r| == |s| + 1
    ensures multiset(r) == multiset(s) + multiset{p}
  {
    if s == [] then [p]
    else if p.price <= s[0].price then [p] + s
    else
      assert s == [s[0]] + s[1..];
      [s[0]] + Insert(p, s[1..])
  }

  lemma {:induction false} InsertSorted(p: Plan, s: seq<Plan>)
    requires SortedByPrice(s)
    ensures SortedByPrice(Insert(p, s))
  {
    if s != [] && p.price > s[0].price {
      InsertSorted(p, s[1..]);
      var rest := Insert(p, s[1..]);
      forall j | 0 <= j < |rest|
        ensures s[0].price <= rest[j].price
      {
        assert rest[j] in multiset(rest);
        if rest[j] != p {
          assert rest[j] in multiset(s[1..]);
          var k :| 0 <= k < |s[1..]| && s[1..][k] == rest[j];
          assert s[k + 1] == rest[j];
        }
      }
    }
  }

  /** The order `plans.sort((a, b) => a.price - b.price)` leaves: a stable sort by price. */
  function SortByPrice(s: seq<Plan>): (r: seq<Plan>)
    ensures |r| == |s|
    ensures multiset(r) == multiset(s)
    ensures SortedByPrice(r)
  {
    if s == [] then []
    else
      assert s == [s[0]] + s[1..];
      var rest := SortByPrice(s[1..]);
      InsertSorted(s[0], rest);
      Insert(s[0], rest)
  }

  /** The plans of one price, in order. */
  function AtPrice(s: seq<Plan>, price: int): (r: seq<Plan>)
  {
    if s == [] then [] else (if s[0].price == price then [s[0]] else []) + AtPrice(s[1..], price)
  }

  lemma {:induction false} AtPriceInsert(p: Plan, s: seq<Plan>, price: int)
    ensures AtPrice(Insert(p, s), price) == if p.price == price then [p] + AtPrice(s, price) else AtPrice(s, price)
  {
    if s != [] {
      if p.price <= s[0].price {
        assert ([p] + s)[1..] == s;
      } else {
        AtPriceInsert(p, s[1..], price);
        assert ([s[0]] + Insert(p, s[1..]))[1..] == Insert(p, s[1..]);
      }
    }
  }

  /** The sort is stable: plans of the same price keep their relative order. */
  lemma {:induction false} SortStable(s: seq<Plan>, price: int)
    ensures AtPrice(SortByPrice(s), price) == AtPrice(s, price)
  {
    if s != [] {
      SortStable(s[1..], price);
      var rest := SortByPrice(s[1..]);
      assert SortByPrice(s) == Insert(s[0], rest);
      AtPriceInsert(s[0], rest, price);
      assert AtPrice(s, price) == (if s[0].price == price then [s[0]] else []) + AtPrice(s[1..], price);
    }
  }

  // ---------------------------------------------------------------- cards

  /** What `createPlanCard` decides for a plan. */
  datatype Card = Card(plan: Plan, featured: bool, active: bool, buttonText: string, buttonClass: string, disabled: bool)

  function CardFor(plan: Plan, featured: bool, active: bool, t: map<string, string>): (r: Card)
    ensures r.plan == plan && r.featured == featured && r.active == active
    ensures active ==> r.buttonText == Tr(t, "currentPlan", "Current Plan") && r.disabled && r.buttonClass == "secondary"
    ensures !active ==> r.buttonText == Tr(t, "choosePlan", "Choose Plan") && !r.disabled
    ensures r.buttonClass == "primary" <==> featured && !active
  {
    Card(plan, featured, active,
         if active then Tr(t, "currentPlan", "Current Plan") else Tr(t, "choosePlan", "Choose Plan"),
         if active then "secondary" else if featured then "primary" else "secondary",
         active)
  }

  /**
   * `renderPlans`: the plans are sorted by price in the caller's array, the
   * second card is featured, and a card is active exactly when its plan's id
   * is the active membership's plan id.
   */
  method RenderPlans(plans: array<Plan>, activePlanId: Option<string>, t: map<string, string>) returns (cards: seq<Card>)
    modifies plans
    ensures plans[..] == SortByPrice(old(plans[..]))
    ensures |cards| == plans.Length
    ensures forall i :: 0 <= i < |cards| ==> cards[i] == CardFor(plans[i], i == 1, activePlanId == Some(plans[i].id), t)
  {
    SortInPlace(plans);
    cards := BuildCards(plans[..], activePlanId, t);
  }

  /** `plans.sort(...)`: the array holds its stable sort by price. */
  method SortInPlace(plans: array<Plan>)
    modifies plans
    ensures plans[..] == SortByPrice(old(plans[..]))
  {
    var sorted := SortByPrice(plans[..]);
    forall i | 0 <= i < plans.Length {
      plans[i] := sorted[i];
    }
    assert plans[..] == sorted;
  }

  /** The `forEach` over the sorted plans. */
  method BuildCards(sorted: seq<Plan>, activePlanId: Option<string>, t: map<string, string>) returns (cards: seq<Card>)
    ensures |cards| == |sorted|
    ensures forall i :: 0 <= i < |cards| ==> cards[i] == CardFor(sorted[i], i == 1, activePlanId == Some(sorted[i].id), t)
  {
    cards := [];
    var i := 0;
    while i < |sorted|
      invariant 0 <= i <= |sorted|
      invariant |cards| == i
      invariant forall k :: 0 <= k < i ==> cards[k] == CardFor(sorted[k], k == 1, activePlanId == Some(sorted[k].id), t)
    {
      cards := cards + [CardFor(sorted[i], i == 1, activePlanId == Some(sorted[i].id), t)];
      i := i + 1;
    }
  }

  /** With distinct plan ids at most one card is active, and none when there is no active plan. */
  lemma AtMostOneActive(cards: seq<Card>, activePlanId: Option<string>, t: map<string, string>)
    requires forall i :: 0 <= i < |cards| ==> cards[i].active == (activePlanId == Some(cards[i].plan.id))
    requires forall i, j :: 0 <= i < j < |cards| ==> cards[i].plan.id != cards[j].plan.id
    ensures forall i, j :: 0 <= i < j < |cards| ==> !(cards[i].active && cards[j].active)
    ensures activePlanId.None? ==> forall i :: 0 <= i < |cards| ==> !cards[i].active
  {
  }
}
