/**
 * The landing page script static/js/home.js: the required-field check of
 * its forms and the Konami-code easter egg. Key presses arrive one at a
 * time as key codes; the egg's five-second timer and its close button are
 * the `RemoveEgg` call.
 */
module Home {
  import opened Strings

  // ---------------------------------------------------------------- form validation

  const InvalidBorder := "#ef4444"
  const ValidBorder := "#d1d5db"

  /**
   * The submit handler: every required input or textarea gets a red border
   * when it is blank after trimming and the neutral one otherwise; the
   * submit is prevented exactly when one of them is blank.
   */
  method ValidateRequired(values: seq<string>, borders: array<string>) returns (prevented: bool)
    requires borders.Length == |values|
    modifies borders
    ensures prevented <==> exists i :: 0 <= i < |values| && IsBlank(values[i])
    ensures forall i :: 0 <= i < borders.Length ==> borders[i] == (if IsBlank(values[i]) then InvalidBorder else ValidBorder)
  {
    var isValid := true;
    for i := 0 to |values|
      invariant isValid <==> forall k :: 0 <= k < i ==> !IsBlank(values[k])
      invariant forall k :: 0 <= k < i ==> borders[k] == (if IsBlank(values[k]) then InvalidBorder else ValidBorder)
    {
      if Trim(values[i]) == "" {
        isValid := false;
        borders[i] := InvalidBorder;
      } else {
        borders[i] := ValidBorder;
      }
    }
    prevented := !isValid;
  }

  // ---------------------------------------------------------------- Konami code

  /** Up, Up, Down, Down, Left, Right, Left, Right, B, A. */
  const KonamiSequence: seq<int> := [38, 38, 40, 40, 37, 39, 37, 39, 66, 65]

  /** `codes.join(',')`. */
  function JoinCodes(codes: seq<int>): string
  {
    Join(seq(|codes|, k requires 0 <= k < |codes| => IntToString(codes[k])), ',')
  }

  lemma CodeHasNoComma(code: int)
    ensures ',' !in IntToString(code)
  {
    var d := NatToString(if code < 0 then -code else code);
    DigitsExclude(d, ',');
    if code < 0 {
      assert IntToString(code) == ['-'] + d;
    }
  }

  /** Only the empty buffer joins to the empty string. */
  lemma JoinCodesEmpty(a: seq<int>)
    ensures JoinCodes(a) == "" <==> a == []
  {
    if a != [] {
      var pa := seq(|a|, k requires 0 <= k < |a| => IntToString(a[k]));
      JoinHead(pa, ',');
      assert |JoinCodes(a)| >= |pa[0]| >= 1;
    }
  }

  /** Comparing the joined strings is comparing the key codes: the join loses nothing. */
  lemma JoinCodesInjective(a: seq<int>, b: seq<int>)
    ensures JoinCodes(a) == JoinCodes(b) <==> a == b
  {
    if JoinCodes(a) == JoinCodes(b) {
      JoinCodesEmpty(a);
      JoinCodesEmpty(b);
      if a != [] && b != [] {
        var pa := seq(|a|, k requires 0 <= k < |a| => IntToString(a[k]));
        var pb := seq(|b|, k requires 0 <= k < |b| => IntToString(b[k]));
        forall k | 0 <= k < |pa| ensures ',' !in pa[k] { CodeHasNoComma(a[k]); }
        forall k | 0 <= k < |pb| ensures ',' !in pb[k] { CodeHasNoComma(b[k]); }
        SplitJoin(pa, ',');
        SplitJoin(pb, ',');
        assert pa == pb;
        forall k | 0 <= k < |a| ensures a[k] == b[k] {
          ParseIntJsInt(a[k]);
          ParseIntJsInt(b[k]);
          assert pa[k] == pb[k];
        }
      }
    }
  }

  /** The buffer after one key: the code pushed, and the oldest dropped once there are more than ten. */
  function Pushed(buffer: seq<int>, code: int): seq<int>
  {
    var b := buffer + [code];
    if |b| > |KonamiSequence| then b[1..] else b
  }

  /** The last ten codes of `s`, or all of them when there are fewer. */
  function LastTen(s: seq<int>): (r: seq<int>)
    ensures |r| <= 10
  {
    if |s| > 10 then s[|s| - 10..] else s
  }

  /** The buffer after a run of keys. */
  function PushedAll(buffer: seq<int>, codes: seq<int>): seq<int>
    decreases |codes|
  {
    if codes == [] then buffer else PushedAll(Pushed(buffer, codes[0]), codes[1..])
  }

  /** From a buffer of at most ten codes, the buffer is always the last ten keys seen. */
  lemma {:induction false} PushedAllIsLastTen(buffer: seq<int>, codes: seq<int>)
    requires |buffer| <= 10
    ensures PushedAll(buffer, codes) == LastTen(buffer + codes)
    decreases |codes|
  {
    if codes == [] {
      assert buffer + codes == buffer;
    } else {
      var b := Pushed(buffer, codes[0]);
      PushedIsLastTen(buffer, codes[0]);
      PushedAllIsLastTen(b, codes[1..]);
      LastTenAbsorbs(buffer + [codes[0]], codes[1..]);
      assert buffer + [codes[0]] + codes[1..] == buffer + codes;
    }
  }

  /** One key keeps the buffer the last ten codes. */
  lemma PushedIsLastTen(buffer: seq<int>, code: int)
    requires |buffer| <= 10
    ensures Pushed(buffer, code) == LastTen(buffer + [code])
  {
    assert |KonamiSequence| == 10;
  }

  /** Taking the last ten before appending more changes nothing about the last ten after. */
  lemma LastTenAbsorbs(u: seq<int>, t: seq<int>)
    ensures LastTen(LastTen(u) + t) == LastTen(u + t)
  {
    if |u| > 10 {
      var w := u + t;
      var v := u[|u| - 10..] + t;
      assert v == w[|u| - 10..];
      if |t| > 0 {
        assert v[|v| - 10..] == w[|w| - 10..];
      }
    }
  }

  /** Typing the ten codes of the sequence fires the egg, whatever came before. */
  lemma TypingTheSequenceFires(buffer: seq<int>)
    requires |buffer| <= 10
    ensures PushedAll(buffer, KonamiSequence) == KonamiSequence
  {
    PushedAllIsLastTen(buffer, KonamiSequence);
    var s := buffer + KonamiSequence;
    assert s[|s| - 10..] == KonamiSequence;
  }

  /** The key buffer and whether the egg is on the page. */
  class KonamiListener {
    var buffer: seq<int>
    var eggShown: bool

    /** The buffer never holds more codes than the sequence has. */
    predicate Valid()
      reads this
    {
      |buffer| <= |KonamiSequence|
    }

    constructor ()
      ensures buffer == [] && !eggShown && Valid()
    {
      buffer := [];
      eggShown := false;
    }

    /** The `keydown` handler: push, shift past ten, and show the egg when the joined codes match. */
    method KeyDown(code: int) returns (fired: bool)
      requires Valid()
      modifies this
      ensures Valid()
      ensures buffer == Pushed(old(buffer), code) && buffer == LastTen(old(buffer) + [code])
      ensures fired <==> buffer == KonamiSequence
      ensures fired ==> eggShown
      ensures !fired ==> eggShown == old(eggShown)
    {
      buffer := buffer + [code];
      if |buffer| > |KonamiSequence| {
        buffer := buffer[1..];
      }
      JoinCodesInjective(buffer, KonamiSequence);
      fired := JoinCodes(buffer) == JoinCodes(KonamiSequence);
      if fired {
        var _ := ShowEasterEgg();
      }
    }

    /** `showEasterEgg`: nothing when one is already on the page. */
    method ShowEasterEgg() returns (created: bool)
      modifies this
      ensures created <==> !old(eggShown)
      ensures eggShown && buffer == old(buffer)
    {
      if eggShown {
        return false;
      }
      eggShown := true;
      created := true;
    }

    /** The egg's timer or its close button removes it. */
    method RemoveEgg()
      modifies this
      ensures !eggShown && buffer == old(buffer)
    {
      eggShown := false;
    }
  }
}
