/**
 * Text helpers shared by the models: prefix/suffix/substring tests, ASCII case
 * mapping, whitespace trimming, splitting and joining on one separator
 * character, and decimal rendering and parsing of integers with the
 * JavaScript (`parseInt`, `Number`) and Python (`int`) parsing rules.
 */
module Strings {
  import opened Wrappers

  predicate StartsWith(s: string, p: string) { |p| <= |s| && s[..|p|] == p }

  predicate EndsWith(s: string, p: string) { |p| <= |s| && s[|s| - |p|..] == p }

  /** A concatenation starts with its first part and ends with its second. */
  lemma ConcatEnds(a: string, b: string)
    ensures StartsWith(a + b, a) && EndsWith(a + b, b) && (a + b)[..|a|] == a
  {
    assert (a + b)[|a|..] == b;
  }

  /** Substring test, the `in` of Python and `includes` of JavaScript on strings. */
  predicate Contains(s: string, p: string)
    decreases |s|
  {
    StartsWith(s, p) || (|s| > 0 && Contains(s[1..], p))
  }

  /** No text contains a longer one. */
  lemma {:induction false} NotContainsLonger(s: string, p: string)
    requires |p| > |s|
    ensures !Contains(s, p)
    decreases |s|
  {
    if |s| > 0 { NotContainsLonger(s[1..], p); }
  }

  lemma {:induction false} ContainsAt(s: string, p: string, i: nat)
    requires i + |p| <= |s| && s[i..i + |p|] == p
    ensures Contains(s, p)
    decreases i
  {
    if i > 0 {
      assert s[1..][i - 1..i - 1 + |p|] == s[i..i + |p|];
      ContainsAt(s[1..], p, i - 1);
    }
  }

  function LowerChar(c: char): char
  {
    if 'A' <= c <= 'Z' then (c as int + 32) as char else c
  }

  function UpperChar(c: char): char
  {
    if 'a' <= c <= 'z' then (c as int - 32) as char else c
  }

  /** ASCII lower-casing (`str.lower()`, `toLowerCase()`). */
  function ToLower(s: string): (r: string)
    ensures |r| == |s|
  {
    seq(|s|, i requires 0 <= i < |s| => LowerChar(s[i]))
  }

  /** ASCII upper-casing (`toUpperCase()`). */
  function ToUpper(s: string): (r: string)
    ensures |r| == |s|
  {
    seq(|s|, i requires 0 <= i < |s| => UpperChar(s[i]))
  }

  predicate IsSpace(c: char)
  {
    c == ' ' || c == '\t' || c == '\n' || c == '\r' || c as int == 11 || c as int == 12
  }

  function TrimStart(s: string): (r: string)
    ensures |r| <= |s|
    ensures r == s[|s| - |r|..]
    ensures r == [] || !IsSpace(r[0])
    decreases |s|
  {
    if |s| > 0 && IsSpace(s[0]) then TrimStart(s[1..]) else s
  }

  function TrimEnd(s: string): (r: string)
    ensures |r| <= |s|
    ensures r == s[..|r|]
    ensures r == [] || !IsSpace(r[|r| - 1])
    decreases |s|
  {
    if |s| > 0 && IsSpace(s[|s| - 1]) then TrimEnd(s[..|s| - 1]) else s
  }

  /** Whitespace stripped at both ends (`str.strip()`, `trim()`). */
  function Trim(s: string): (r: string)
    ensures |r| <= |s|
    ensures r == [] || (!IsSpace(r[0]) && !IsSpace(r[|r| - 1]))
  {
    TrimEnd(TrimStart(s))
  }

  /** A blank string is one whose trimmed form is empty. */
  predicate IsBlank(s: string) { Trim(s) == "" }

  lemma {:induction false} TrimStartEmpty(s: string)
    ensures TrimStart(s) == [] <==> forall i :: 0 <= i < |s| ==> IsSpace(s[i])
    decreases |s|
  {
    if |s| > 0 {
      TrimStartEmpty(s[1..]);
      if IsSpace(s[0]) {
        assert forall i :: 0 <= i < |s| - 1 ==> s[1..][i] == s[i + 1];
        assert (forall i :: 0 <= i < |s| ==> IsSpace(s[i])) <==> (forall i :: 0 <= i < |s| - 1 ==> IsSpace(s[1..][i]));
      }
    }
  }

  /** A string is blank exactly when every character in it is whitespace. */
  lemma BlankIffAllSpace(s: string)
    ensures IsBlank(s) <==> forall i :: 0 <= i < |s| ==> IsSpace(s[i])
  {
    TrimStartEmpty(s);
    var t := TrimStart(s);
    if t != [] {
      assert !IsSpace(t[0]);
      assert TrimEnd(t) != [] by {
        if TrimEnd(t) == [] { TrimEndNonSpace(t); }
      }
    }
  }

  lemma TrimEndNonSpace(t: string)
    requires t != [] && !IsSpace(t[0])
    ensures TrimEnd(t) != []
    decreases |t|
  {
    if |t| > 1 && IsSpace(t[|t| - 1]) {
      TrimEndNonSpace(t[..|t| - 1]);
    }
  }

  /** `s.split(sep)` in Python and JavaScript: the pieces between separators, at least one. */
  function Split(s: string, sep: char): (r: seq<string>)
    ensures |r| >= 1
    ensures forall k :: 0 <= k < |r| ==> sep !in r[k]
    decreases |s|
  {
    if |s| == 0 then [""]
    else
      var rest := Split(s[1..], sep);
      if s[0] == sep then [""] + rest
      else [[s[0]] + rest[0]] + rest[1..]
  }

  /** `sep.join(parts)` / `parts.join(sep)`. */
  function Join(parts: seq<string>, sep: char): string
    decreases |parts|
  {
    if |parts| == 0 then ""
    else if |parts| == 1 then parts[0]
    else parts[0] + [sep] + Join(parts[1..], sep)
  }

  /** Joining the pieces of a split gives back the original text. */
  lemma {:induction false} JoinSplit(s: string, sep: char)
    ensures Join(Split(s, sep), sep) == s
    decreases |s|
  {
    if |s| > 0 {
      var rest := Split(s[1..], sep);
      JoinSplit(s[1..], sep);
      if s[0] == sep {
        assert Split(s, sep) == [""] + rest;
        assert ([""] + rest)[1..] == rest;
      } else {
        var r := Split(s, sep);
        assert r == [[s[0]] + rest[0]] + rest[1..];
        if |rest| == 1 {
          assert r == [[s[0]] + rest[0]];
        } else {
          assert r[1..] == rest[1..];
          assert Join(rest, sep) == rest[0] + [sep] + Join(rest[1..], sep);
        }
      }
    }
  }

  /** Splitting a join of separator-free pieces gives back the pieces. */
  lemma SplitJoin(parts: seq<string>, sep: char)
    requires |parts| >= 1
    requires forall k :: 0 <= k < |parts| ==> sep !in parts[k]
    ensures Split(Join(parts, sep), sep) == parts
  {
    SplitJoinFree(parts, sep);
  }

  /** No piece holds the separator. */
  predicate SepFree(parts: seq<string>, sep: char)
  {
    forall k :: 0 <= k < |parts| ==> sep !in parts[k]
  }

  lemma {:induction false} SplitJoinFree(parts: seq<string>, sep: char)
    requires |parts| >= 1 && SepFree(parts, sep)
    ensures Split(Join(parts, sep), sep) == parts
    decreases |parts|, |parts[0]|
  {
    var p := parts[0];
    if |p| > 0 {
      var parts' := [p[1..]] + parts[1..];
      HeadDropped(parts, sep);
      SplitJoinFree(parts', sep);
      JoinOfLongHead(parts, sep);
      SplitOther(p[0], Join(parts', sep), sep);
      assert [p[0]] + p[1..] == p;
      assert parts'[1..] == parts[1..];
      assert parts == [p] + parts[1..];
    } else if |parts| > 1 {
      TailFree(parts, sep);
      SplitJoinFree(parts[1..], sep);
      JoinHead(parts, sep);
      SplitSeparator(Join(parts[1..], sep), sep);
      assert parts == [""] + parts[1..];
    }
  }

  /** Dropping the first character of the first piece keeps every piece free of the separator. */
  lemma HeadDropped(parts: seq<string>, sep: char)
    requires |parts| >= 1 && |parts[0]| > 0 && SepFree(parts, sep)
    ensures var parts' := [parts[0][1..]] + parts[1..]; |parts'| == |parts| && SepFree(parts', sep)
  {
    var p := parts[0];
    assert forall c :: c in p[1..] ==> c in p;
  }

  lemma TailFree(parts: seq<string>, sep: char)
    requires |parts| >= 1 && SepFree(parts, sep)
    ensures SepFree(parts[1..], sep)
  {
  }

  /** A join whose first piece is not empty starts with that piece's first character. */
  lemma JoinOfLongHead(parts: seq<string>, sep: char)
    requires |parts| >= 1 && |parts[0]| > 0
    ensures Join(parts, sep) == [parts[0][0]] + Join([parts[0][1..]] + parts[1..], sep)
  {
    var p := parts[0];
    var parts' := [p[1..]] + parts[1..];
    JoinHead(parts, sep);
    JoinHead(parts', sep);
    assert parts'[1..] == parts[1..];
    assert p == [p[0]] + p[1..];
  }

  /** Splitting text that starts with another character extends the first piece. */
  lemma SplitOther(c: char, t: string, sep: char)
    requires c != sep
    ensures Split([c] + t, sep) == [[c] + Split(t, sep)[0]] + Split(t, sep)[1..]
  {
    assert ([c] + t)[1..] == t;
  }

  /** Splitting text that starts with the separator begins with an empty piece. */
  lemma SplitSeparator(t: string, sep: char)
    ensures Split([sep] + t, sep) == [""] + Split(t, sep)
  {
    assert ([sep] + t)[1..] == t;
  }

  lemma JoinHead(parts: seq<string>, sep: char)
    requires |parts| >= 1
    ensures Join(parts, sep) == parts[0] + (if |parts| == 1 then "" else [sep] + Join(parts[1..], sep))
  {
  }

  /** The pieces of `Split` that are not empty, in order (`filter(Boolean)` / a comprehension with `if x`). */
  function NonEmpty(parts: seq<string>): (r: seq<string>)
    ensures |r| <= |parts|
    ensures forall k :: 0 <= k < |r| ==> r[k] != "" && r[k] in parts
    ensures forall x :: x in parts && x != "" ==> x in r
    decreases |parts|
  {
    if |parts| == 0 then []
    else if parts[0] == "" then NonEmpty(parts[1..])
    else [parts[0]] + NonEmpty(parts[1..])
  }

  predicate IsDigit(c: char) { '0' <= c <= '9' }

  predicate AllDigits(s: string) { forall i :: 0 <= i < |s| ==> IsDigit(s[i]) }

  function DigitChar(d: nat): (c: char)
    requires d < 10
    ensures IsDigit(c)
  {
    ('0' as int + d) as char
  }

  /** The value of a decimal digit string. */
  function DigitsValue(s: string): nat
    requires AllDigits(s)
    decreases |s|
  {
    if |s| == 0 then 0
    else DigitsValue(s[..|s| - 1]) * 10 + (s[|s| - 1] as int - '0' as int)
  }

  /** Decimal rendering of a natural number, with no leading zero. */
  function NatToString(n: nat): (r: string)
    ensures |r| >= 1 && AllDigits(r)
    ensures DigitsValue(r) == n
    ensures |r| == 1 <==> n < 10
    ensures n < 100 ==> |r| <= 2
    ensures |r| > 1 ==> r[0] != '0'
    decreases n
  {
    if n < 10 then [DigitChar(n)]
    else
      var r := NatToString(n / 10) + [DigitChar(n % 10)];
      assert r[..|r| - 1] == NatToString(n / 10);
      r
  }

  function IntToString(i: int): (r: string)
    ensures |r| >= 1
  {
    if i < 0 then "-" + NatToString(-i) else NatToString(i)
  }

  /** `String(n).padStart(2, '0')` and `f"{n:02d}"`: at least two digits. */
  function Pad2(n: nat): (r: string)
    ensures |r| >= 2 && AllDigits(r)
    ensures DigitsValue(r) == n
    ensures n < 100 ==> |r| == 2
  {
    var s := NatToString(n);
    if |s| < 2 then
      var r := "0" + s;
      assert r[..|r| - 1] == "0";
      r
    else s
  }

  /** The longest run of digits at the start of `s`. */
  function DigitPrefix(s: string): (r: string)
    ensures AllDigits(r) && StartsWith(s, r)
    ensures |r| < |s| ==> !IsDigit(s[|r|])
    decreases |s|
  {
    if |s| > 0 && IsDigit(s[0]) then [s[0]] + DigitPrefix(s[1..]) else ""
  }

  /**
   * JavaScript `parseInt(s, 10)`: leading whitespace, an optional sign, then
   * the longest digit prefix; `None` is `NaN` (no digit after the sign).
   */
  function ParseIntJs(s: string): (r: Option<int>)
    ensures r.None? <==> DigitPrefix(SignStripped(TrimStart(s))) == ""
  {
    var t := TrimStart(s);
    var d := DigitPrefix(SignStripped(t));
    if d == "" then None
    else Some(if |t| > 0 && t[0] == '-' then -(DigitsValue(d) as int) else DigitsValue(d))
  }

  function SignStripped(t: string): string
  {
    if |t| > 0 && (t[0] == '-' || t[0] == '+') then t[1..] else t
  }

  /** `parseInt` reads back any decimal rendering of a natural number. */
  lemma ParseIntJsNat(n: nat)
    ensures ParseIntJs(NatToString(n)) == Some(n)
  {
    ParseIntJsDigits(NatToString(n));
  }

  /** `parseInt` reads back a two-digit padded number. */
  lemma ParseIntJsPad2(n: nat)
    ensures ParseIntJs(Pad2(n)) == Some(n)
  {
    ParseIntJsDigits(Pad2(n));
  }

  lemma {:induction false} DigitPrefixAll(s: string)
    requires AllDigits(s)
    ensures DigitPrefix(s) == s
    decreases |s|
  {
    if |s| > 0 {
      DigitPrefixAll(s[1..]);
      assert [s[0]] + s[1..] == s;
    }
  }

  /**
   * JavaScript `Number(s)` restricted to integers: blank text is 0, an
   * optionally signed run of digits is its value, anything else is `NaN`
   * (`None`).
   */
  function NumberJs(s: string): (r: Option<int>)
    ensures IsBlank(s) ==> r == Some(0)
  {
    var t := Trim(s);
    var u := SignStripped(t);
    if t == "" then Some(0)
    else if u != "" && AllDigits(u) then Some(if t[0] == '-' then -(DigitsValue(u) as int) else DigitsValue(u))
    else None
  }

  /**
   * Python `int(s)`: surrounding whitespace, an optional sign, and at least
   * one digit; `None` stands for the `ValueError` raised otherwise.
   */
  function ParseIntPy(s: string): (r: Option<int>)
    ensures r.Some? <==> SignStripped(Trim(s)) != "" && AllDigits(SignStripped(Trim(s)))
  {
    var t := Trim(s);
    var u := SignStripped(t);
    if u != "" && AllDigits(u) then Some(if t[0] == '-' then -(DigitsValue(u) as int) else DigitsValue(u))
    else None
  }

  /** `parseInt` reads a non-empty digit string (leading zeros allowed) as its decimal value. */
  lemma ParseIntJsDigits(s: string)
    requires s != "" && AllDigits(s)
    ensures ParseIntJs(s) == Some(DigitsValue(s))
  {
    assert TrimStart(s) == s by { assert IsDigit(s[0]); }
    assert SignStripped(s) == s by { assert IsDigit(s[0]); }
    DigitPrefixAll(s);
  }

  /** JavaScript `a % b` for a positive divisor: truncated, so the sign follows the dividend. */
  function JsRem(a: int, b: int): (r: int)
    requires b > 0
    ensures a >= 0 ==> r == a % b
    ensures -b < r < b
  {
    if a >= 0 then a % b else -((-a) % b)
  }

  /** `String(n).padStart(2, '0')` for any integer. */
  function JsPad2(n: int): (r: string)
    ensures n >= 0 ==> r == Pad2(n)
  {
    var s := IntToString(n);
    if |s| < 2 then "0" + s else s
  }

  /** A digit string has nothing to trim. */
  lemma TrimDigits(s: string)
    requires AllDigits(s)
    ensures Trim(s) == s
  {
    assert TrimStart(s) == s;
    assert TrimEnd(s) == s;
  }

  /** Python `int` reads a non-empty digit string as its decimal value. */
  lemma ParseIntPyDigits(s: string)
    requires s != "" && AllDigits(s)
    ensures ParseIntPy(s) == Some(DigitsValue(s))
  {
    TrimDigits(s);
    assert !(s[0] == '-' || s[0] == '+') by { assert IsDigit(s[0]); }
    assert SignStripped(Trim(s)) == s;
  }

  /** Python `int` reads back any decimal rendering of a natural number. */
  lemma ParseIntPyNat(n: nat)
    ensures ParseIntPy(NatToString(n)) == Some(n)
  {
    ParseIntPyDigits(NatToString(n));
  }

  /** Python `s.rstrip(chars)`: drops trailing characters that belong to the set `chars`. */
  function RStripChars(s: string, chars: set<char>): (r: string)
    ensures StartsWith(s, r)
    ensures r == [] || r[|r| - 1] !in chars
    ensures forall i :: |r| <= i < |s| ==> s[i] in chars
    decreases |s|
  {
    if |s| > 0 && s[|s| - 1] in chars then RStripChars(s[..|s| - 1], chars) else s
  }

  /** Stripping a tail made of `chars` from a text that does not end in one of them gives back the text. */
  lemma {:induction false} RStripCharsTail(s: string, t: string, chars: set<char>)
    requires s == [] || s[|s| - 1] !in chars
    requires forall i :: 0 <= i < |t| ==> t[i] in chars
    ensures RStripChars(s + t, chars) == s
    decreases |t|
  {
    if t != [] {
      assert (s + t)[..|s + t| - 1] == s + t[..|t| - 1];
      RStripCharsTail(s, t[..|t| - 1], chars);
    } else {
      assert s + t == s;
    }
  }

  /** Python `s.lstrip(c)` for one character. */
  function LStripChar(s: string, c: char): (r: string)
    ensures |r| <= |s|
    ensures r == s[|s| - |r|..]
    ensures r == [] || r[0] != c
    ensures forall i :: 0 <= i < |s| - |r| ==> s[i] == c
    decreases |s|
  {
    if |s| > 0 && s[0] == c then LStripChar(s[1..], c) else s
  }

  /** Two separator-free pieces joined by the separator split back into those pieces. */
  lemma SplitTwo(a: string, b: string, sep: char)
    requires sep !in a && sep !in b
    ensures Split(a + [sep] + b, sep) == [a, b]
  {
    SplitJoin([a, b], sep);
    assert [a, b][1..] == [b];
  }

  /** Three separator-free pieces joined by the separator split back into those pieces. */
  lemma SplitThree(a: string, b: string, c: string, sep: char)
    requires sep !in a && sep !in b && sep !in c
    ensures Split(a + [sep] + b + [sep] + c, sep) == [a, b, c]
  {
    var parts := [a, b, c];
    assert parts[1..] == [b, c] && [b, c][1..] == [c];
    JoinHead(parts, sep);
    JoinHead([b, c], sep);
    assert Join(parts, sep) == a + [sep] + (b + [sep] + c);
    assert a + [sep] + b + [sep] + c == a + [sep] + (b + [sep] + c);
    assert forall k :: 0 <= k < |parts| ==> sep !in parts[k];
    SplitJoin(parts, sep);
  }

  /** A digit string contains no non-digit character. */
  lemma DigitsExclude(s: string, c: char)
    requires AllDigits(s) && !IsDigit(c)
    ensures c !in s
  {
    forall k | 0 <= k < |s| ensures s[k] != c {
      assert IsDigit(s[k]);
    }
  }

  /** `parseInt` of text that starts with its digits `d` reads them. */
  lemma ParseIntJsLeadingDigits(s: string, d: string)
    requires |s| > 0 && IsDigit(s[0]) && DigitPrefix(s) == d
    ensures ParseIntJs(s) == Some(DigitsValue(d))
  {
    assert d != "" by { assert DigitPrefix(s) == [s[0]] + DigitPrefix(s[1..]); }
    var t := TrimStart(s);
    assert t == s by { assert !IsSpace(s[0]); }
    assert SignStripped(t) == s && t[0] != '-';
  }

  /** `parseInt` of a minus followed by the digits `d` reads them negated. */
  lemma ParseIntJsNegativeLeadingDigits(s: string, d: string)
    requires |s| > 0 && IsDigit(s[0]) && DigitPrefix(s) == d
    ensures ParseIntJs(['-'] + s) == Some(-(DigitsValue(d) as int))
  {
    var t := ['-'] + s;
    assert t[0] == '-' && t[1..] == s;
    assert TrimStart(t) == t;
    assert SignStripped(t) == s;
    assert DigitPrefix(SignStripped(TrimStart(t))) == d;
  }

  /** `parseInt` reads back `String(i)` for any integer, negative ones included. */
  lemma ParseIntJsInt(i: int)
    ensures ParseIntJs(IntToString(i)) == Some(i)
  {
    if i >= 0 {
      ParseIntJsNat(i);
    } else {
      var d := NatToString(-i);
      var s := IntToString(i);
      assert s == ['-'] + d;
      assert TrimStart(s) == s;
      assert SignStripped(s) == d;
      DigitPrefixAll(d);
    }
  }

  // ------------------------------------------------------------ translations

  /**
   * `translations.key || fallback`: a page's translation table gives the text
   * when it holds a non-empty one for the key (an empty string is falsy in
   * JavaScript); otherwise the built-in English text is shown.
   */
  function Tr(t: map<string, string>, key: string, fallback: string): (r: string)
    ensures key in t && t[key] != "" ==> r == t[key]
    ensures !(key in t && t[key] != "") ==> r == fallback
    ensures fallback != "" ==> r != ""
  {
    if key in t && t[key] != "" then t[key] else fallback
  }
}
