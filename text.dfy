/**
 * The Python string operations the bot relies on: decimal rendering of an
 * index (`f"{i}"`), `str.split(sep)`, `int(s)` on a token segment and
 * `str.capitalize()`.
 */
module Text {
  import opened Outcomes

  // ---------------------------------------------------------------------
  // Decimal digits

  predicate IsDigit(c: char)
  {
    '0' <= c <= '9'
  }

  predicate AllDigits(s: string)
  {
    forall i :: 0 <= i < |s| ==> IsDigit(s[i])
  }

  function DigitChar(d: nat): (c: char)
    requires d < 10
    ensures IsDigit(c) && c as int - '0' as int == d
  {
    (48 + d) as char
  }

  /** The value of a string of decimal digits, most significant first. */
  function DigitsValue(s: string): nat
    requires AllDigits(s)
    decreases |s|
  {
    if s == [] then 0
    else DigitsValue(s[..|s| - 1]) * 10 + (s[|s| - 1] as int - '0' as int)
  }

  /** `f"{n}"` for a non-negative integer: canonical decimal, no leading zero. */
  function NatToString(n: nat): (s: string)
    ensures |s| >= 1 && AllDigits(s)
    ensures |s| > 1 ==> s[0] != '0'
    decreases n
  {
    if n < 10 then [DigitChar(n)] else NatToString(n / 10) + [DigitChar(n % 10)]
  }

  /** Reading back a rendered number gives the number. */
  lemma {:induction false} DigitsRoundTrip(n: nat)
    ensures DigitsValue(NatToString(n)) == n
    decreases n
  {
    if n >= 10 {
      var s := NatToString(n);
      assert s[..|s| - 1] == NatToString(n / 10);
      DigitsRoundTrip(n / 10);
    }
  }

  // ---------------------------------------------------------------------
  // str.split(sep) and its inverse sep.join(parts)

  /** The first position of `d` in `s`. */
  function FirstIndex(s: string, d: char): (i: nat)
    requires d in s
    ensures i < |s| && s[i] == d && d !in s[..i]
  {
    if s[0] == d then 0
    else
      assert d in s[1..] by { var k :| 0 <= k < |s| && s[k] == d; assert s[1..][k - 1] == d; }
      var j := FirstIndex(s[1..], d);
      assert s[..j + 1] == [s[0]] + s[1..][..j];
      j + 1
  }

  /** `sep.join(parts)`. */
  function Join(parts: seq<string>, d: char): string
  {
    if parts == [] then ""
    else if |parts| == 1 then parts[0]
    else parts[0] + [d] + Join(parts[1..], d)
  }

  /**
   * `s.split(d)` with an explicit separator: never empty, no piece holds the
   * separator, and joining the pieces gives back `s`.
   */
  function Split(s: string, d: char): (parts: seq<string>)
    ensures |parts| >= 1
    ensures |parts| >= 2 <==> d in s
    ensures forall k :: 0 <= k < |parts| ==> d !in parts[k]
    ensures Join(parts, d) == s
    decreases |s|
  {
    if d in s then
      var i := FirstIndex(s, d);
      var rest := Split(s[i + 1..], d);
      assert s == s[..i] + [d] + s[i + 1..];
      [s[..i]] + rest
    else [s]
  }

  /** Splitting what was joined gives back the pieces, when no piece holds the separator. */
  lemma {:induction false} SplitJoin(parts: seq<string>, d: char)
    requires |parts| >= 1
    requires forall k :: 0 <= k < |parts| ==> d !in parts[k]
    ensures Split(Join(parts, d), d) == parts
    decreases |parts|
  {
    if |parts| > 1 {
      var s := Join(parts, d);
      var p := parts[0];
      var tail := Join(parts[1..], d);
      assert s == p + [d] + tail;
      assert s[|p|] == d;
      assert s[..|p|] == p;
      assert forall k :: 0 <= k < |p| ==> s[k] == p[k] && s[k] != d;
      var i := FirstIndex(s, d);
      assert i == |p|;
      assert s[i + 1..] == tail;
      SplitJoin(parts[1..], d);
    } else {
      assert Join(parts, d) == parts[0];
    }
  }

  // ---------------------------------------------------------------------
  // int(s) on a segment that holds no underscore

  /** The ASCII characters `str.strip()` and `int()` treat as white space. */
  predicate IsSpace(c: char)
  {
    c == ' ' || ('\t' <= c <= '\r') || ('\U{1C}' <= c <= '\U{1F}')
  }

  function TrimStart(s: string): (r: string)
    ensures |r| <= |s| && r == s[|s| - |r|..]
    ensures r != [] ==> !IsSpace(r[0])
    ensures forall i :: 0 <= i < |s| - |r| ==> IsSpace(s[i])
  {
    if s != [] && IsSpace(s[0]) then TrimStart(s[1..]) else s
  }

  function TrimEnd(s: string): (r: string)
    ensures |r| <= |s| && r == s[..|r|]
    ensures r != [] ==> !IsSpace(r[|r| - 1])
    ensures forall i :: |r| <= i < |s| ==> IsSpace(s[i])
  {
    if s != [] && IsSpace(s[|s| - 1]) then TrimEnd(s[..|s| - 1]) else s
  }

  function Strip(s: string): string
  {
    TrimEnd(TrimStart(s))
  }

  /** A string with no white space at either end is left as it is. */
  lemma StripLeavesPlain(s: string)
    requires s != [] && !IsSpace(s[0]) && !IsSpace(s[|s| - 1])
    ensures Strip(s) == s
  {
  }

  /**
   * `int(s)`: white space around an optional sign and decimal digits;
   * `None` where Python raises ValueError.
   */
  function ParseInt(s: string): (r: Option<int>)
    ensures s != [] && AllDigits(s) ==> r == Some(DigitsValue(s))
    ensures (forall k :: 0 <= k < |s| ==> !IsDigit(s[k])) ==> r.None?
    ensures r.Some? && r.value < 0 ==> '-' in s
  {
    StripInside(s);
    if s != [] && AllDigits(s) then
      StripLeavesPlain(s);
      ParseStripped(Strip(s))
    else ParseStripped(Strip(s))
  }

  /** Stripping only removes characters: what is left comes from the input. */
  lemma StripInside(s: string)
    ensures forall k :: 0 <= k < |Strip(s)| ==> Strip(s)[k] in s
  {
    var front := TrimStart(s);
    var t := TrimEnd(front);
    assert forall k :: 0 <= k < |t| ==> t[k] == front[k] == s[|s| - |front| + k];
  }

  /** `int()` once the white space is gone: an optional sign, then decimal digits. */
  function ParseStripped(t: string): (r: Option<int>)
    ensures t != [] && AllDigits(t) ==> r == Some(DigitsValue(t))
    ensures (forall k :: 0 <= k < |t| ==> !IsDigit(t[k])) ==> r.None?
    ensures r.Some? && r.value < 0 ==> t[0] == '-'
  {
    if t != [] && (t[0] == '+' || t[0] == '-') then
      var digits := t[1..];
      if digits != [] && AllDigits(digits) then
        var v: int := if t[0] == '-' then -(DigitsValue(digits) as int) else DigitsValue(digits) as int;
        Some(v)
      else None
    else if t != [] && AllDigits(t) then Some(DigitsValue(t))
    else None
  }

  /** On a string with no white space at either end, `int()` reads the string itself. */
  lemma ParsePlain(s: string)
    requires s != [] && !IsSpace(s[0]) && !IsSpace(s[|s| - 1])
    ensures ParseInt(s) == ParseStripped(s)
  {
    StripLeavesPlain(s);
  }

  /** `int(f"{n}") == n`. */
  lemma ParseRendered(n: nat)
    ensures ParseInt(NatToString(n)) == Some(n)
  {
    var s := NatToString(n);
    StripLeavesPlain(s);
    DigitsRoundTrip(n);
  }

  // ---------------------------------------------------------------------
  // str.capitalize()

  function Upper(c: char): char
  {
    if 'a' <= c <= 'z' then (c as int - 32) as char else c
  }

  function Lower(c: char): char
  {
    if 'A' <= c <= 'Z' then (c as int + 32) as char else c
  }

  function LowerAll(s: string): (r: string)
    ensures |r| == |s|
  {
    seq(|s|, i requires 0 <= i < |s| => Lower(s[i]))
  }

  /** `s.capitalize()`: first character upper-cased, the rest lower-cased. */
  function Capitalize(s: string): (r: string)
    ensures |r| == |s|
  {
    if s == [] then [] else [Upper(s[0])] + LowerAll(s[1..])
  }

  /** Capitalizing changes letter case only, and a capitalized word is left as it is. */
  lemma CapitalizeCaseOnly(s: string)
    ensures LowerAll(Capitalize(s)) == LowerAll(s)
    ensures Capitalize(Capitalize(s)) == Capitalize(s)
  {
    if s != [] {
      var c := Capitalize(s);
      assert Lower(Upper(s[0])) == Lower(s[0]);
      forall i | 0 <= i < |s| ensures LowerAll(c)[i] == LowerAll(s)[i] {
        if i > 0 { assert c[i] == Lower(s[i]); }
      }
      forall i | 1 <= i < |s| ensures Capitalize(c)[i] == c[i] {
        assert c[i] == Lower(s[i]);
      }
    }
  }
}
