/** Colon-separated texts and decimal numerals: the wire formats of callback data and of the cache key. */
module Text {
  import opened Wrappers

  predicate NoColon(s: string) { ':' !in s }

  /** str.split(":"). */
  function Split(s: string): (parts: seq<string>)
    ensures |parts| >= 1
    ensures forall i :: 0 <= i < |parts| ==> NoColon(parts[i])
  {
    if s == "" then [""]
    else
      var rest := Split(s[1..]);
      if s[0] == ':' then [""] + rest
      else [[s[0]] + rest[0]] + rest[1..]
  }

  lemma {:induction false} SplitPlain(s: string)
    requires NoColon(s)
    ensures Split(s) == [s]
  {
    if s != "" {
      SplitPlain(s[1..]);
      assert [s[0]] + s[1..] == s;
    }
  }

  /** Splitting undoes joining when the first part has no colon. */
  lemma {:induction false} SplitJoin(first: string, rest: string)
    requires NoColon(first)
    ensures Split(first + ":" + rest) == [first] + Split(rest)
  {
    var s := first + ":" + rest;
    if first == "" {
      assert s[1..] == rest;
    } else {
      assert s[1..] == first[1..] + ":" + rest;
      SplitJoin(first[1..], rest);
      assert [first[0]] + first[1..] == first;
    }
  }

  /** A text splits at its last colon in one way only. */
  lemma LastColonUnique(a: string, x: string, b: string, y: string)
    requires NoColon(x) && NoColon(y)
    requires a + ":" + x == b + ":" + y
    ensures a == b && x == y
  {
    var s := a + ":" + x;
    var t := b + ":" + y;
    assert s[|a|] == ':' && t[|b|] == ':';
    assert forall i :: |a| < i < |s| ==> s[i] == x[i - |a| - 1];
    assert forall i :: |b| < i < |t| ==> t[i] == y[i - |b| - 1];
    assert |a| == |b|;
    assert a == s[..|a|] && b == t[..|b|];
    assert x == s[|a| + 1..] && y == t[|b| + 1..];
  }

  const DIGITS: string := "0123456789"

  function Digit(d: nat): (c: char)
    requires d < 10
    ensures '0' <= c <= '9' && (c as int - '0' as int) == d
  {
    DIGITS[d]
  }

  /** str(n) for a non-negative n. */
  function Decimal(n: nat): (s: string)
    ensures s != "" && NoColon(s)
    ensures forall i :: 0 <= i < |s| ==> '0' <= s[i] <= '9'
  {
    if n < 10 then [Digit(n)] else Decimal(n / 10) + [Digit(n % 10)]
  }

  function DigitsValue(s: string): Option<nat> {
    if s == "" then Some(0)
    else
      var c := s[|s| - 1];
      var front := DigitsValue(s[..|s| - 1]);
      if '0' <= c <= '9' && front.Some? then Some(10 * front.value + (c as int - '0' as int)) else None
  }

  /** int(s) on an optional sign followed by decimal digits; None is the ValueError. */
  function ParseInt(s: string): Option<int> {
    if s == "" then None
    else if s[0] == '-' || s[0] == '+' then
      var v := DigitsValue(s[1..]);
      if |s| == 1 || v.None? then None else Some(if s[0] == '-' then 0 - v.value else v.value as int)
    else
      var v := DigitsValue(s);
      if v.None? then None else Some(v.value)
  }

  lemma {:induction false} DigitsValueOfDecimal(n: nat)
    ensures DigitsValue(Decimal(n)) == Some(n)
  {
    var s := Decimal(n);
    if n < 10 {
      assert s == [Digit(n)] && s[..0] == "";
    } else {
      DigitsValueOfDecimal(n / 10);
      assert s[..|s| - 1] == Decimal(n / 10);
    }
  }

  /** int(str(n)) == n. */
  lemma ParseDecimal(n: nat)
    ensures ParseInt(Decimal(n)) == Some(n)
  {
    DigitsValueOfDecimal(n);
  }

  predicate AllDigits(s: string) { forall i :: 0 <= i < |s| ==> '0' <= s[i] <= '9' }

  lemma {:induction false} DigitsExactly(s: string)
    ensures DigitsValue(s).Some? <==> AllDigits(s)
  {
    if s != "" { DigitsExactly(s[..|s| - 1]); }
  }

  /** int(s) raises on anything but digits after at most one sign, and a minus sign negates. */
  lemma ParseExactly(s: string)
    ensures ParseInt(s).Some? <==> (s != "" && AllDigits(s)) || (|s| > 1 && (s[0] == '+' || s[0] == '-') && AllDigits(s[1..]))
    ensures |s| > 1 && AllDigits(s[1..]) && s[0] == '+' ==> ParseInt(s) == ParseInt(s[1..])
    ensures |s| > 1 && AllDigits(s[1..]) && s[0] == '-' ==> ParseInt(s[1..]).Some? && ParseInt(s) == Some(-ParseInt(s[1..]).value)
  {
    DigitsExactly(s);
    if s != "" { DigitsExactly(s[1..]); }
    hide DigitsValue;
  }
}
