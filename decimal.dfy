/**
 * Decimal digit strings, and Swift's `Int(String)` initialiser that the
 * waypoint decoder relies on (`integer(from:)`).
 */
module Decimal {
  import opened Wrappers

  predicate IsDigit(c: char) { '0' <= c <= '9' }

  function DigitValue(c: char): (d: nat)
    requires IsDigit(c)
    ensures d < 10
  {
    c as int - '0' as int
  }

  function DigitChar(d: nat): (c: char)
    requires d < 10
    ensures IsDigit(c) && DigitValue(c) == d
  {
    ('0' as int + d) as char
  }

  predicate AllDigits(s: string) {
    forall i :: 0 <= i < |s| ==> IsDigit(s[i])
  }

  /** The number a run of decimal digits denotes, most significant first. */
  function Value(s: string): nat
    requires AllDigits(s)
    decreases |s|
  {
    if s == [] then 0 else Value(s[..|s| - 1]) * 10 + DigitValue(s[|s| - 1])
  }

  lemma ValueOfTwo(a: char, b: char)
    requires IsDigit(a) && IsDigit(b)
    ensures AllDigits([a, b]) && Value([a, b]) == DigitValue(a) * 10 + DigitValue(b)
  {
    assert [a][..0] == [];
    assert Value([a]) == DigitValue(a);
    assert [a, b][..1] == [a];
    assert Value([a, b]) == Value([a]) * 10 + DigitValue(b);
  }

  lemma ValueOfFour(a: char, b: char, c: char, d: char)
    requires IsDigit(a) && IsDigit(b) && IsDigit(c) && IsDigit(d)
    ensures AllDigits([a, b, c, d])
    ensures Value([a, b, c, d]) == ((DigitValue(a) * 10 + DigitValue(b)) * 10 + DigitValue(c)) * 10 + DigitValue(d)
  {
    ValueOfTwo(a, b);
    assert [a, b, c][..2] == [a, b];
    assert Value([a, b, c]) == Value([a, b]) * 10 + DigitValue(c);
    assert [a, b, c, d][..3] == [a, b, c];
    assert Value([a, b, c, d]) == Value([a, b, c]) * 10 + DigitValue(d);
  }

  /** The shortest decimal rendering of `n`. */
  function Digits(n: nat): (s: string)
    ensures AllDigits(s) && |s| > 0
    decreases n
  {
    if n < 10 then [DigitChar(n)] else Digits(n / 10) + [DigitChar(n % 10)]
  }

  lemma {:induction false} ValueOfDigits(n: nat)
    ensures Value(Digits(n)) == n
  {
    if n >= 10 {
      var s := Digits(n);
      assert s[..|s| - 1] == Digits(n / 10);
      ValueOfDigits(n / 10);
    }
  }

  /** Length of the leading run of digits of `s`. */
  function DigitRun(s: string): (k: nat)
    ensures k <= |s|
    ensures AllDigits(s[..k])
    ensures k < |s| ==> !IsDigit(s[k])
    decreases |s|
  {
    if s == [] || !IsDigit(s[0]) then 0
    else
      var k := 1 + DigitRun(s[1..]);
      assert forall i :: 1 <= i < k ==> s[..k][i] == s[1..][..k - 1][i - 1];
      k
  }

  lemma {:induction false} DigitRunOfDigits(d: string, rest: string)
    requires AllDigits(d)
    requires rest == [] || !IsDigit(rest[0])
    ensures DigitRun(d + rest) == |d|
    decreases |d|
  {
    if d != [] {
      assert (d + rest)[1..] == d[1..] + rest;
      DigitRunOfDigits(d[1..], rest);
    }
  }

  const Int64Min: int := -0x8000_0000_0000_0000
  const Int64Max: int := 0x7FFF_FFFF_FFFF_FFFF

  /** Within the range of Swift's 64-bit `Int`. */
  predicate InInt64(n: int) { Int64Min <= n <= Int64Max }

  /**
   * Swift's `Int(_: String)`: an optional `+` or `-`, then one or more ASCII
   * digits and nothing else; `nil` for any other text and for a value that
   * does not fit a 64-bit `Int`.
   */
  function ParseInt(s: string): (r: Option<int>)
    ensures r.Some? ==> InInt64(r.value)
    ensures r.Some? ==> |s| > 0 && (IsDigit(s[0]) || s[0] == '+' || s[0] == '-')
  {
    if s == [] then None
    else
      var signed := s[0] == '+' || s[0] == '-';
      var body := if signed then s[1..] else s;
      if body == [] || !AllDigits(body) then None
      else
        var v: int := if s[0] == '-' then -(Value(body) as int) else Value(body);
        if InInt64(v) then Some(v) else None
  }

  /** The text Swift's `String(n)` gives for an integer. */
  function ShowInt(n: int): string {
    if n < 0 then "-" + Digits(-n) else Digits(n)
  }

  /** Reading back the decimal rendering of any 64-bit integer gives it back. */
  lemma ParseShowRoundTrip(n: int)
    requires InInt64(n)
    ensures ParseInt(ShowInt(n)) == Some(n)
  {
    if n < 0 {
      assert ShowInt(n)[1..] == Digits(-n);
      ValueOfDigits(-n);
    } else {
      ValueOfDigits(n);
    }
  }

  /** A literal outside the 64-bit range is rejected, not clamped or wrapped. */
  lemma ParseRejectsOutOfRange(n: int)
    requires !InInt64(n)
    ensures ParseInt(ShowInt(n)) == None
  {
    if n < 0 {
      assert ShowInt(n)[1..] == Digits(-n);
      ValueOfDigits(-n);
    } else {
      ValueOfDigits(n);
    }
  }

  /** Unlike a C `%d` conversion, `Int(String)` accepts no leading blank. */
  lemma ParseRejectsLeadingBlank(s: string)
    ensures ParseInt(" " + s) == None
  {
  }
}
