/**
 Decimal printing and parsing as the C++ standard library does it: `std::to_string` on
 integers and `std::stoi` on strings (leading white space, an optional sign, the longest run
 of digits, and an exception when there is no digit or the value leaves the `int` range).
 */
module Decimal {

  datatype Option<+T> = None | Some(value: T)

  const INT_MIN := -0x8000_0000
  const INT_MAX := 0x7FFF_FFFF

  predicate IsDigit(c: char) {
    '0' <= c <= '9'
  }

  predicate AllDigits(s: string) {
    forall i | 0 <= i < |s| :: IsDigit(s[i])
  }

  function DigitChar(d: nat): char
    requires d < 10
  {
    ('0' as int + d) as char
  }

  function DigitValue(c: char): nat
    requires IsDigit(c)
  {
    c as int - '0' as int
  }

  /** `std::to_string` on a non-negative integer. */
  function NatToString(n: nat): (s: string)
    ensures |s| > 0 && AllDigits(s)
  {
    if n < 10 then [DigitChar(n)] else NatToString(n / 10) + [DigitChar(n % 10)]
  }

  /** `std::to_string` on an `int`. */
  function IntToString(n: int): string {
    if n < 0 then "-" + NatToString(-n) else NatToString(n)
  }

  /** The number a run of digits denotes. */
  function Value(s: string): nat
    requires AllDigits(s)
  {
    if s == "" then 0 else 10 * Value(s[..|s| - 1]) + DigitValue(s[|s| - 1])
  }

  predicate IsSpace(c: char) {
    c == ' ' || '\t' <= c <= '\r'
  }

  function SkipSpace(s: string): string {
    if s != "" && IsSpace(s[0]) then SkipSpace(s[1..]) else s
  }

  function DigitPrefix(s: string): (p: string)
    ensures AllDigits(p) && p <= s
  {
    if s != "" && IsDigit(s[0]) then [s[0]] + DigitPrefix(s[1..]) else ""
  }

  /** `std::stoi`; `None` stands for either of its exceptions. */
  function StoI(s: string): Option<int> {
    var body := SkipSpace(s);
    var negative := body != "" && body[0] == '-';
    var digits := DigitPrefix(if body != "" && (body[0] == '-' || body[0] == '+') then body[1..] else body);
    if digits == "" then None
    else
      var magnitude: int := Value(digits);
      var v := if negative then -magnitude else magnitude;
      if INT_MIN <= v <= INT_MAX then Some(v) else None
  }

  lemma {:induction false} ValueOfPrinted(n: nat)
    ensures Value(NatToString(n)) == n
  {
    var s := NatToString(n);
    if n >= 10 {
      ValueOfPrinted(n / 10);
      assert s[..|s| - 1] == NatToString(n / 10);
    } else {
      assert s[..0] == "";
    }
  }

  lemma NatToStringInjective(m: nat, n: nat)
    requires NatToString(m) == NatToString(n)
    ensures m == n
  {
    ValueOfPrinted(m);
    ValueOfPrinted(n);
  }

  lemma SignShows(n: int)
    ensures IntToString(n) != "" && (IntToString(n)[0] == '-' <==> n < 0)
  {
    assert n >= 0 ==> IsDigit(NatToString(n)[0]);
  }

  lemma IntToStringInjective(m: int, n: int)
    requires IntToString(m) == IntToString(n)
    ensures m == n
  {
    SignShows(m);
    SignShows(n);
    if m >= 0 && n >= 0 {
      NatToStringInjective(m, n);
    } else if m < 0 && n < 0 {
      assert NatToString(-m) == IntToString(m)[1..] == IntToString(n)[1..] == NatToString(-n);
      NatToStringInjective(-m, -n);
    }
  }

  /** No leading zero, except for the single digit zero itself. */
  predicate IsNumeral(s: string) {
    s != "" && AllDigits(s) && (|s| > 1 ==> s[0] != '0')
  }

  lemma {:induction false} NumeralIsPositive(s: string)
    requires IsNumeral(s) && s[0] != '0'
    ensures Value(s) > 0
  {
    if |s| > 1 {
      NumeralIsPositive(s[..|s| - 1]);
    } else {
      assert s[..0] == "";
    }
  }

  lemma {:induction false} PrintedIsNumeral(n: nat)
    ensures IsNumeral(NatToString(n))
    ensures n > 0 ==> NatToString(n)[0] != '0'
  {
    if n >= 10 {
      PrintedIsNumeral(n / 10);
    }
  }

  lemma {:induction false} PrintOfValue(s: string)
    requires IsNumeral(s)
    ensures NatToString(Value(s)) == s
  {
    var front := s[..|s| - 1];
    if |s| > 1 {
      NumeralIsPositive(front);
      PrintOfValue(front);
      assert Value(s) / 10 == Value(front) && Value(s) % 10 == DigitValue(s[|s| - 1]);
      assert s == front + [s[|s| - 1]];
    } else {
      assert front == "";
    }
  }

  lemma {:induction false} DigitPrefixOfDigits(s: string)
    requires AllDigits(s)
    ensures DigitPrefix(s) == s
  {
    if s != "" {
      DigitPrefixOfDigits(s[1..]);
    }
  }

  /** `std::stoi` on a plain run of digits. */
  lemma StoIOfDigits(s: string)
    requires s != "" && AllDigits(s)
    ensures StoI(s) == if Value(s) <= INT_MAX then Some(Value(s)) else None
  {
    assert IsDigit(s[0]);
    assert SkipSpace(s) == s;
    DigitPrefixOfDigits(s);
  }

  lemma {:induction false} ShortDigitsAreSmall(s: string)
    requires AllDigits(s) && |s| <= 3
    ensures Value(s) < 1000
    ensures |s| <= 2 ==> Value(s) < 100
    ensures |s| <= 1 ==> Value(s) < 10
  {
    if s != "" {
      ShortDigitsAreSmall(s[..|s| - 1]);
    }
  }

  // ---------------------------------------------------------------------------------------
  // What `std::stoi` reads
  // ---------------------------------------------------------------------------------------

  predicate AllSpace(s: string) {
    forall i | 0 <= i < |s| :: IsSpace(s[i])
  }

  /** White space up to `i`, a sign up to `j` or none, and the longest run of digits up to `k`. */
  predicate NumberAt(s: string, i: nat, j: nat, k: nat) {
    && i <= j < k <= |s|
    && AllSpace(s[..i]) && (j == i || (j == i + 1 && s[i] in "+-"))
    && AllDigits(s[j..k]) && (k < |s| ==> !IsDigit(s[k]))
  }

  function NumberOf(s: string, i: nat, j: nat, k: nat): int
    requires NumberAt(s, i, j, k)
  {
    var magnitude: int := Value(s[j..k]);
    if s[i] == '-' then -magnitude else magnitude
  }

  lemma {:induction false} SkipSpaceCut(s: string, i: nat)
    requires i <= |s| && AllSpace(s[..i]) && (i < |s| ==> !IsSpace(s[i]))
    ensures SkipSpace(s) == s[i..]
  {
    if i > 0 {
      var tail := s[1..][..i - 1];
      assert s[..i][0] == s[0];
      assert forall j | 0 <= j < |tail| :: tail[j] == s[..i][j + 1];
      SkipSpaceCut(s[1..], i - 1);
    }
  }

  lemma {:induction false} DigitPrefixCut(s: string, k: nat)
    requires k <= |s| && AllDigits(s[..k]) && (k < |s| ==> !IsDigit(s[k]))
    ensures DigitPrefix(s) == s[..k]
  {
    if k > 0 {
      var tail := s[1..][..k - 1];
      assert s[..k][0] == s[0];
      assert forall j | 0 <= j < |tail| :: tail[j] == s[..k][j + 1];
      DigitPrefixCut(s[1..], k - 1);
      assert [s[0]] + tail == s[..k];
    }
  }

  /** Where the white space ends. */
  lemma SpaceEnd(s: string) returns (i: nat)
    ensures i <= |s| && AllSpace(s[..i]) && (i < |s| ==> !IsSpace(s[i]))
  {
    i := 0;
    while i < |s| && IsSpace(s[i])
      invariant i <= |s| && AllSpace(s[..i])
    {
      i := i + 1;
    }
  }

  lemma DigitRun(s: string) returns (k: nat)
    ensures k <= |s| && AllDigits(s[..k]) && (k < |s| ==> !IsDigit(s[k]))
  {
    k := 0;
    while k < |s| && IsDigit(s[k])
      invariant k <= |s| && AllDigits(s[..k])
    {
      k := k + 1;
    }
  }

  /** Wherever a number stands after white space, `std::stoi` reads it, if it is in range. */
  lemma StoIReads(s: string, i: nat, j: nat, k: nat)
    requires NumberAt(s, i, j, k)
    ensures StoI(s) == if INT_MIN <= NumberOf(s, i, j, k) <= INT_MAX then Some(NumberOf(s, i, j, k)) else None
  {
    assert j == i ==> IsDigit(s[j..k][0]);
    SkipSpaceCut(s, i);
    var rest := s[j..];
    assert rest[..k - j] == s[j..k];
    DigitPrefixCut(rest, k - j);
    assert j == i + 1 ==> rest == s[i..][1..];
  }

  /** And only then. */
  lemma StoIRefuses(s: string)
    requires forall i, j, k :: !NumberAt(s, i, j, k)
    ensures StoI(s) == None
  {
    var i := SpaceEnd(s);
    SkipSpaceCut(s, i);
    var body := s[i..];
    var j := if i < |s| && s[i] in "+-" then i + 1 else i;
    var rest := s[j..];
    var n := DigitRun(rest);
    DigitPrefixCut(rest, n);
    assert rest == if j == i then body else body[1..];
    assert rest[..n] == s[j..j + n];
    assert n > 0 ==> NumberAt(s, i, j, j + n);
  }
}
