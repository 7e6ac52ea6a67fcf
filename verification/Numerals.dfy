/** Decimal numerals as Go's strconv reads and writes them. */
module Numerals {
  import opened Wrappers

  const MIN_INT64 := -0x8000_0000_0000_0000
  const MAX_INT64 := 0x7FFF_FFFF_FFFF_FFFF

  predicate IsDigit(c: char) {
    '0' <= c <= '9'
  }

  function DigitChar(d: nat): char
    requires d < 10
  {
    '0' + d as char
  }

  function DigitValue(c: char): nat
    requires IsDigit(c)
  {
    c as int - '0' as int
  }

  predicate AllDigits(s: string) {
    forall i :: 0 <= i < |s| ==> IsDigit(s[i])
  }

  function Value(s: string): nat
    requires AllDigits(s)
  {
    if s == "" then 0 else Value(s[..|s| - 1]) * 10 + DigitValue(s[|s| - 1])
  }

  function Digits(n: nat): (s: string)
    ensures s != "" && AllDigits(s)
  {
    if n < 10 then [DigitChar(n)] else Digits(n / 10) + [DigitChar(n % 10)]
  }

  function Itoa(i: int): string {
    if i < 0 then "-" + Digits(-i) else Digits(i)
  }

  // An optional sign and at least one digit, within int64.
  function Atoi(s: string): Option<int> {
    var negative := s != "" && s[0] == '-';
    var digits := if s != "" && (s[0] == '-' || s[0] == '+') then s[1..] else s;
    if digits == "" || !AllDigits(digits) then None else
      var magnitude: int := Value(digits);
      var n := if negative then -magnitude else magnitude;
      if MIN_INT64 <= n <= MAX_INT64 then Some(n) else None
  }

  lemma {:induction false} ValueOfDigits(n: nat)
    ensures Value(Digits(n)) == n
  {
    if n >= 10 {
      ValueOfDigits(n / 10);
      assert Digits(n)[..|Digits(n)| - 1] == Digits(n / 10);
    } else {
      assert Digits(n)[..0] == "";
    }
  }

  // How a non-negative number is written: no sign, no leading zero.
  predicate Canonical(s: string) {
    s != "" && AllDigits(s) && (s[0] == '0' ==> |s| == 1)
  }

  lemma {:induction false} DigitsAreCanonical(n: nat)
    ensures Canonical(Digits(n)) && (n > 0 ==> Digits(n)[0] != '0')
  {
    if n >= 10 { DigitsAreCanonical(n / 10); }
  }

  /** A number is written in one way: any canonical text is what its value is written as. */
  lemma {:induction false} DigitsOfValue(s: string)
    requires Canonical(s)
    ensures Digits(Value(s)) == s
  {
    var front := s[..|s| - 1];
    if |s| == 1 {
      assert Value(front) == 0;
    } else {
      DigitsOfValue(front);
      assert front[0] != '0' && Value(front) > 0;
      assert s == front + [s[|s| - 1]];
    }
  }

  lemma NoColon(i: int)
    ensures ':' !in Itoa(i)
  {
    var s := Itoa(i);
    forall k | 0 <= k < |s| ensures s[k] != ':' {
      if i < 0 && k > 0 { assert s[k] == Digits(-i)[k - 1]; }
    }
  }

  /** Writing then reading a number gives it back. */
  lemma AtoiOfItoa(i: int)
    requires MIN_INT64 <= i <= MAX_INT64
    ensures Atoi(Itoa(i)) == Some(i)
  {
    if i < 0 {
      ValueOfDigits(-i);
      assert Itoa(i)[1..] == Digits(-i);
    } else {
      ValueOfDigits(i);
      assert IsDigit(Itoa(i)[0]);
    }
  }

  lemma ShortValue(s: string)
    requires AllDigits(s) && 1 <= |s| <= 4
    ensures |s| == 1 ==> Value(s) == DigitValue(s[0])
    ensures |s| == 2 ==> Value(s) == DigitValue(s[0]) * 10 + DigitValue(s[1])
    ensures |s| == 4 ==>
      Value(s) == DigitValue(s[0]) * 1000 + DigitValue(s[1]) * 100 + DigitValue(s[2]) * 10 + DigitValue(s[3])
    ensures Value(s) < 10000
  {
    assert s[..|s| - 1][..] == s[..|s| - 1];
    if |s| >= 2 {
      assert s[..|s| - 1][..|s| - 2] == s[..|s| - 2];
      if |s| >= 3 {
        assert s[..|s| - 2][..|s| - 3] == s[..|s| - 3];
        if |s| == 4 { assert s[..1][..0] == ""; }
      }
    }
  }
}
