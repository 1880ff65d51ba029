/** Positional numerals as the two languages print and read them. */
module Numerals {
  import opened Options

  function Digit(d: nat): (c: char)
    requires d < 36
    ensures DigitValue(c) == Some(d)
  {
    if d < 10 then ('0' as int + d) as char else ('a' as int + d - 10) as char
  }

  function DigitValue(c: char): Option<nat> {
    if '0' <= c <= '9' then Some(c as nat - '0' as nat)
    else if 'a' <= c <= 'z' then Some(c as nat - 'a' as nat + 10)
    else None
  }

  lemma DigitOfValue(c: char)
    requires DigitValue(c).Some?
    ensures DigitValue(c).value < 36 && Digit(DigitValue(c).value) == c
  {
  }

  /** The bases in use. */
  datatype Base = B10 | B16 | B36 {
    function Size(): nat { match this case B10 => 10 case B16 => 16 case B36 => 36 }
    function Times(m: nat): nat { match this case B10 => m * 10 case B16 => m * 16 case B36 => m * 36 }
    function Over(n: nat): nat { match this case B10 => n / 10 case B16 => n / 16 case B36 => n / 36 }
    function Rest(n: nat): nat { match this case B10 => n % 10 case B16 => n % 16 case B36 => n % 36 }
  }

  predicate IsNumeral(b: Base, s: string) {
    forall i | 0 <= i < |s| :: DigitValue(s[i]).Some? && DigitValue(s[i]).value < b.Size()
  }

  /** Number.prototype.toString(base) of a natural number. */
  function ToText(b: Base, n: nat): (s: string)
    ensures s != "" && IsNumeral(b, s)
  {
    if n < b.Size() then [Digit(n)] else ToText(b, b.Over(n)) + [Digit(b.Rest(n))]
  }

  function ToNumber(b: Base, s: string): nat
    requires IsNumeral(b, s)
  {
    if s == "" then 0 else b.Times(ToNumber(b, s[..|s| - 1])) + DigitValue(s[|s| - 1]).value
  }

  /** No digit is lost, and no leading zero is written. */
  predicate Canonical(b: Base, s: string) {
    s != "" && IsNumeral(b, s) && (|s| > 1 ==> s[0] != '0')
  }

  lemma {:induction false} TextReadsBack(b: Base, n: nat)
    ensures ToNumber(b, ToText(b, n)) == n
  {
    if n >= b.Size() {
      TextReadsBack(b, b.Over(n));
      var s := ToText(b, n);
      assert s[..|s| - 1] == ToText(b, b.Over(n));
    }
  }

  lemma {:induction false} TextIsCanonical(b: Base, n: nat)
    ensures Canonical(b, ToText(b, n))
    ensures n > 0 ==> ToText(b, n)[0] != '0'
  {
    if n >= b.Size() {
      TextIsCanonical(b, b.Over(n));
    }
  }

  lemma SplitDigits(b: Base, m: nat, d: nat)
    requires d < b.Size()
    ensures b.Over(b.Times(m) + d) == m && b.Rest(b.Times(m) + d) == d
    ensures m >= 1 ==> b.Times(m) + d >= b.Size()
  {
  }

  /** The canonical spelling of a number is the one the encoder writes. */
  lemma {:induction false} CanonicalIsText(b: Base, s: string)
    requires Canonical(b, s)
    ensures ToText(b, ToNumber(b, s)) == s
  {
    if |s| > 1 {
      var rest := s[..|s| - 1];
      CanonicalIsText(b, rest);
      PositiveHead(b, rest);
      DigitOfValue(s[|s| - 1]);
      SplitDigits(b, ToNumber(b, rest), DigitValue(s[|s| - 1]).value);
      assert ToNumber(b, s) == b.Times(ToNumber(b, rest)) + DigitValue(s[|s| - 1]).value;
      hide ToNumber, DigitValue, Digit, Canonical;
      assert s == rest + [s[|s| - 1]];
    } else {
      DigitOfValue(s[0]);
      assert s[..0] == "";
    }
  }

  lemma {:induction false} PositiveHead(b: Base, s: string)
    requires IsNumeral(b, s) && s != "" && s[0] != '0'
    ensures ToNumber(b, s) >= 1
  {
    if |s| > 1 {
      PositiveHead(b, s[..|s| - 1]);
    }
  }

  // ---------------------------------------------------------------- lengths

  function Pow(b: Base, k: nat): nat {
    if k == 0 then 1 else b.Times(Pow(b, k - 1))
  }

  /** A number has at most k digits exactly when it is below base^k. */
  lemma {:induction false} TextLength(b: Base, n: nat, k: nat)
    requires k >= 1
    ensures |ToText(b, n)| <= k <==> n < Pow(b, k)
  {
    if k == 1 {
      assert Pow(b, 1) == b.Times(Pow(b, 0));
    } else if n < b.Size() {
      PowAtLeast(b, k);
    } else {
      TextLength(b, b.Over(n), k - 1);
    }
  }

  lemma {:induction false} PowAtLeast(b: Base, k: nat)
    requires k >= 1
    ensures Pow(b, k) >= b.Size()
  {
    if k > 1 {
      PowAtLeast(b, k - 1);
    } else {
      assert Pow(b, 1) == b.Times(Pow(b, 0));
    }
  }

  lemma {:induction false} NumeralBound(b: Base, s: string)
    requires IsNumeral(b, s)
    ensures ToNumber(b, s) < Pow(b, |s|)
  {
    if s != "" {
      NumeralBound(b, s[..|s| - 1]);
    }
  }
}
