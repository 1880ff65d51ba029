/** The page cursor's codec: two numbers in canonical base 36. A position is the admission
    time in milliseconds and a job id of 64 lower-case hexadecimal digits. */
module Cursor {
  import opened Numerals
  import opened Options

  /** The decoder's loop, digit by digit. */
  method ReadNumber(s: string) returns (n: nat)
    requires IsNumeral(B36, s)
    ensures n == ToNumber(B36, s)
  {
    n := 0;
    for i := 0 to |s|
      invariant n == ToNumber(B36, s[..i])
    {
      assert s[..i + 1][..i] == s[..i];
      n := n * 36 + DigitValue(s[i]).value;
    }
    assert s[..|s|] == s;
  }

  const TWO_256: nat := 0x1_0000000000000000_0000000000000000_0000000000000000_0000000000000000
  const MAX_SAFE: nat := 9_007_199_254_740_991
  /** The last millisecond a date can show. */
  const MAX_TIME: nat := 8_640_000_000_000_000

  lemma FiveDigits(k: nat)
    ensures Pow(B36, k + 5) == 60466176 * Pow(B36, k)
  {
    assert Pow(B36, k + 3) == 46656 * Pow(B36, k) by {
      assert Pow(B36, k + 1) == 36 * Pow(B36, k);
      assert Pow(B36, k + 2) == 1296 * Pow(B36, k);
    }
    assert Pow(B36, k + 4) == 1679616 * Pow(B36, k);
  }

  lemma PowersOf36()
    ensures Pow(B36, 11) > MAX_SAFE
    ensures Pow(B36, 50) > TWO_256
  {
    assert Pow(B36, 0) == 1;
    assert Pow(B36, 11) == 36 * Pow(B36, 10);
    hide Pow;
    FiveDigits(0);
    FiveDigits(5);
    assert Pow(B36, 10) == 3656158440062976;
    FiveDigits(10);
    FiveDigits(15);
    FiveDigits(20);
    FiveDigits(25);
    FiveDigits(30);
    FiveDigits(35);
    FiveDigits(40);
    FiveDigits(45);
  }

  lemma EightDigits(k: nat)
    ensures Pow(B16, k + 8) == 0x1_0000_0000 * Pow(B16, k)
  {
    assert Pow(B16, k + 4) == 65536 * Pow(B16, k) by {
      assert Pow(B16, k + 1) == 16 * Pow(B16, k);
      assert Pow(B16, k + 2) == 256 * Pow(B16, k);
      assert Pow(B16, k + 3) == 4096 * Pow(B16, k);
    }
    assert Pow(B16, k + 5) == 0x10_0000 * Pow(B16, k);
    assert Pow(B16, k + 6) == 0x100_0000 * Pow(B16, k);
    assert Pow(B16, k + 7) == 0x1000_0000 * Pow(B16, k);
  }

  lemma PowersOf16()
    ensures Pow(B16, 64) == TWO_256
  {
    assert Pow(B16, 0) == 1;
    hide Pow;
    EightDigits(0);
    EightDigits(8);
    EightDigits(16);
    EightDigits(24);
    EightDigits(32);
    EightDigits(40);
    EightDigits(48);
    EightDigits(56);
  }

  // ---------------------------------------------------------------- positions

  datatype Position = Position(ms: int, jobId: string)

  predicate IsHash(s: string) {
    |s| == 64 && IsNumeral(B16, s)
  }

  /** A position a stored job can have. */
  predicate ValidPosition(p: Position) {
    0 <= p.ms <= MAX_TIME && IsHash(p.jobId)
  }

  datatype Spelling = Spelling(timestamp: string, job: string)

  /** The grammar of a cursor's two number fields. */
  predicate InGrammar(c: Spelling) {
    Canonical(B36, c.timestamp) && |c.timestamp| <= 11 && Canonical(B36, c.job) && |c.job| <= 50
  }

  function EncodePosition(p: Position): Spelling
    requires p.ms >= 0 && IsHash(p.jobId)
  {
    Spelling(ToText(B36, p.ms), ToText(B36, ToNumber(B16, p.jobId)))
  }

  function PadStart(s: string, width: nat): string
    decreases width - |s|
  {
    if |s| >= width then s else PadStart("0" + s, width)
  }

  /** A timestamp beyond the safe integers is refused whatever rounding made of it. */
  function DecodePosition(c: Spelling): Option<Position>
    requires IsNumeral(B36, c.timestamp) && IsNumeral(B36, c.job)
  {
    var n := ToNumber(B36, c.job);
    var jobId := PadStart(ToText(B16, n), 64);
    var ms := ToNumber(B36, c.timestamp);
    if n >= TWO_256 || ms > MAX_SAFE || !IsHash(jobId) || ToText(B36, ms) != c.timestamp || ToText(B36, n) != c.job then None
    else if ms > MAX_TIME then None
    else Some(Position(ms, jobId))
  }

  method Decode(c: Spelling) returns (p: Option<Position>)
    requires InGrammar(c)
    ensures p == DecodePosition(c)
    ensures p.Some? ==> ValidPosition(p.value) && EncodePosition(p.value) == c
  {
    var n := ReadNumber(c.job);
    var jobId := PadStart(ToText(B16, n), 64);
    var ms := ReadNumber(c.timestamp);
    if n >= TWO_256 || ms > MAX_SAFE || !IsHash(jobId) || ToText(B36, ms) != c.timestamp || ToText(B36, n) != c.job || ms > MAX_TIME {
      return None;
    }
    p := Some(Position(ms, jobId));
    AcceptedIsCanonical(c);
  }

  lemma {:induction false} PadKeepsValue(s: string, width: nat)
    requires IsNumeral(B16, s)
    ensures IsNumeral(B16, PadStart(s, width)) && ToNumber(B16, PadStart(s, width)) == ToNumber(B16, s)
    ensures |PadStart(s, width)| == if |s| >= width then |s| else width
    decreases width - |s|
  {
    if |s| < width {
      LeadingZero(s);
      PadKeepsValue("0" + s, width);
    }
  }

  lemma {:induction false} LeadingZero(s: string)
    requires IsNumeral(B16, s)
    ensures IsNumeral(B16, "0" + s) && ToNumber(B16, "0" + s) == ToNumber(B16, s)
  {
    var t := "0" + s;
    assert forall i | 0 <= i < |t| :: t[i] == if i == 0 then '0' else s[i - 1];
    if s == "" {
      assert t[..0] == "";
    } else {
      LeadingZero(s[..|s| - 1]);
      assert t[..|t| - 1] == "0" + s[..|s| - 1];
    }
  }

  /** Numerals of one length with one value are one numeral. */
  lemma {:induction false} SameLengthSameValue(a: string, b: string)
    requires IsNumeral(B16, a) && IsNumeral(B16, b) && |a| == |b| && ToNumber(B16, a) == ToNumber(B16, b)
    ensures a == b
  {
    if a != "" {
      SameLengthSameValue(a[..|a| - 1], b[..|b| - 1]);
      DigitOfValue(a[|a| - 1]);
      DigitOfValue(b[|b| - 1]);
      assert a == a[..|a| - 1] + [a[|a| - 1]] && b == b[..|b| - 1] + [b[|b| - 1]];
    }
  }

  /** A job id survives the trip through its number. */
  lemma HashReadsBack(id: string)
    requires IsHash(id)
    ensures ToNumber(B16, id) < TWO_256
    ensures PadStart(ToText(B16, ToNumber(B16, id)), 64) == id
  {
    var n := ToNumber(B16, id);
    NumeralBound(B16, id);
    PowersOf16();
    TextLength(B16, n, 64);
    TextReadsBack(B16, n);
    PadKeepsValue(ToText(B16, n), 64);
    SameLengthSameValue(PadStart(ToText(B16, n), 64), id);
  }

  /** Every valid position fits the grammar and decodes to itself. */
  lemma EncodedDecodes(p: Position)
    requires ValidPosition(p)
    ensures InGrammar(EncodePosition(p))
    ensures DecodePosition(EncodePosition(p)) == Some(p)
  {
    var n := ToNumber(B16, p.jobId);
    HashReadsBack(p.jobId);
    PowersOf36();
    TextReadsBack(B36, n);
    TextReadsBack(B36, p.ms);
    TextIsCanonical(B36, n);
    TextIsCanonical(B36, p.ms);
    TextLength(B36, p.ms, 11);
    TextLength(B36, n, 50);
  }

  /** Any accepted spelling is the one its position encodes to: no position has two. */
  lemma AcceptedIsCanonical(c: Spelling)
    requires IsNumeral(B36, c.timestamp) && IsNumeral(B36, c.job) && DecodePosition(c).Some?
    ensures ValidPosition(DecodePosition(c).value)
    ensures EncodePosition(DecodePosition(c).value) == c
  {
    var n := ToNumber(B36, c.job);
    PadKeepsValue(ToText(B16, n), 64);
    TextReadsBack(B16, n);
  }

  /** Exactly what is accepted: canonical numerals within the two ranges. */
  lemma AcceptedExactlyInRange(c: Spelling)
    requires IsNumeral(B36, c.timestamp) && IsNumeral(B36, c.job)
    ensures DecodePosition(c).Some? <==>
              && Canonical(B36, c.timestamp) && ToNumber(B36, c.timestamp) <= MAX_TIME
              && Canonical(B36, c.job) && ToNumber(B36, c.job) < TWO_256
  {
    var ms, n := ToNumber(B36, c.timestamp), ToNumber(B36, c.job);
    TextIsCanonical(B36, ms);
    TextIsCanonical(B36, n);
    if Canonical(B36, c.timestamp) { CanonicalIsText(B36, c.timestamp); }
    if Canonical(B36, c.job) { CanonicalIsText(B36, c.job); }
    PowersOf16();
    TextLength(B16, n, 64);
    PadKeepsValue(ToText(B16, n), 64);
  }
}
