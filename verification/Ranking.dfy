/** Ranking by exact rates: comparators that cross-multiply instead of dividing, and the
    rankings sorted by them. */
module Ranking {
  import opened Canonical

  datatype Entry = Entry(id: string, total: nat, minutes: nat)

  /** Range totals, range rates, and the comparison and leader boards, which break ties by
      minutes first. */
  datatype Board = ByTotal | ByRate | ByRateThenMinutes

  function CompareIds(a: string, b: string): int {
    if Before(ByCodeUnit, a, b) then -1 else if Before(ByCodeUnit, b, a) then 1 else 0
  }

  /** The sort callbacks: negative puts `a` first. */
  function Compare(board: Board, a: Entry, b: Entry): int {
    match board
    case ByTotal =>
      var difference := b.total - a.total;
      if difference > 0 then 1 else if difference < 0 then -1 else if Before(ByCodeUnit, a.id, b.id) then -1 else 1
    case ByRate =>
      var difference := b.total * a.minutes - a.total * b.minutes;
      if difference > 0 then 1 else if difference < 0 then -1 else if Before(ByCodeUnit, a.id, b.id) then -1 else 1
    case ByRateThenMinutes =>
      var difference := b.total * a.minutes - a.total * b.minutes;
      if difference > 0 then 1
      else if difference < 0 then -1
      else if b.minutes != a.minutes then b.minutes - a.minutes
      else CompareIds(a.id, b.id)
  }

  predicate Ahead(board: Board, a: Entry, b: Entry) {
    Compare(board, a, b) < 0
  }

  /** What a board requires of an entry: a rate needs minutes. */
  predicate Rateable(board: Board, e: Entry) {
    board == ByTotal || e.minutes > 0
  }

  // ---------------------------------------------------------------- the reference order

  function Rate(e: Entry): real
    requires e.minutes > 0
  {
    e.total as real / e.minutes as real
  }

  /** What the boards promise, in exact rational arithmetic. */
  predicate Outranks(board: Board, a: Entry, b: Entry)
    requires Rateable(board, a) && Rateable(board, b)
  {
    match board
    case ByTotal => a.total > b.total || (a.total == b.total && Before(ByCodeUnit, a.id, b.id))
    case ByRate => Rate(a) > Rate(b) || (Rate(a) == Rate(b) && Before(ByCodeUnit, a.id, b.id))
    case ByRateThenMinutes =>
      || Rate(a) > Rate(b)
      || (Rate(a) == Rate(b) && a.minutes > b.minutes)
      || (Rate(a) == Rate(b) && a.minutes == b.minutes && Before(ByCodeUnit, a.id, b.id))
  }

  lemma {:induction false} ProductAsReal(x: nat, y: nat)
    ensures (x * y) as real == x as real * y as real
  {
    if y > 0 {
      ProductAsReal(x, y - 1);
      assert x * y == x * (y - 1) + x;
    }
  }

  /** Comparing products is comparing quotients. */
  lemma CrossMultiply(p: real, q: real, r: real, s: real)
    requires q > 0.0 && s > 0.0
    ensures p * s > r * q <==> p / q > r / s
    ensures p * s == r * q <==> p / q == r / s
  {
    var x, y := p / q, r / s;
    assert p == x * q && r == y * s;
    assert p * s - r * q == (x - y) * (q * s);
    assert q * s > 0.0;
    SignOfProduct(x - y, q * s);
  }

  lemma SignOfProduct(d: real, w: real)
    requires w > 0.0
    ensures d * w > 0.0 <==> d > 0.0
    ensures d * w == 0.0 <==> d == 0.0
  {
    if d > 0.0 {
      assert d * w > 0.0;
    } else if d < 0.0 {
      assert (0.0 - d) * w > 0.0;
    }
  }

  lemma RatesCompare(a: Entry, b: Entry)
    requires a.minutes > 0 && b.minutes > 0
    ensures a.total * b.minutes > b.total * a.minutes <==> Rate(a) > Rate(b)
    ensures a.total * b.minutes == b.total * a.minutes <==> Rate(a) == Rate(b)
  {
    ProductAsReal(a.total, b.minutes);
    ProductAsReal(b.total, a.minutes);
    CrossMultiply(a.total as real, a.minutes as real, b.total as real, b.minutes as real);
  }

  /** Every comparator decides the exact order, and never ties two different players. */
  lemma CompareIsExact(board: Board, a: Entry, b: Entry)
    requires Rateable(board, a) && Rateable(board, b) && a.id != b.id
    ensures Ahead(board, a, b) <==> Outranks(board, a, b)
    ensures Compare(board, a, b) != 0
    ensures Ahead(board, a, b) <==> Compare(board, b, a) > 0
  {
    hide Before, Rate;
    OrderIsTotal(ByCodeUnit, a.id, b.id);
    OrderIsTotal(ByCodeUnit, b.id, a.id);
    if board != ByTotal {
      RatesCompare(a, b);
      RatesCompare(b, a);
    }
  }

  /** A strict total order: of two players exactly one is ahead, and being ahead chains. */
  lemma OutranksIsTotal(board: Board, a: Entry, b: Entry)
    requires Rateable(board, a) && Rateable(board, b) && a.id != b.id
    ensures Outranks(board, a, b) <==> !Outranks(board, b, a)
  {
    hide Before, Rate;
    OrderIsTotal(ByCodeUnit, a.id, b.id);
  }

  lemma OutranksIsTransitive(board: Board, a: Entry, b: Entry, c: Entry)
    requires Rateable(board, a) && Rateable(board, b) && Rateable(board, c)
    requires Outranks(board, a, b) && Outranks(board, b, c)
    ensures Outranks(board, a, c)
  {
    hide Before, Rate;
    if Before(ByCodeUnit, a.id, b.id) && Before(ByCodeUnit, b.id, c.id) {
      OrderIsTransitive(ByCodeUnit, a.id, b.id, c.id);
    }
  }

  /** Without the exclusion of zero minutes the callback is no order: a player without
      minutes ties with everyone on rate, and the ties close a cycle. */
  lemma ZeroMinutesBreakTheOrder()
    ensures var a, z, b := Entry("b", 1, 1), Entry("c", 0, 0), Entry("d", 2, 1);
            Ahead(ByRate, a, z) && Ahead(ByRate, z, b) && Ahead(ByRate, b, a)
  {
  }

  // ---------------------------------------------------------------- sorted permutations

  ghost predicate Eligible(board: Board, list: seq<Entry>) {
    && (forall i | 0 <= i < |list| :: Rateable(board, list[i]))
    && (forall i, j | 0 <= i < j < |list| :: list[i].id != list[j].id)
  }

  ghost predicate Ranked(board: Board, list: seq<Entry>) {
    forall i, j | 0 <= i < j < |list| :: Ahead(board, list[i], list[j])
  }

  function Insert(board: Board, e: Entry, list: seq<Entry>): seq<Entry> {
    if list == [] then [e]
    else if Ahead(board, list[0], e) then [list[0]] + Insert(board, e, list[1..])
    else [e] + list
  }

  function Sort(board: Board, list: seq<Entry>): seq<Entry> {
    if list == [] then [] else Insert(board, list[0], Sort(board, list[1..]))
  }

  lemma AheadChains(board: Board, a: Entry, b: Entry, c: Entry)
    requires Rateable(board, a) && Rateable(board, b) && Rateable(board, c)
    requires a.id != b.id && b.id != c.id && a.id != c.id
    requires Ahead(board, a, b) && Ahead(board, b, c)
    ensures Ahead(board, a, c)
  {
    hide Ahead, Outranks, Compare;
    CompareIsExact(board, a, b);
    CompareIsExact(board, b, c);
    CompareIsExact(board, a, c);
    OutranksIsTransitive(board, a, b, c);
  }

  lemma EitherAhead(board: Board, a: Entry, b: Entry)
    requires Rateable(board, a) && Rateable(board, b) && a.id != b.id
    ensures Ahead(board, a, b) <==> !Ahead(board, b, a)
  {
    hide Outranks;
    CompareIsExact(board, a, b);
    CompareIsExact(board, b, a);
    OutranksIsTotal(board, a, b);
  }

  lemma RankedTail(board: Board, list: seq<Entry>)
    requires Ranked(board, list) && Eligible(board, list) && list != []
    ensures Ranked(board, list[1..]) && Eligible(board, list[1..]) && Rateable(board, list[0])
    ensures multiset(list) == multiset{list[0]} + multiset(list[1..])
    ensures forall x | x in list[1..] :: Ahead(board, list[0], x) && x.id != list[0].id && Rateable(board, x)
  {
    hide Ahead, Rateable;
    assert list == [list[0]] + list[1..];
  }

  lemma RankedCons(board: Board, e: Entry, list: seq<Entry>)
    requires Ranked(board, list) && forall x | x in list :: Ahead(board, e, x)
    ensures Ranked(board, [e] + list)
  {
    hide Ahead;
  }

  lemma {:induction false} InsertRanks(board: Board, e: Entry, list: seq<Entry>)
    requires Ranked(board, list) && Eligible(board, list) && Rateable(board, e)
    requires forall x | x in list :: x.id != e.id
    ensures Ranked(board, Insert(board, e, list))
    ensures multiset(Insert(board, e, list)) == multiset(list) + multiset{e}
  {
    hide Ahead, Rateable, Eligible;
    if list != [] {
      hide Ranked;
      var head, rest := list[0], list[1..];
      RankedTail(board, list);
      EitherAhead(board, head, e);
      if Ahead(board, head, e) {
        InsertRanks(board, e, rest);
        var inserted := Insert(board, e, rest);
        assert Insert(board, e, list) == [head] + inserted;
        hide Insert;
        forall x | x in inserted
          ensures Ahead(board, head, x)
        {
          assert x in multiset(inserted);
        }
        RankedCons(board, head, inserted);
      } else {
        forall x | x in list
          ensures Ahead(board, e, x)
        {
          if x != head {
            assert x in multiset(list);
            AheadChains(board, e, head, x);
          }
        }
        RankedCons(board, e, list);
      }
    }
  }

  lemma SamePlayers(board: Board, a: seq<Entry>, b: seq<Entry>)
    requires Eligible(board, a) && multiset(a) == multiset(b)
    ensures Eligible(board, b)
  {
    hide Rateable;
    forall i, j | 0 <= i < j < |b|
      ensures b[i].id != b[j].id
    {
      if b[i].id == b[j].id {
        assert b[i] in multiset(a) && b[j] in multiset(a);
        var k :| 0 <= k < |a| && a[k] == b[i];
        var l :| 0 <= l < |a| && a[l] == b[j];
        assert b[i] == b[j];
        TwiceInMultiset(b, i, j);
        OnceInMultiset(board, a, k);
        assert false;
      }
    }
    forall i | 0 <= i < |b|
      ensures Rateable(board, b[i])
    {
      assert b[i] in multiset(a);
    }
  }

  lemma TwiceInMultiset(list: seq<Entry>, i: nat, j: nat)
    requires i < j < |list| && list[i] == list[j]
    ensures multiset(list)[list[i]] >= 2
  {
    assert list == list[..j] + ([list[j]] + list[j + 1..]);
    assert list[..j][i] == list[i];
    assert list[i] in multiset(list[..j]);
  }

  lemma OnceInMultiset(board: Board, list: seq<Entry>, k: nat)
    requires Eligible(board, list) && k < |list|
    ensures multiset(list)[list[k]] == 1
  {
    var e := list[k];
    assert list == list[..k] + ([e] + list[k + 1..]);
    assert e !in list[..k] && e !in list[k + 1..];
  }

  lemma EligibleTail(board: Board, list: seq<Entry>)
    requires Eligible(board, list) && list != []
    ensures Eligible(board, list[1..]) && Rateable(board, list[0]) && forall x | x in list[1..] :: x.id != list[0].id
    ensures multiset(list) == multiset{list[0]} + multiset(list[1..])
  {
    hide Rateable;
    assert list == [list[0]] + list[1..];
  }

  lemma {:induction false} SortRanks(board: Board, list: seq<Entry>)
    requires Eligible(board, list)
    ensures Ranked(board, Sort(board, list)) && multiset(Sort(board, list)) == multiset(list)
  {
    hide Ahead, Rateable, Eligible, Insert;
    if list != [] {
      var rest := list[1..];
      EligibleTail(board, list);
      SortRanks(board, rest);
      var sorted := Sort(board, rest);
      SamePlayers(board, rest, sorted);
      forall x | x in sorted
        ensures x.id != list[0].id
      {
        assert x in multiset(rest);
      }
      InsertRanks(board, list[0], sorted);
    }
  }

  /** A ranking is the only sorted permutation: whatever sorts, and in whatever order the
      players come, the result is one and the same. */
  lemma {:induction false} RankingIsUnique(board: Board, a: seq<Entry>, b: seq<Entry>)
    requires Eligible(board, a) && Ranked(board, a) && Ranked(board, b) && multiset(a) == multiset(b)
    ensures a == b
  {
    hide Ahead, Rateable, Eligible, Ranked;
    assert |multiset(a)| == |a| && |multiset(b)| == |b|;
    if a != [] {
      SamePlayers(board, a, b);
      RankedTail(board, a);
      RankedTail(board, b);
      assert a[0] in multiset(b) && b[0] in multiset(a);
      if a[0] != b[0] {
        assert a[0] in b[1..] && b[0] in a[1..];
        EitherAhead(board, a[0], b[0]);
        assert false;
      }
      assert multiset(a[1..]) == multiset(a) - multiset{a[0]};
      assert multiset(b[1..]) == multiset(b) - multiset{b[0]};
      RankingIsUnique(board, a[1..], b[1..]);
    }
  }
}
