/** The three places that rank players: the comparison, the per-90 leaders and the range
    calculator. Each excludes what its comparator could not order. */
module Boards {
  import opened Options
  import opened Ranking

  const MAX_SAFE: nat := 9_007_199_254_740_991
  const TOP := 50

  function First(list: seq<Entry>): seq<Entry> {
    if |list| <= TOP then list else list[..TOP]
  }

  // ---------------------------------------------------------------- the comparison

  datatype Row = Row(id: string, total: Option<int>, minutes: Option<int>)

  predicate ValidRow(row: Row, minimum: int) {
    && row.total.Some? && 0 <= row.total.value <= MAX_SAFE
    && row.minutes.Some? && 0 < row.minutes.value <= MAX_SAFE && row.minutes.value >= minimum
  }

  function ValidEntries(rows: seq<Row>, minimum: int): seq<Entry> {
    if rows == [] then []
    else if ValidRow(rows[0], minimum)
    then [Entry(rows[0].id, rows[0].total.value, rows[0].minutes.value)] + ValidEntries(rows[1..], minimum)
    else ValidEntries(rows[1..], minimum)
  }

  function RankComparison(rows: seq<Row>, minimum: int): seq<Entry> {
    First(Sort(ByRateThenMinutes, ValidEntries(rows, minimum)))
  }

  ghost predicate DistinctIds(rows: seq<Row>) {
    forall i, j | 0 <= i < j < |rows| :: rows[i].id != rows[j].id
  }

  lemma {:induction false} ValidEntriesEligible(rows: seq<Row>, minimum: int)
    requires DistinctIds(rows)
    ensures Eligible(ByRateThenMinutes, ValidEntries(rows, minimum))
    ensures forall e | e in ValidEntries(rows, minimum) :: exists i :: 0 <= i < |rows| && rows[i].id == e.id
  {
    if rows != [] {
      var rest := ValidEntries(rows[1..], minimum);
      ValidEntriesEligible(rows[1..], minimum);
      hide Eligible;
      forall e | e in rest
        ensures exists i :: 0 <= i < |rows| && rows[i].id == e.id
        ensures e.id != rows[0].id
      {
        var i :| 0 <= i < |rows[1..]| && rows[1..][i].id == e.id;
        assert rows[i + 1].id == e.id;
      }
      if ValidRow(rows[0], minimum) {
        OneMoreEligible(ByRateThenMinutes, Entry(rows[0].id, rows[0].total.value, rows[0].minutes.value), rest);
      }
    }
  }

  lemma OneMoreEligible(board: Board, e: Entry, list: seq<Entry>)
    requires Eligible(board, list) && Rateable(board, e) && forall x | x in list :: x.id != e.id
    ensures Eligible(board, [e] + list)
  {
  }

  lemma {:induction false} ValidEntriesMultiset(rows: seq<Row>, minimum: int, i: nat)
    requires i < |rows|
    ensures multiset(ValidEntries(rows, minimum))
            == multiset(ValidEntries(rows[..i] + rows[i + 1..], minimum)) + multiset(ValidEntries([rows[i]], minimum))
  {
    hide ValidRow;
    var without := rows[..i] + rows[i + 1..];
    if i == 0 {
      assert without == rows[1..];
      assert [rows[0]][1..] == [];
    } else {
      ValidEntriesMultiset(rows[1..], minimum, i - 1);
      assert without[0] == rows[0];
      assert without[1..] == rows[1..][..i - 1] + rows[1..][i..];
    }
  }

  lemma WithoutOne(rows: seq<Row>, i: nat)
    requires i < |rows|
    ensures multiset(rows[..i] + rows[i + 1..]) == multiset(rows) - multiset{rows[i]}
  {
    assert rows == rows[..i] + ([rows[i]] + rows[i + 1..]);
  }

  lemma {:induction false} ValidEntriesIgnoreOrder(a: seq<Row>, b: seq<Row>, minimum: int)
    requires multiset(a) == multiset(b)
    ensures multiset(ValidEntries(a, minimum)) == multiset(ValidEntries(b, minimum))
  {
    hide ValidRow, ValidEntries;
    assert |multiset(a)| == |a| && |multiset(b)| == |b|;
    if a == [] {
      assert b == [];
    } else {
      assert a[0] in multiset(b);
      var i :| 0 <= i < |b| && b[i] == a[0];
      ValidEntriesMultiset(a, minimum, 0);
      ValidEntriesMultiset(b, minimum, i);
      WithoutOne(a, 0);
      WithoutOne(b, i);
      ValidEntriesIgnoreOrder(a[..0] + a[0 + 1..], b[..i] + b[i + 1..], minimum);
    }
  }

  /** The comparison does not depend on the order its rows came in. */
  lemma ComparisonIgnoresOrder(a: seq<Row>, b: seq<Row>, minimum: int)
    requires DistinctIds(a) && multiset(a) == multiset(b)
    ensures RankComparison(a, minimum) == RankComparison(b, minimum)
  {
    hide ValidEntries, Sort, Eligible, Ranked;
    var x, y := ValidEntries(a, minimum), ValidEntries(b, minimum);
    ValidEntriesEligible(a, minimum);
    ValidEntriesIgnoreOrder(a, b, minimum);
    SamePlayers(ByRateThenMinutes, x, y);
    SortRanks(ByRateThenMinutes, x);
    SortRanks(ByRateThenMinutes, y);
    SamePlayers(ByRateThenMinutes, x, Sort(ByRateThenMinutes, x));
    RankingIsUnique(ByRateThenMinutes, Sort(ByRateThenMinutes, x), Sort(ByRateThenMinutes, y));
  }

  /** At most fifty are kept; the kept ones are in exact rate order; and every eligible
      player that is cut is outranked by every one that is kept. */
  lemma NoCutRowOutranks(rows: seq<Row>, minimum: int, kept: Entry, cut: Entry)
    requires DistinctIds(rows)
    requires kept in RankComparison(rows, minimum)
    requires cut in ValidEntries(rows, minimum) && cut !in RankComparison(rows, minimum)
    ensures |RankComparison(rows, minimum)| == TOP
    ensures Rateable(ByRateThenMinutes, kept) && Rateable(ByRateThenMinutes, cut)
    ensures Outranks(ByRateThenMinutes, kept, cut)
  {
    hide ValidEntries, Sort, Outranks, Ahead;
    var entries := ValidEntries(rows, minimum);
    var sorted := Sort(ByRateThenMinutes, entries);
    ValidEntriesEligible(rows, minimum);
    SortRanks(ByRateThenMinutes, entries);
    SamePlayers(ByRateThenMinutes, entries, sorted);
    assert cut in multiset(sorted);
    var i :| 0 <= i < |sorted| && sorted[i] == cut;
    var j :| 0 <= j < |First(sorted)| && First(sorted)[j] == kept;
    assert |sorted| > TOP;
    assert i >= TOP && sorted[j] == kept;
    CompareIsExact(ByRateThenMinutes, kept, cut);
  }

  // ---------------------------------------------------------------- the per-90 leaders

  datatype Fact = Fact(total: Option<nat>, minutes: Option<nat>)

  datatype Reason = MissingRow | MissingNumerator | MissingMinutes | ZeroMinutes | BelowMinimum

  datatype Exclusion = Exclusion(id: string, reason: Reason)

  datatype Leaders = Leaders(leaders: seq<Entry>, excluded: seq<Exclusion>)

  function WhyNot(facts: map<string, Fact>, id: string, minimum: nat): Option<Reason> {
    if id !in facts then Some(MissingRow)
    else if facts[id].total.None? then Some(MissingNumerator)
    else if facts[id].minutes.None? then Some(MissingMinutes)
    else if facts[id].minutes.value == 0 then Some(ZeroMinutes)
    else if facts[id].minutes.value < minimum then Some(BelowMinimum)
    else None
  }

  function Candidates(ids: seq<string>, facts: map<string, Fact>, minimum: nat): seq<Entry> {
    if ids == [] then []
    else
      var front, id := ids[..|ids| - 1], ids[|ids| - 1];
      if WhyNot(facts, id, minimum).Some? then Candidates(front, facts, minimum)
      else Candidates(front, facts, minimum) + [Entry(id, facts[id].total.value, facts[id].minutes.value)]
  }

  function Excluded(ids: seq<string>, facts: map<string, Fact>, minimum: nat): seq<Exclusion> {
    if ids == [] then []
    else
      var front, id := ids[..|ids| - 1], ids[|ids| - 1];
      if WhyNot(facts, id, minimum).None? then Excluded(front, facts, minimum)
      else Excluded(front, facts, minimum) + [Exclusion(id, WhyNot(facts, id, minimum).value)]
  }

  /** `None` when 90 times a total is no longer a safe integer. */
  method CalculatePer90Leaders(ids: seq<string>, facts: map<string, Fact>, minimum: nat) returns (r: Option<Leaders>)
    ensures r.Some? <==> forall e | e in Candidates(ids, facts, minimum) :: 90 * e.total <= MAX_SAFE
    ensures r.Some? ==> r.value == Leaders(First(Sort(ByRateThenMinutes, Candidates(ids, facts, minimum))),
                                           Excluded(ids, facts, minimum))
  {
    hide WhyNot;
    var leaders: seq<Entry> := [];
    var excluded: seq<Exclusion> := [];
    assert ids[..0] == [];
    for i := 0 to |ids|
      invariant leaders == Candidates(ids[..i], facts, minimum) && excluded == Excluded(ids[..i], facts, minimum)
      invariant forall e | e in leaders :: 90 * e.total <= MAX_SAFE
    {
      assert ids[..i + 1][..i] == ids[..i];
      var id := ids[i];
      var reason := WhyNot(facts, id, minimum);
      if reason.Some? {
        excluded := excluded + [Exclusion(id, reason.value)];
      } else {
        var leader := Entry(id, LeaderFact(facts, id, minimum).total.value, facts[id].minutes.value);
        if 90 * leader.total > MAX_SAFE {
          CandidatesGrow(ids, facts, minimum, i + 1);
          assert leader in Candidates(ids[..i + 1], facts, minimum);
          return None;
        }
        leaders := leaders + [leader];
      }
    }
    assert ids[..|ids|] == ids;
    r := Some(Leaders(First(Sort(ByRateThenMinutes, leaders)), excluded));
  }

  function LeaderFact(facts: map<string, Fact>, id: string, minimum: nat): Fact
    requires WhyNot(facts, id, minimum).None?
    ensures id in facts && LeaderFact(facts, id, minimum) == facts[id]
    ensures facts[id].total.Some? && facts[id].minutes.Some? && facts[id].minutes.value > 0 && facts[id].minutes.value >= minimum
  {
    facts[id]
  }

  lemma {:induction false} CandidatesGrow(ids: seq<string>, facts: map<string, Fact>, minimum: nat, i: nat)
    requires i <= |ids|
    ensures forall e | e in Candidates(ids[..i], facts, minimum) :: e in Candidates(ids, facts, minimum)
    decreases |ids| - i
  {
    hide WhyNot;
    if i == |ids| {
      assert ids[..i] == ids;
    } else {
      CandidatesGrow(ids, facts, minimum, i + 1);
      assert ids[..i + 1][..i] == ids[..i];
    }
  }

  /** Candidates can be ranked, and are exactly those without a reason against them. */
  lemma {:induction false} CandidatesEligible(ids: seq<string>, facts: map<string, Fact>, minimum: nat)
    requires forall i, j | 0 <= i < j < |ids| :: ids[i] != ids[j]
    ensures Eligible(ByRateThenMinutes, Candidates(ids, facts, minimum))
    ensures forall e | e in Candidates(ids, facts, minimum) :: e.id in ids && WhyNot(facts, e.id, minimum).None?
    ensures forall id | id in ids :: WhyNot(facts, id, minimum).None? ==> exists e :: e in Candidates(ids, facts, minimum) && e.id == id
    ensures |Candidates(ids, facts, minimum)| + |Excluded(ids, facts, minimum)| == |ids|
  {
    if ids != [] {
      var front, id := ids[..|ids| - 1], ids[|ids| - 1];
      assert ids == front + [id];
      CandidatesEligible(front, facts, minimum);
      var before := Candidates(front, facts, minimum);
      if WhyNot(facts, id, minimum).None? {
        var added := Entry(id, LeaderFact(facts, id, minimum).total.value, facts[id].minutes.value);
        hide WhyNot;
        assert Candidates(ids, facts, minimum) == before + [added];
        assert forall e | e in before :: e.id != id;
        assert added in Candidates(ids, facts, minimum);
      }
    }
  }

  /** The leaders are the unique exact ranking of the candidates, cut at fifty. */
  lemma LeadersAreRanked(ids: seq<string>, facts: map<string, Fact>, minimum: nat, other: seq<Entry>)
    requires forall i, j | 0 <= i < j < |ids| :: ids[i] != ids[j]
    requires Ranked(ByRateThenMinutes, other) && multiset(other) == multiset(Candidates(ids, facts, minimum))
    ensures First(Sort(ByRateThenMinutes, Candidates(ids, facts, minimum))) == First(other)
  {
    hide Sort, Ranked, Eligible, Candidates;
    var candidates := Candidates(ids, facts, minimum);
    CandidatesEligible(ids, facts, minimum);
    SortRanks(ByRateThenMinutes, candidates);
    SamePlayers(ByRateThenMinutes, candidates, Sort(ByRateThenMinutes, candidates));
    RankingIsUnique(ByRateThenMinutes, Sort(ByRateThenMinutes, candidates), other);
  }

  // ---------------------------------------------------------------- the order of the players

  /** A list of players with no id twice holds each at most once. */
  lemma {:induction false} NoneTwice(board: Board, list: seq<Entry>, e: Entry)
    requires Eligible(board, list)
    ensures multiset(list)[e] <= 1
  {
    if list != [] {
      var rest := list[1..];
      assert list == [list[0]] + rest;
      assert forall i | 0 <= i < |rest| :: rest[i] == list[i + 1];
      NoneTwice(board, rest, e);
    }
  }

  /** Two such lists of the same players have one ranking. */
  lemma OneRanking(board: Board, a: seq<Entry>, b: seq<Entry>)
    requires Eligible(board, a) && Eligible(board, b) && forall e :: e in a <==> e in b
    ensures Sort(board, a) == Sort(board, b)
  {
    forall e
      ensures multiset(a)[e] == multiset(b)[e]
    {
      NoneTwice(board, a, e);
      NoneTwice(board, b, e);
      assert (e in multiset(a) <==> e in a) && (e in multiset(b) <==> e in b);
    }
    assert multiset(a) == multiset(b);
    hide Sort, Eligible, Ranked;
    SortRanks(board, a);
    SortRanks(board, b);
    SamePlayers(board, a, Sort(board, a));
    RankingIsUnique(board, Sort(board, a), Sort(board, b));
  }

  lemma {:induction false} CandidateIs(ids: seq<string>, facts: map<string, Fact>, minimum: nat, e: Entry)
    ensures e in Candidates(ids, facts, minimum) <==>
              e.id in ids && WhyNot(facts, e.id, minimum).None? && e == Entry(e.id, facts[e.id].total.value, facts[e.id].minutes.value)
  {
    if ids != [] {
      CandidateIs(ids[..|ids| - 1], facts, minimum, e);
      assert ids == ids[..|ids| - 1] + [ids[|ids| - 1]];
    }
  }

  /** The leaders do not depend on the order of the catalog's players. */
  lemma LeadersIgnoreOrder(ids: seq<string>, other: seq<string>, facts: map<string, Fact>, minimum: nat)
    requires forall i, j | 0 <= i < j < |ids| :: ids[i] != ids[j]
    requires forall i, j | 0 <= i < j < |other| :: other[i] != other[j]
    requires forall id :: id in ids <==> id in other
    ensures Sort(ByRateThenMinutes, Candidates(ids, facts, minimum)) == Sort(ByRateThenMinutes, Candidates(other, facts, minimum))
  {
    hide Candidates, WhyNot, Sort, Eligible;
    CandidatesEligible(ids, facts, minimum);
    CandidatesEligible(other, facts, minimum);
    forall e
      ensures e in Candidates(ids, facts, minimum) <==> e in Candidates(other, facts, minimum)
    {
      CandidateIs(ids, facts, minimum, e);
      CandidateIs(other, facts, minimum, e);
    }
    OneRanking(ByRateThenMinutes, Candidates(ids, facts, minimum), Candidates(other, facts, minimum));
  }

  // ---------------------------------------------------------------- the range calculator

  datatype Normalization = Total | Per90

  datatype Player = Player(id: string, total: Option<nat>, minutes: nat, missing: nat, comparable: bool)

  type Facts = map<(string, string), Fact>

  predicate Supported(facts: Facts, id: string, season: string) {
    (id, season) in facts && facts[(id, season)].total.Some? && facts[(id, season)].minutes.Some?
  }

  datatype Sums = Sums(total: nat, minutes: nat, supported: nat)

  /** Only seasons with both counters contribute. */
  function SumsOf(facts: Facts, id: string, seasons: seq<string>): Sums {
    if seasons == [] then Sums(0, 0, 0)
    else
      var rest, season := SumsOf(facts, id, seasons[..|seasons| - 1]), seasons[|seasons| - 1];
      if Supported(facts, id, season)
      then Sums(rest.total + facts[(id, season)].total.value, rest.minutes + facts[(id, season)].minutes.value, rest.supported + 1)
      else rest
  }

  /** The rules of comparability: nothing missing, something supported, minutes for a rate,
      and the minimum met. */
  function PlayerOf(facts: Facts, id: string, seasons: seq<string>, n: Normalization, minimum: nat): Player {
    var s := SumsOf(facts, id, seasons);
    var missing := if s.supported <= |seasons| then |seasons| - s.supported else 0;
    Player(id, if s.supported > 0 then Some(s.total) else None, s.minutes, missing,
           missing == 0 && s.supported > 0 && !(n == Per90 && s.minutes == 0) && s.minutes >= minimum)
  }

  function BoardFor(n: Normalization): Board {
    if n == Total then ByTotal else ByRate
  }

  function Comparable(facts: Facts, ids: seq<string>, seasons: seq<string>, n: Normalization, minimum: nat): seq<Entry> {
    if ids == [] then []
    else
      var front, p := Comparable(facts, ids[..|ids| - 1], seasons, n, minimum),
                      PlayerOf(facts, ids[|ids| - 1], seasons, n, minimum);
      if p.comparable && p.total.Some? then front + [Entry(p.id, p.total.value, p.minutes)] else front
  }

  /** One player's reduction over the seasons, with its overflow checks. */
  method PlayerSums(facts: Facts, id: string, seasons: seq<string>) returns (s: Option<Sums>)
    ensures s.Some? <==> SumsOf(facts, id, seasons).total * 90 <= MAX_SAFE && SumsOf(facts, id, seasons).minutes <= MAX_SAFE
    ensures s.Some? ==> s.value == SumsOf(facts, id, seasons)
  {
    hide Supported;
    var total: nat, minutes: nat, supported: nat := 0, 0, 0;
    assert seasons[..0] == [];
    for i := 0 to |seasons|
      invariant Sums(total, minutes, supported) == SumsOf(facts, id, seasons[..i])
      invariant total <= MAX_SAFE && minutes <= MAX_SAFE
    {
      assert seasons[..i + 1][..i] == seasons[..i];
      SumsGrow(facts, id, seasons, i + 1);
      if Supported(facts, id, seasons[i]) {
        var fact := SupportedFact(facts, id, seasons[i]);
        total, minutes, supported := total + fact.total.value, minutes + fact.minutes.value, supported + 1;
        if total > MAX_SAFE || minutes > MAX_SAFE {
          return None;
        }
      }
    }
    assert seasons[..|seasons|] == seasons;
    if total * 90 > MAX_SAFE {
      return None;
    }
    s := Some(Sums(total, minutes, supported));
  }

  function SupportedFact(facts: Facts, id: string, season: string): Fact
    requires Supported(facts, id, season)
    ensures (id, season) in facts && SupportedFact(facts, id, season) == facts[(id, season)]
    ensures SupportedFact(facts, id, season).total.Some? && SupportedFact(facts, id, season).minutes.Some?
  {
    facts[(id, season)]
  }

  lemma {:induction false} SumsGrow(facts: Facts, id: string, seasons: seq<string>, i: nat)
    requires i <= |seasons|
    ensures SumsOf(facts, id, seasons[..i]).total <= SumsOf(facts, id, seasons).total
    ensures SumsOf(facts, id, seasons[..i]).minutes <= SumsOf(facts, id, seasons).minutes
    decreases |seasons| - i
  {
    if i == |seasons| {
      assert seasons[..i] == seasons;
    } else {
      SumsGrow(facts, id, seasons, i + 1);
      assert seasons[..i + 1][..i] == seasons[..i];
    }
  }

  /** What the comparator rests on: whoever is comparable has a total, and minutes where a
      rate is asked for. */
  lemma {:induction false} ComparableAreRateable(facts: Facts, ids: seq<string>, seasons: seq<string>, n: Normalization, minimum: nat)
    requires forall i, j | 0 <= i < j < |ids| :: ids[i] != ids[j]
    ensures Eligible(BoardFor(n), Comparable(facts, ids, seasons, n, minimum))
    ensures forall e | e in Comparable(facts, ids, seasons, n, minimum) ::
              e.id in ids && e.minutes >= minimum && forall s | s in seasons :: Supported(facts, e.id, s)
  {
    if ids != [] {
      var front, id := ids[..|ids| - 1], ids[|ids| - 1];
      assert ids == front + [id];
      ComparableAreRateable(facts, front, seasons, n, minimum);
      AllSupported(facts, id, seasons);
      hide Supported, SumsOf;
      assert forall e | e in Comparable(facts, front, seasons, n, minimum) :: e.id != id;
    }
  }

  lemma {:induction false} AllSupported(facts: Facts, id: string, seasons: seq<string>)
    ensures SumsOf(facts, id, seasons).supported <= |seasons|
    ensures SumsOf(facts, id, seasons).supported == |seasons| ==> forall s | s in seasons :: Supported(facts, id, s)
  {
    if seasons != [] {
      AllSupported(facts, id, seasons[..|seasons| - 1]);
      assert seasons == seasons[..|seasons| - 1] + [seasons[|seasons| - 1]];
    }
  }

  /** The range's ranking is the one sorted permutation of the comparable players. */
  lemma RangeIsRanked(facts: Facts, ids: seq<string>, seasons: seq<string>, n: Normalization, minimum: nat, other: seq<Entry>)
    requires forall i, j | 0 <= i < j < |ids| :: ids[i] != ids[j]
    requires Ranked(BoardFor(n), other) && multiset(other) == multiset(Comparable(facts, ids, seasons, n, minimum))
    ensures Sort(BoardFor(n), Comparable(facts, ids, seasons, n, minimum)) == other
  {
    hide Sort, Ranked, Eligible, Comparable;
    var players := Comparable(facts, ids, seasons, n, minimum);
    ComparableAreRateable(facts, ids, seasons, n, minimum);
    SortRanks(BoardFor(n), players);
    SamePlayers(BoardFor(n), players, Sort(BoardFor(n), players));
    RankingIsUnique(BoardFor(n), Sort(BoardFor(n), players), other);
  }

  lemma {:induction false} ComparableIs(facts: Facts, ids: seq<string>, seasons: seq<string>, n: Normalization, minimum: nat, e: Entry)
    ensures e in Comparable(facts, ids, seasons, n, minimum) <==>
              var p := PlayerOf(facts, e.id, seasons, n, minimum);
              e.id in ids && p.comparable && p.total.Some? && e == Entry(p.id, p.total.value, p.minutes)
  {
    hide SumsOf;
    if ids != [] {
      ComparableIs(facts, ids[..|ids| - 1], seasons, n, minimum, e);
      assert ids == ids[..|ids| - 1] + [ids[|ids| - 1]];
    }
  }

  /** The range's ranking does not depend on the order in which players were asked for. */
  lemma RangeIgnoresOrder(facts: Facts, ids: seq<string>, other: seq<string>, seasons: seq<string>, n: Normalization, minimum: nat)
    requires forall i, j | 0 <= i < j < |ids| :: ids[i] != ids[j]
    requires forall i, j | 0 <= i < j < |other| :: other[i] != other[j]
    requires forall id :: id in ids <==> id in other
    ensures Sort(BoardFor(n), Comparable(facts, ids, seasons, n, minimum)) == Sort(BoardFor(n), Comparable(facts, other, seasons, n, minimum))
  {
    hide Comparable, PlayerOf, Sort, Eligible;
    ComparableAreRateable(facts, ids, seasons, n, minimum);
    ComparableAreRateable(facts, other, seasons, n, minimum);
    forall e
      ensures e in Comparable(facts, ids, seasons, n, minimum) <==> e in Comparable(facts, other, seasons, n, minimum)
    {
      ComparableIs(facts, ids, seasons, n, minimum, e);
      ComparableIs(facts, other, seasons, n, minimum, e);
    }
    OneRanking(BoardFor(n), Comparable(facts, ids, seasons, n, minimum), Comparable(facts, other, seasons, n, minimum));
  }
}
