/** The three boards written out: who is on them, with which numbers, in which order, and
    why the others are not. */
module BoardAnswers {
  import opened Boards
  import opened Options
  import opened Ranking

  // ---------------------------------------------------------------- ordered and cut

  /** The first fifty of a ranking, or all of it: each ahead of the later ones. */
  ghost predicate IsTop(board: Board, list: seq<Entry>, players: seq<Entry>) {
    && |list| == (if |players| < 50 then |players| else 50)
    && (forall e | e in list :: e in players && Rateable(board, e))
    && (forall i, j | 0 <= i < j < |list| :: list[i].id != list[j].id && Outranks(board, list[i], list[j]))
    && (forall e, x | e in list && x in players && x !in list :: Rateable(board, x) && Outranks(board, e, x))
  }

  lemma SortedTop(board: Board, players: seq<Entry>)
    requires Eligible(board, players)
    ensures IsTop(board, First(Sort(board, players)), players)
  {
    hide Sort, Outranks, Ahead, Rateable;
    var sorted := Sort(board, players);
    SortRanks(board, players);
    SamePlayers(board, players, sorted);
    SameElements(players, sorted);
    forall i, j | 0 <= i < j < |sorted|
      ensures Outranks(board, sorted[i], sorted[j])
    {
      assert Ahead(board, sorted[i], sorted[j]);
      CompareIsExact(board, sorted[i], sorted[j]);
    }
  }

  lemma SameElements(a: seq<Entry>, b: seq<Entry>)
    requires multiset(a) == multiset(b)
    ensures |a| == |b| && forall e :: e in a <==> e in b
  {
    assert |multiset(a)| == |a| && |multiset(b)| == |b|;
    assert forall e :: (e in a <==> e in multiset(a)) && (e in b <==> e in multiset(b));
  }

  // ---------------------------------------------------------------- the comparison

  /** The rows that are compared, with both counters safe and minutes enough. */
  lemma {:induction false} ComparedExactly(rows: seq<Row>, minimum: int, e: Entry)
    ensures e in ValidEntries(rows, minimum) <==>
              exists x :: x in rows && x.total == Some(e.total) && x.minutes == Some(e.minutes) && x.id == e.id
                          && e.total <= 9_007_199_254_740_991 && 1 <= e.minutes <= 9_007_199_254_740_991 && minimum <= e.minutes
  {
    if rows != [] {
      ComparedExactly(rows[1..], minimum, e);
      assert rows == [rows[0]] + rows[1..];
    }
  }

  lemma ComparisonAnswer(rows: seq<Row>, minimum: int)
    requires forall i, j | 0 <= i < j < |rows| :: rows[i].id != rows[j].id
    ensures IsTop(ByRateThenMinutes, RankComparison(rows, minimum), ValidEntries(rows, minimum))
  {
    hide ValidEntries, Sort, Eligible;
    ValidEntriesEligible(rows, minimum);
    SortedTop(ByRateThenMinutes, ValidEntries(rows, minimum));
  }

  // ---------------------------------------------------------------- the leaders

  /** The first reason that applies, in the order of the tests. */
  lemma ReasonExactly(facts: map<string, Fact>, id: string, minimum: nat)
    ensures var there := id in facts;
            var whole := there && facts[id].total.Some? && facts[id].minutes.Some?;
            match WhyNot(facts, id, minimum)
            case None => whole && 1 <= facts[id].minutes.value && minimum <= facts[id].minutes.value
            case Some(MissingRow) => !there
            case Some(MissingNumerator) => there && facts[id].total.None?
            case Some(MissingMinutes) => there && facts[id].total.Some? && facts[id].minutes.None?
            case Some(ZeroMinutes) => whole && facts[id].minutes.value == 0
            case Some(BelowMinimum) => whole && 1 <= facts[id].minutes.value < minimum
  {
  }

  /** Each leader is a player with counters and minutes enough, with those counters. */
  lemma LeadExactly(ids: seq<string>, facts: map<string, Fact>, minimum: nat, e: Entry)
    ensures e in Candidates(ids, facts, minimum) <==>
              && e.id in ids && e.id in facts && facts[e.id] == Fact(Some(e.total), Some(e.minutes))
              && 1 <= e.minutes && minimum <= e.minutes
  {
    CandidateIs(ids, facts, minimum, e);
    ReasonExactly(facts, e.id, minimum);
    hide Candidates;
  }

  /** The excluded are the others, each with its reason, in the order of the players. */
  lemma {:induction false} ExcludedExactly(ids: seq<string>, facts: map<string, Fact>, minimum: nat, x: Exclusion)
    ensures x in Excluded(ids, facts, minimum) <==> x.id in ids && WhyNot(facts, x.id, minimum) == Some(x.reason)
  {
    hide WhyNot;
    if ids != [] {
      ExcludedExactly(ids[..|ids| - 1], facts, minimum, x);
      assert ids == ids[..|ids| - 1] + [ids[|ids| - 1]];
    }
  }

  lemma {:induction false} ExcludedInOrder(ids: seq<string>, facts: map<string, Fact>, minimum: nat, i: nat, j: nat)
    requires i < j < |Excluded(ids, facts, minimum)|
    ensures exists a, b :: 0 <= a < b < |ids| && ids[a] == Excluded(ids, facts, minimum)[i].id && ids[b] == Excluded(ids, facts, minimum)[j].id
  {
    hide WhyNot;
    var front, before := ids[..|ids| - 1], Excluded(ids[..|ids| - 1], facts, minimum);
    if j < |before| {
      ExcludedInOrder(front, facts, minimum, i, j);
      var a, b :| 0 <= a < b < |front| && front[a] == before[i].id && front[b] == before[j].id;
      assert ids[a] == before[i].id && ids[b] == before[j].id;
    } else {
      ExcludedExactly(front, facts, minimum, before[i]);
      var a :| 0 <= a < |front| && front[a] == before[i].id;
      assert ids[a] == before[i].id;
      assert ids[|ids| - 1] == Excluded(ids, facts, minimum)[j].id;
    }
  }

  lemma LeadersAnswer(ids: seq<string>, facts: map<string, Fact>, minimum: nat)
    requires forall i, j | 0 <= i < j < |ids| :: ids[i] != ids[j]
    ensures IsTop(ByRateThenMinutes, First(Sort(ByRateThenMinutes, Candidates(ids, facts, minimum))), Candidates(ids, facts, minimum))
  {
    hide Candidates, Sort, Eligible;
    CandidatesEligible(ids, facts, minimum);
    SortedTop(ByRateThenMinutes, Candidates(ids, facts, minimum));
  }

  // ---------------------------------------------------------------- the range

  /** Both counters of a player in a season. */
  predicate Has(facts: Facts, id: string, season: string) {
    (id, season) in facts && facts[(id, season)].total != None && facts[(id, season)].minutes != None
  }

  function TotalIn(facts: Facts, id: string, seasons: seq<string>): nat {
    if seasons == [] then 0
    else (if Has(facts, id, seasons[0]) then facts[(id, seasons[0])].total.value else 0) + TotalIn(facts, id, seasons[1..])
  }

  function MinutesIn(facts: Facts, id: string, seasons: seq<string>): nat {
    if seasons == [] then 0
    else (if Has(facts, id, seasons[0]) then facts[(id, seasons[0])].minutes.value else 0) + MinutesIn(facts, id, seasons[1..])
  }

  function SeasonsWith(facts: Facts, id: string, seasons: seq<string>): nat {
    if seasons == [] then 0 else (if Has(facts, id, seasons[0]) then 1 else 0) + SeasonsWith(facts, id, seasons[1..])
  }

  lemma {:induction false} OneSeasonMore(facts: Facts, id: string, front: seq<string>, season: string)
    ensures TotalIn(facts, id, front + [season]) == TotalIn(facts, id, front) + TotalIn(facts, id, [season])
    ensures MinutesIn(facts, id, front + [season]) == MinutesIn(facts, id, front) + MinutesIn(facts, id, [season])
    ensures SeasonsWith(facts, id, front + [season]) == SeasonsWith(facts, id, front) + SeasonsWith(facts, id, [season])
  {
    if front == [] {
      assert [] + [season] == [season];
    } else {
      OneSeasonMore(facts, id, front[1..], season);
      assert (front + [season])[1..] == front[1..] + [season];
    }
  }

  /** The reduction, whichever way the seasons are gone through. */
  lemma {:induction false} SumsExactly(facts: Facts, id: string, seasons: seq<string>)
    ensures SumsOf(facts, id, seasons) == Sums(TotalIn(facts, id, seasons), MinutesIn(facts, id, seasons), SeasonsWith(facts, id, seasons))
  {
    if seasons != [] {
      var front, season := seasons[..|seasons| - 1], seasons[|seasons| - 1];
      SumsExactly(facts, id, front);
      OneSeasonMore(facts, id, front, season);
      assert seasons == front + [season] && [season][1..] == [];
    }
  }

  lemma {:induction false} WithAll(facts: Facts, id: string, seasons: seq<string>)
    ensures SeasonsWith(facts, id, seasons) <= |seasons|
    ensures SeasonsWith(facts, id, seasons) == |seasons| <==> forall s | s in seasons :: Has(facts, id, s)
  {
    hide Has;
    if seasons != [] {
      WithAll(facts, id, seasons[1..]);
      assert seasons == [seasons[0]] + seasons[1..];
    }
  }

  /** A player's line: the sums over the seasons with both counters, how many have not, and
      whether the player is comparable: none is missing, at least one is asked for, and the
      minutes meet the minimum and allow a rate. */
  lemma PlayerAnswer(facts: Facts, id: string, seasons: seq<string>, n: Normalization, minimum: nat)
    ensures var p := PlayerOf(facts, id, seasons, n, minimum);
            && p.id == id && p.minutes == MinutesIn(facts, id, seasons) && p.missing == |seasons| - SeasonsWith(facts, id, seasons)
            && p.total == (if SeasonsWith(facts, id, seasons) > 0 then Some(TotalIn(facts, id, seasons)) else None)
            && (p.comparable <==>
                  && seasons != [] && (forall s | s in seasons :: Has(facts, id, s))
                  && minimum <= MinutesIn(facts, id, seasons) && (n == Per90 ==> MinutesIn(facts, id, seasons) > 0))
  {
    hide SumsOf, TotalIn, MinutesIn, Has;
    SumsExactly(facts, id, seasons);
    WithAll(facts, id, seasons);
  }

  /** The comparable players are all of those and no others. */
  lemma ComparableExactly(facts: Facts, ids: seq<string>, seasons: seq<string>, n: Normalization, minimum: nat, e: Entry)
    ensures e in Comparable(facts, ids, seasons, n, minimum) <==>
              && e.id in ids && seasons != [] && (forall s | s in seasons :: Has(facts, e.id, s))
              && e.total == TotalIn(facts, e.id, seasons) && e.minutes == MinutesIn(facts, e.id, seasons)
              && minimum <= e.minutes && (n == Per90 ==> e.minutes > 0)
  {
    hide Comparable, PlayerOf, TotalIn, MinutesIn, Has;
    ComparableIs(facts, ids, seasons, n, minimum, e);
    PlayerAnswer(facts, e.id, seasons, n, minimum);
    WithAll(facts, e.id, seasons);
  }

  /** The ranking: by total or by rate, and by id where these are equal. */
  lemma RangeAnswer(facts: Facts, ids: seq<string>, seasons: seq<string>, n: Normalization, minimum: nat, i: nat, j: nat)
    requires forall a, b | 0 <= a < b < |ids| :: ids[a] != ids[b]
    requires i < j < |Sort(BoardFor(n), Comparable(facts, ids, seasons, n, minimum))|
    ensures var players := Comparable(facts, ids, seasons, n, minimum);
            var list, board := Sort(BoardFor(n), players), if n == Per90 then ByRate else ByTotal;
            && multiset(list) == multiset(players)
            && Rateable(board, list[i]) && Rateable(board, list[j]) && Outranks(board, list[i], list[j])
  {
    var players, board := Comparable(facts, ids, seasons, n, minimum), if n == Per90 then ByRate else ByTotal;
    ComparableAreRateable(facts, ids, seasons, n, minimum);
    assert board == BoardFor(n);
    hide Comparable, Sort, Outranks, Ahead, Rateable;
    SortRanks(board, players);
    var list := Sort(board, players);
    SamePlayers(board, players, list);
    assert Ahead(board, list[i], list[j]);
    CompareIsExact(board, list[i], list[j]);
  }
}
