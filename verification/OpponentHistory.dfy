/** The history against one opponent: the same rows as the season splits, summed a second
    way, per season and combined. */
module OpponentHistory {
  import opened Options
  import opened SeasonSplits
  import opened SplitLaws

  datatype SeasonRecord = SeasonRecord(season: string, coverage: Coverage, status: Status, record: Option<Shown>)

  datatype HistoryStatus = PartialHistory | FullHistory | NothingPlayed

  datatype History = History(
    seasons: seq<SeasonRecord>, combined: Option<Shown>, partial: bool, status: HistoryStatus, contributing: seq<string>)

  /** A summed record as it is shown: counters, lineage, points and goal difference. */
  function Show(b: Bucket): Shown {
    Shown(b, b.totals.Points(), b.totals.GoalDifference())
  }

  predicate HistoryRow(row: Row, m: Metadata, r: Request, approved: set<string>) {
    ValidRow(row, m) && row.opponent in approved && Matches(row, r)
  }

  /** What the history accepts: one approved opponent, and no row outside the selection. */
  ghost predicate HistoryAcceptable(m: Metadata, r: Request, rows: seq<Row>, approved: set<string>) {
    && ValidRequest(r, m) && r.groupBy == ByOpponent && r.opponent.Some? && r.opponent.value in approved
    && |rows| <= MAX_ROWS
    && (forall i | 0 <= i < |rows| :: HistoryRow(rows[i], m, r, approved))
    && DistinctGrains(rows)
    && |Seasons(rows)| <= 16 && |Opponents(rows)| <= 128
    && TotalOf(rows).Safe()
  }

  lemma {:induction false} TotalsGrow(rows: seq<Row>, i: nat)
    requires i <= |rows| && TotalOf(rows).Safe()
    ensures TotalOf(rows[..i]).Safe()
    decreases |rows| - i
  {
    if i == |rows| {
      assert rows[..i] == rows;
    } else {
      TotalsGrow(rows, i + 1);
      assert rows[..i + 1] == rows[..i] + [rows[i]];
      BucketAppend(rows[..i], rows[i]);
    }
  }

  /** makeRecord: the second summation, with its own overflow checks. Those on points and
      on the goal difference reject nothing that the sums let through. */
  method MakeRecord(rows: seq<Row>) returns (b: Option<Shown>)
    requires |rows| <= MAX_ROWS && forall x | x in rows :: OneMatch(x)
    ensures b.Some? <==> TotalOf(rows).Safe()
    ensures b.Some? ==> b.value == Show(BucketOf(rows))
  {
    var t := ZERO;
    var lineage: set<string> := {};
    ghost var seasons: set<string> := {};
    assert rows[..0] == [];
    for i := 0 to |rows|
      invariant t.Safe() && Bucket(t, seasons, lineage) == BucketOf(rows[..i])
    {
      assert rows[..i + 1] == rows[..i] + [rows[i]];
      BucketAppend(rows[..i], rows[i]);
      assert OneMatch(rows[i]);
      var sum := CheckedAdd(t, rows[i].counters);
      if sum.None? {
        if TotalOf(rows).Safe() { TotalsGrow(rows, i + 1); }
        return None;
      }
      t := sum.value;
      lineage := lineage + Texts(rows[i].lineage);
      seasons := seasons + {rows[i].season};
    }
    assert rows[..|rows|] == rows;
    var all: set<string> := {};
    for i := 0 to |rows|
      invariant all == Seasons(rows[..i])
    {
      assert rows[..i + 1] == rows[..i] + [rows[i]];
      DimensionsAppend(rows[..i], rows[i]);
      all := all + {rows[i].season};
    }
    SeasonsOfBucket(rows);
    PointsOf(rows);
    var points, difference := 3 * t.won + t.drawn, t.goalsFor - t.goalsAgainst;
    if points > MAX_SAFE || difference > MAX_SAFE || difference + MAX_SAFE < 0 {
      return None;
    }
    b := Some(Shown(Bucket(t, all, lineage), points, difference));
  }

  lemma {:induction false} SeasonsOfBucket(rows: seq<Row>)
    requires forall x | x in rows :: OneMatch(x)
    ensures BucketOf(rows).seasons == Seasons(rows)
  {
    if rows != [] {
      var front, last := rows[..|rows| - 1], rows[|rows| - 1];
      assert rows == front + [last] && OneMatch(last);
      SeasonsOfBucket(front);
      DimensionsAppend(front, last);
    }
  }

  lemma {:induction false} AllSelected(rows: seq<Row>, r: Request)
    requires forall i | 0 <= i < |rows| :: Matches(rows[i], r)
    ensures Select(rows, r) == rows
  {
    if rows != [] {
      hide Matches;
      AllSelected(rows[..|rows| - 1], r);
      assert rows == rows[..|rows| - 1] + [rows[|rows| - 1]];
    }
  }

  lemma {:induction false} AllOfGroup(rows: seq<Row>, k: string)
    requires forall i | 0 <= i < |rows| :: rows[i].opponent == k
    ensures OfGroup(rows, ByOpponent, k) == rows
  {
    if rows != [] {
      AllOfGroup(rows[..|rows| - 1], k);
      assert rows == rows[..|rows| - 1] + [rows[|rows| - 1]];
    }
  }

  lemma OneKey(rows: seq<Row>, k: string)
    requires rows != [] && forall i | 0 <= i < |rows| :: rows[i].opponent == k
    ensures GroupKeys(rows, ByOpponent) == {k}
  {
    assert GroupKey(rows[0], ByOpponent) == k;
  }

  lemma NoKeys(g: GroupBy)
    ensures GroupKeys([], g) == {}
  {
  }

  lemma SingleGroup(r: Request, rows: seq<Row>, k: string)
    requires r.groupBy == ByOpponent && (forall i | 0 <= i < |rows| :: Matches(rows[i], r))
    requires forall i | 0 <= i < |rows| :: rows[i].opponent == k
    ensures Groups(rows, r) == if rows == [] then map[] else map[k := BucketOf(rows)]
  {
    hide Matches, BucketOf, Select, OfGroup, GroupKeys;
    AllSelected(rows, r);
    AllOfGroup(rows, k);
    if rows == [] {
      NoKeys(ByOpponent);
    } else {
      OneKey(rows, k);
    }
  }

  // ---------------------------------------------------------------- the history itself

  function OfSeason(rows: seq<Row>, season: string): seq<Row> {
    if rows == [] then []
    else if rows[|rows| - 1].season == season then OfSeason(rows[..|rows| - 1], season) + [rows[|rows| - 1]]
    else OfSeason(rows[..|rows| - 1], season)
  }

  predicate AtMost(a: Counters, b: Counters) {
    && a.played <= b.played && a.won <= b.won && a.drawn <= b.drawn && a.lost <= b.lost
    && a.goalsFor <= b.goalsFor && a.goalsAgainst <= b.goalsAgainst
  }

  /** A season's rows are part of all rows: its own sum cannot overflow alone. */
  lemma {:induction false} SeasonWithinTotal(rows: seq<Row>, season: string)
    ensures AtMost(TotalOf(OfSeason(rows, season)), TotalOf(rows))
    ensures |OfSeason(rows, season)| <= |rows| && forall x | x in OfSeason(rows, season) :: x in rows
  {
    if rows != [] {
      var front, last := rows[..|rows| - 1], rows[|rows| - 1];
      SeasonWithinTotal(front, season);
      BucketAppend(OfSeason(front, season), last);
      assert rows == front + [last];
    }
  }

  /** The rows' own tests, one after the other. */
  method CheckHistoryRows(m: Metadata, r: Request, rows: seq<Row>, approved: set<string>) returns (ok: bool)
    ensures ok <==> (forall i | 0 <= i < |rows| :: HistoryRow(rows[i], m, r, approved)) && DistinctGrains(rows)
                    && |Seasons(rows)| <= 16 && |Opponents(rows)| <= 128
  {
    hide HistoryRow, Seasons, Opponents, GrainOf;
    var seen: set<Grain> := {};
    var seasons: set<string> := {};
    var opponents: set<string> := {};
    NothingSeen();
    for i := 0 to |rows|
      invariant forall j | 0 <= j < i :: HistoryRow(rows[j], m, r, approved)
      invariant DistinctGrains(rows[..i])
      invariant seen == Grains(rows[..i]) && seasons == Seasons(rows[..i]) && opponents == Opponents(rows[..i])
      invariant |seasons| <= 16 && |opponents| <= 128
    {
      var row := rows[i];
      assert rows[..i + 1] == rows[..i] + [row];
      DimensionsAppend(rows[..i], row);
      DimensionsGrow(rows, i + 1);
      if !HistoryRow(row, m, r, approved) {
        return false;
      }
      seasons := seasons + {row.season};
      opponents := opponents + {row.opponent};
      if |seasons| > 16 || |opponents| > 128 || GrainOf(row) in seen {
        return false;
      }
      seen := seen + {GrainOf(row)};
    }
    assert rows[..|rows|] == rows;
    ok := true;
  }

  lemma NothingSeen()
    ensures Seasons([]) == {} && Opponents([]) == {} && Grains([]) == {}
  {
  }

  lemma DimensionsGrow(rows: seq<Row>, i: nat)
    requires i <= |rows|
    ensures |Seasons(rows[..i])| <= |Seasons(rows)| && |Opponents(rows[..i])| <= |Opponents(rows)|
  {
    SubsetSize(Seasons(rows[..i]), Seasons(rows));
    SubsetSize(Opponents(rows[..i]), Opponents(rows));
  }

  function SeasonRecordOf(m: Metadata, rows: seq<Row>, season: string): SeasonRecord
    requires season in m.seasons
  {
    var matches := OfSeason(rows, season);
    SeasonRecord(season, m.seasons[season],
                 if matches != [] then Available else if m.seasons[season] == Complete then NoMatches else MissingCapability,
                 if matches == [] then None else Some(Show(BucketOf(matches))))
  }

  /** The seasons with a match, in the order of the request. */
  function Played(rows: seq<Row>, seasons: seq<string>): seq<string> {
    if seasons == [] then []
    else Played(rows, seasons[..|seasons| - 1])
         + if OfSeason(rows, seasons[|seasons| - 1]) != [] then [seasons[|seasons| - 1]] else []
  }

  lemma {:induction false} RowsOfASeason(rows: seq<Row>, row: Row)
    requires row in rows
    ensures row in OfSeason(rows, row.season)
  {
    if row != rows[|rows| - 1] { RowsOfASeason(rows[..|rows| - 1], row); }
  }

  lemma {:induction false} PlayedIsInOrder(rows: seq<Row>, seasons: seq<string>, s: string)
    ensures s in Played(rows, seasons) <==> s in seasons && OfSeason(rows, s) != []
  {
    if seasons != [] {
      PlayedIsInOrder(rows, seasons[..|seasons| - 1], s);
      assert seasons == seasons[..|seasons| - 1] + [seasons[|seasons| - 1]];
    }
  }

  /** Something was played exactly when there is a row, since every row is of a requested season. */
  lemma SomethingPlayed(r: Request, rows: seq<Row>)
    requires forall x | x in rows :: x.season in r.seasons
    ensures Played(rows, r.seasons) != [] <==> rows != []
  {
    if rows != [] {
      RowsOfASeason(rows, rows[0]);
      PlayedIsInOrder(rows, r.seasons, rows[0].season);
    } else if Played(rows, r.seasons) != [] {
      PlayedIsInOrder(rows, r.seasons, Played(rows, r.seasons)[0]);
    }
  }

  lemma HistoryRowsAre(m: Metadata, r: Request, rows: seq<Row>, approved: set<string>)
    requires forall i | 0 <= i < |rows| :: HistoryRow(rows[i], m, r, approved)
    ensures forall x | x in rows :: OneMatch(x) && x.season in r.seasons
  {
  }

  lemma {:induction false} RowsAreOfTheSeason(rows: seq<Row>, season: string)
    ensures forall x | x in OfSeason(rows, season) :: x in rows && x.season == season
  {
    if rows != [] {
      RowsAreOfTheSeason(rows[..|rows| - 1], season);
      assert rows == rows[..|rows| - 1] + [rows[|rows| - 1]];
    }
  }

  /** The seasons with a match are those of the summed rows. */
  lemma PlayedIsSeasons(rows: seq<Row>, seasons: seq<string>, s: string)
    requires forall x | x in rows :: x.season in seasons
    ensures s in Played(rows, seasons) <==> s in Seasons(rows)
  {
    PlayedIsInOrder(rows, seasons, s);
    RowsAreOfTheSeason(rows, s);
    if OfSeason(rows, s) != [] { assert OfSeason(rows, s)[0] in rows; }
    if x :| x in rows && x.season == s { RowsOfASeason(rows, x); }
  }

  /** On every input the history accepts, the splits accept it too and give at most one
      group, which is the history's combined record: counters, points, lineage, and the seasons
      the history lists as contributing. */
  lemma HistoryIsTheSingleGroup(m: Metadata, r: Request, rows: seq<Row>, approved: set<string>)
    requires HistoryAcceptable(m, r, rows, approved)
    ensures Acceptable(m, r, rows)
    ensures Groups(rows, r) == if rows == [] then map[] else map[r.opponent.value := BucketOf(rows)]
    ensures forall s :: s in Played(rows, r.seasons) <==> s in BucketOf(rows).seasons
  {
    assert forall i | 0 <= i < |rows| :: ValidRow(rows[i], m) && Matches(rows[i], r) && rows[i].opponent == r.opponent.value;
    HistoryRowsAre(m, r, rows, approved);
    hide Played, Seasons, OneMatch;
    SeasonsOfBucket(rows);
    forall s
      ensures s in Played(rows, r.seasons) <==> s in Seasons(rows)
    {
      PlayedIsSeasons(rows, r.seasons, s);
    }
    hide ValidRow, Groups, ValidRequest, Matches, HistoryRow;
    SingleGroup(r, rows, r.opponent.value);
  }

  method QueryOpponentHistory(m: Metadata, r: Request, rows: seq<Row>, approved: set<string>) returns (h: Option<History>)
    ensures h.Some? <==> HistoryAcceptable(m, r, rows, approved)
    ensures h.Some? ==>
              && h.value.combined == (if rows == [] then None else Some(Show(BucketOf(rows))))
              && |h.value.seasons| == |r.seasons|
              && (forall i | 0 <= i < |r.seasons| :: h.value.seasons[i] == SeasonRecordOf(m, rows, r.seasons[i]))
              && h.value.contributing == Played(rows, r.seasons)
              && (h.value.partial <==> exists x :: x in r.seasons && m.seasons[x] != Complete)
              && h.value.status == (if h.value.partial then PartialHistory else if rows != [] then FullHistory else NothingPlayed)
  {
    if !ValidRequest(r, m) || r.groupBy != ByOpponent || r.opponent.None? || r.opponent.value !in approved || |rows| > MAX_ROWS {
      return None;
    }
    var ok := CheckHistoryRows(m, r, rows, approved);
    if !ok {
      return None;
    }
    HistoryRowsAre(m, r, rows, approved);
    hide HistoryRow, ValidRow, Matches, BucketOf, AtMost, OfSeason, OneMatch, Played, SeasonRecordOf, Show, DistinctGrains, Seasons, Opponents;
    var combined := MakeRecord(rows);
    if combined.None? {
      return None;
    }
    RequestedAreKnown(m, r);
    SomethingPlayed(r, rows);
    hide ValidRequest;
    var seasons, contributing := SeasonRecords(m, r, rows);
    var partial := exists x | x in r.seasons :: m.seasons[x] != Complete;
    h := Some(History(seasons, if rows == [] then None else combined, partial,
                      if partial then PartialHistory else if contributing != [] then FullHistory else NothingPlayed,
                      contributing));
  }

  method SeasonRecords(m: Metadata, r: Request, rows: seq<Row>) returns (seasons: seq<SeasonRecord>, contributing: seq<string>)
    requires |rows| <= MAX_ROWS && TotalOf(rows).Safe() && forall x | x in rows :: OneMatch(x)
    requires forall i | 0 <= i < |r.seasons| :: r.seasons[i] in m.seasons
    ensures |seasons| == |r.seasons|
    ensures forall i | 0 <= i < |r.seasons| :: seasons[i] == SeasonRecordOf(m, rows, r.seasons[i])
    ensures contributing == Played(rows, r.seasons)
  {
    hide BucketOf, OfSeason, OneMatch;
    seasons, contributing := [], [];
    for i := 0 to |r.seasons|
      invariant |seasons| == i
      invariant forall j | 0 <= j < i :: seasons[j] == SeasonRecordOf(m, rows, r.seasons[j])
      invariant contributing == Played(rows, r.seasons[..i])
    {
      var season := r.seasons[i];
      var matches := OfSeason(rows, season);
      SeasonWithinTotal(rows, season);
      var record := MakeRecord(matches);
      assert TotalOf(matches).Safe();
      assert r.seasons[..i + 1][..i] == r.seasons[..i];
      var status := if matches != [] then Available else if m.seasons[season] == Complete then NoMatches else MissingCapability;
      seasons := seasons + [SeasonRecord(season, m.seasons[season], status, if matches == [] then None else record)];
      contributing := contributing + if matches != [] then [season] else [];
    }
    assert r.seasons[..|r.seasons|] == r.seasons;
  }
}
