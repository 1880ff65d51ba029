/** The groups of season splits and the records of opponent histories, written out row by
    row: which rows count towards them, and what is summed. */
module SplitAnswers {
  import opened OpponentHistory
  import opened Options
  import opened SeasonSplits
  import opened SplitLaws

  // ---------------------------------------------------------------- which rows are accepted

  /** One match of a covered season in this snapshot: exactly one of won, drawn and lost,
      with a score to match. */
  predicate IsMatch(row: Row, m: Metadata) {
    var c := row.counters;
    && row.season in m.seasons && m.seasons[row.season] in {Complete, Partial} && row.snapshotId == m.snapshotId
    && c.played == 1 && c.goalsFor <= 9_007_199_254_740_991 && c.goalsAgainst <= 9_007_199_254_740_991
    && (|| (c.won == 1 && c.drawn == 0 && c.lost == 0 && c.goalsFor > c.goalsAgainst)
        || (c.won == 0 && c.drawn == 1 && c.lost == 0 && c.goalsFor == c.goalsAgainst)
        || (c.won == 0 && c.drawn == 0 && c.lost == 1 && c.goalsFor < c.goalsAgainst))
    && 1 <= |row.lineage| <= 32 && (forall i | 0 <= i < |row.lineage| :: 1 <= |row.lineage[i]| <= 128)
    && (forall i, j | 0 <= i < j < |row.lineage| :: row.lineage[i] != row.lineage[j])
  }

  lemma ValidRowExactly(row: Row, m: Metadata)
    ensures ValidRow(row, m) <==> IsMatch(row, m)
  {
  }

  lemma ValidRequestExactly(r: Request, m: Metadata)
    ensures ValidRequest(r, m) <==>
              && 1 <= |r.seasons| <= 16 && (forall s | s in r.seasons :: s in m.seasons)
              && (forall i, j | 0 <= i < j < |r.seasons| :: r.seasons[i] != r.seasons[j])
  {
  }

  // ---------------------------------------------------------------- which rows count

  /** In the request's seasons and filters, and at this venue or against this opponent. */
  predicate Counts(row: Row, r: Request, venue: Option<Venue>, opponent: Option<string>) {
    && row.season in r.seasons
    && (r.venue == None || r.venue == Some(row.venue)) && (r.opponent == None || r.opponent == Some(row.opponent))
    && (venue == None || venue == Some(row.venue)) && (opponent == None || opponent == Some(row.opponent))
  }

  /** One row more, counter by counter. */
  function Added(s: Counters, x: Row): Counters {
    Counters(s.played + x.counters.played, s.won + x.counters.won, s.drawn + x.counters.drawn, s.lost + x.counters.lost,
             s.goalsFor + x.counters.goalsFor, s.goalsAgainst + x.counters.goalsAgainst)
  }

  /** The sum over the rows that count. */
  function Sum(rows: seq<Row>, r: Request, venue: Option<Venue>, opponent: Option<string>): Counters {
    if rows == [] then Counters(0, 0, 0, 0, 0, 0)
    else
      var s, x := Sum(rows[..|rows| - 1], r, venue, opponent), rows[|rows| - 1];
      if Counts(x, r, venue, opponent) then Added(s, x) else s
  }

  /** A bucket sums the rows that count, and names the seasons they were played in and the
      texts of their lineages. */
  ghost predicate BucketIs(b: Bucket, rows: seq<Row>, r: Request, venue: Option<Venue>, opponent: Option<string>) {
    && b.totals == Sum(rows, r, venue, opponent)
    && (forall s :: s in b.seasons <==> PlayedIn(rows, r, venue, opponent, s))
    && (forall t :: t in b.lineage <==> TracedTo(rows, r, venue, opponent, t))
  }

  ghost predicate PlayedIn(rows: seq<Row>, r: Request, venue: Option<Venue>, opponent: Option<string>, season: string) {
    exists x :: x in rows && Counts(x, r, venue, opponent) && x.counters.played > 0 && x.season == season
  }

  ghost predicate TracedTo(rows: seq<Row>, r: Request, venue: Option<Venue>, opponent: Option<string>, text: string) {
    exists x :: x in rows && Counts(x, r, venue, opponent) && text in x.lineage
  }

  ghost predicate SomeCounts(rows: seq<Row>, r: Request, venue: Option<Venue>, opponent: Option<string>) {
    exists x :: x in rows && Counts(x, r, venue, opponent)
  }

  /** A group is there exactly if some row counts, with the bucket of those rows. */
  ghost predicate GroupIs(rows: seq<Row>, r: Request, venue: Option<Venue>, opponent: Option<string>, key: string) {
    && (key in Groups(rows, r) <==> SomeCounts(rows, r, venue, opponent))
    && (key in Groups(rows, r) ==> BucketIs(Groups(rows, r)[key], rows, r, venue, opponent))
  }

  /** The key under which the request groups a row. */
  predicate KeyOf(r: Request, venue: Option<Venue>, opponent: Option<string>, key: string) {
    match r.groupBy
    case ByVenue => opponent.None? && ((venue == Some(Home) && key == "home") || (venue == Some(Away) && key == "away"))
    case ByOpponent => venue.None? && opponent == Some(key)
  }

  lemma CountsExactly(row: Row, r: Request, venue: Option<Venue>, opponent: Option<string>, key: string)
    requires KeyOf(r, venue, opponent, key)
    ensures Counts(row, r, venue, opponent) <==> Matches(row, r) && GroupKey(row, r.groupBy) == key
  {
  }

  lemma {:induction false} GroupSums(rows: seq<Row>, r: Request, venue: Option<Venue>, opponent: Option<string>, key: string)
    requires KeyOf(r, venue, opponent, key)
    ensures GroupIs(rows, r, venue, opponent, key)
  {
    hide Counts, Matches, KeyOf, GroupKey;
    if rows == [] {
      NoGroups(r);
    } else {
      var front, x := rows[..|rows| - 1], rows[|rows| - 1];
      assert rows == front + [x];
      GroupSums(front, r, venue, opponent, key);
      GroupsAppend(front, x, r);
      CountsExactly(x, r, venue, opponent, key);
      hide Groups;
      GroupGrows(front, x, r, venue, opponent, key);
    }
  }

  lemma NoGroups(r: Request)
    ensures Groups([], r) == map[]
  {
  }

  lemma GroupGrows(front: seq<Row>, x: Row, r: Request, venue: Option<Venue>, opponent: Option<string>, key: string)
    requires GroupIs(front, r, venue, opponent, key)
    requires Counts(x, r, venue, opponent) <==> Matches(x, r) && GroupKey(x, r.groupBy) == key
    requires var groups, k := Groups(front, r), GroupKey(x, r.groupBy);
             Groups(front + [x], r)
             == if Matches(x, r) then groups[k := AddRow(if k in groups then groups[k] else EMPTY_BUCKET, x)] else groups
    ensures GroupIs(front + [x], r, venue, opponent, key)
  {
    hide Counts, Matches, GroupKey, Groups, BucketIs, AddRow;
    SomeCountsMore(front, x, r, venue, opponent);
    if key in Groups(front, r) {
      BucketGrows(Groups(front, r)[key], front, x, r, venue, opponent);
    } else {
      EmptyBucketIs(front, r, venue, opponent);
      BucketGrows(EMPTY_BUCKET, front, x, r, venue, opponent);
    }
  }

  lemma SomeCountsMore(front: seq<Row>, x: Row, r: Request, venue: Option<Venue>, opponent: Option<string>)
    ensures SomeCounts(front + [x], r, venue, opponent) <==> SomeCounts(front, r, venue, opponent) || Counts(x, r, venue, opponent)
  {
    hide Counts;
    assert forall y :: y in front + [x] <==> y in front || y == x;
  }

  lemma BucketGrows(b: Bucket, front: seq<Row>, x: Row, r: Request, venue: Option<Venue>, opponent: Option<string>)
    requires BucketIs(b, front, r, venue, opponent)
    ensures BucketIs(if Counts(x, r, venue, opponent) then AddRow(b, x) else b, front + [x], r, venue, opponent)
  {
    hide Counts, PlayedIn, TracedTo, Sum, AddRow;
    var rows := front + [x];
    SumMore(front, x, r, venue, opponent);
    RowAdded(b, x);
    forall s
      ensures PlayedIn(rows, r, venue, opponent, s) <==>
                PlayedIn(front, r, venue, opponent, s) || (Counts(x, r, venue, opponent) && x.counters.played > 0 && x.season == s)
    {
      PlayedInMore(front, x, r, venue, opponent, s);
    }
    forall t
      ensures TracedTo(rows, r, venue, opponent, t) <==>
                TracedTo(front, r, venue, opponent, t) || (Counts(x, r, venue, opponent) && t in x.lineage)
    {
      TracedToMore(front, x, r, venue, opponent, t);
    }
  }

  lemma RowAdded(b: Bucket, x: Row)
    ensures AddRow(b, x).totals == Added(b.totals, x)
    ensures forall s :: s in AddRow(b, x).seasons <==> s in b.seasons || (x.counters.played > 0 && x.season == s)
    ensures forall t :: t in AddRow(b, x).lineage <==> t in b.lineage || t in x.lineage
  {
  }

  lemma SumMore(front: seq<Row>, x: Row, r: Request, venue: Option<Venue>, opponent: Option<string>)
    ensures Sum(front + [x], r, venue, opponent)
            == if Counts(x, r, venue, opponent) then Added(Sum(front, r, venue, opponent), x) else Sum(front, r, venue, opponent)
  {
    hide Counts;
    assert (front + [x])[..|front + [x]| - 1] == front;
  }

  lemma PlayedInMore(front: seq<Row>, x: Row, r: Request, venue: Option<Venue>, opponent: Option<string>, s: string)
    ensures PlayedIn(front + [x], r, venue, opponent, s) <==>
              PlayedIn(front, r, venue, opponent, s) || (Counts(x, r, venue, opponent) && x.counters.played > 0 && x.season == s)
  {
    hide Counts;
    assert forall y :: y in front + [x] <==> y in front || y == x;
  }

  lemma TracedToMore(front: seq<Row>, x: Row, r: Request, venue: Option<Venue>, opponent: Option<string>, t: string)
    ensures TracedTo(front + [x], r, venue, opponent, t) <==>
              TracedTo(front, r, venue, opponent, t) || (Counts(x, r, venue, opponent) && t in x.lineage)
  {
    hide Counts;
    assert forall y :: y in front + [x] <==> y in front || y == x;
  }

  lemma EmptyBucketIs(rows: seq<Row>, r: Request, venue: Option<Venue>, opponent: Option<string>)
    requires !SomeCounts(rows, r, venue, opponent)
    ensures BucketIs(EMPTY_BUCKET, rows, r, venue, opponent)
  {
    hide Counts;
    NothingSummed(rows, r, venue, opponent);
  }

  lemma {:induction false} NothingSummed(rows: seq<Row>, r: Request, venue: Option<Venue>, opponent: Option<string>)
    ensures (forall x | x in rows :: !Counts(x, r, venue, opponent)) ==> Sum(rows, r, venue, opponent) == Counters(0, 0, 0, 0, 0, 0)
  {
    hide Counts;
    if rows != [] {
      NothingSummed(rows[..|rows| - 1], r, venue, opponent);
      assert rows == rows[..|rows| - 1] + [rows[|rows| - 1]];
    }
  }

  /** Grouped by venue: the home rows under "home", the away rows under "away", no others. */
  lemma VenueGroups(rows: seq<Row>, r: Request)
    requires r.groupBy == ByVenue
    ensures GroupIs(rows, r, Some(Home), None, "home") && GroupIs(rows, r, Some(Away), None, "away")
    ensures forall key | key in Groups(rows, r) :: key == "home" || key == "away"
  {
    hide Sum, Counts, GroupIs, BucketOf, Select, OfGroup;
    GroupSums(rows, r, Some(Home), None, "home");
    GroupSums(rows, r, Some(Away), None, "away");
  }

  /** Grouped by opponent: under each opponent the rows against it. */
  lemma OpponentGroups(rows: seq<Row>, r: Request, key: string)
    requires r.groupBy == ByOpponent
    ensures GroupIs(rows, r, None, Some(key), key)
  {
    GroupSums(rows, r, None, Some(key), key);
  }

  /** A selection is there exactly if some row counts at all. */
  lemma {:induction false} SelectedExactly(rows: seq<Row>, r: Request)
    ensures Select(rows, r) != [] <==> exists x :: x in rows && Counts(x, r, None, None)
  {
    if rows != [] {
      SelectedExactly(rows[..|rows| - 1], r);
      assert rows == rows[..|rows| - 1] + [rows[|rows| - 1]];
      assert Counts(rows[|rows| - 1], r, None, None) <==> Matches(rows[|rows| - 1], r);
    }
  }

  // ---------------------------------------------------------------- histories

  /** The sum over the rows of one season. */
  function SumOfSeason(rows: seq<Row>, season: string): Counters {
    if rows == [] then Counters(0, 0, 0, 0, 0, 0)
    else
      var s, x := SumOfSeason(rows[..|rows| - 1], season), rows[|rows| - 1];
      if x.season == season then Added(s, x) else s
  }

  lemma {:induction false} SeasonTotals(rows: seq<Row>, season: string)
    ensures TotalOf(OfSeason(rows, season)) == SumOfSeason(rows, season)
    ensures OfSeason(rows, season) != [] <==> exists x :: x in rows && x.season == season
  {
    if rows != [] {
      var front, x := rows[..|rows| - 1], rows[|rows| - 1];
      assert rows == front + [x];
      SeasonTotals(front, season);
      BucketAppend(OfSeason(front, season), x);
    }
  }

  /** A season's record: its matches summed, with three points for a win and one for a draw;
      without matches it is known to have none only where coverage is complete. */
  lemma SeasonRecordWrittenOut(m: Metadata, rows: seq<Row>, season: string)
    requires season in m.seasons && forall x | x in rows :: x.counters.won + x.counters.drawn + x.counters.lost == x.counters.played == 1
    ensures var rec, t := SeasonRecordOf(m, rows, season), SumOfSeason(rows, season);
            && rec.season == season && rec.coverage == m.seasons[season]
            && if exists x :: x in rows && x.season == season then
                 && rec.status == Available && rec.record.Some?
                 && rec.record.value.bucket.totals == t && rec.record.value.bucket.seasons == {season}
                 && rec.record.value.points == t.won + t.won + t.won + t.drawn && rec.record.value.goalDifference == t.goalsFor - t.goalsAgainst
               else rec.record.None? && rec.status == if m.seasons[season] == Complete then NoMatches else MissingCapability
  {
    SeasonTotals(rows, season);
    RowsAreOfTheSeason(rows, season);
    forall x | x in OfSeason(rows, season)
      ensures OneMatch(x)
    {
    }
    SeasonsOfBucket(OfSeason(rows, season));
    hide BucketOf, OfSeason, SumOfSeason;
    if OfSeason(rows, season) != [] { assert OfSeason(rows, season)[0].season in Seasons(OfSeason(rows, season)); }
  }

  /** The contributing seasons are listed in the order of the request. */
  lemma {:induction false} PlayedFollowsRequest(rows: seq<Row>, seasons: seq<string>, i: nat, j: nat)
    requires i < j < |Played(rows, seasons)|
    ensures exists a, b :: 0 <= a < b < |seasons| && seasons[a] == Played(rows, seasons)[i] && seasons[b] == Played(rows, seasons)[j]
  {
    var front, last := seasons[..|seasons| - 1], seasons[|seasons| - 1];
    var before := Played(rows, front);
    if j < |before| {
      PlayedFollowsRequest(rows, front, i, j);
      var a, b :| 0 <= a < b < |front| && front[a] == before[i] && front[b] == before[j];
      assert seasons[a] == before[i] && seasons[b] == before[j];
    } else {
      PlayedIsInOrder(rows, front, before[i]);
      var a :| 0 <= a < |front| && front[a] == before[i];
      assert seasons[a] == before[i] && seasons[|seasons| - 1] == last;
    }
  }

  // ---------------------------------------------------------------- safe sums

  /** An addition is refused exactly when a counter leaves the safe integers. */
  lemma AdditionExactly(a: Counters, b: Counters)
    ensures CheckedAdd(a, b)
            == if a.played + b.played > 9_007_199_254_740_991 || a.won + b.won > 9_007_199_254_740_991
                  || a.drawn + b.drawn > 9_007_199_254_740_991 || a.lost + b.lost > 9_007_199_254_740_991
                  || a.goalsFor + b.goalsFor > 9_007_199_254_740_991 || a.goalsAgainst + b.goalsAgainst > 9_007_199_254_740_991
               then None
               else Some(Counters(a.played + b.played, a.won + b.won, a.drawn + b.drawn, a.lost + b.lost,
                                  a.goalsFor + b.goalsFor, a.goalsAgainst + b.goalsAgainst))
  {
  }
}
