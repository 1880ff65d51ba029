/** Season splits: fixture rows validated one by one and summed into groups, with every
    addition checked to stay a safe integer. */
module SeasonSplits {
  import opened Options

  const MAX_SAFE: nat := 9_007_199_254_740_991
  const MAX_ROWS := 4096

  datatype Venue = Home | Away
  datatype Coverage = Complete | Partial | Missing
  datatype GroupBy = ByVenue | ByOpponent

  datatype Counters = Counters(played: nat, won: nat, drawn: nat, lost: nat, goalsFor: nat, goalsAgainst: nat) {
    function Plus(c: Counters): Counters {
      Counters(played + c.played, won + c.won, drawn + c.drawn, lost + c.lost, goalsFor + c.goalsFor, goalsAgainst + c.goalsAgainst)
    }
    predicate Safe() {
      played <= MAX_SAFE && won <= MAX_SAFE && drawn <= MAX_SAFE && lost <= MAX_SAFE && goalsFor <= MAX_SAFE && goalsAgainst <= MAX_SAFE
    }
    function Points(): nat { 3 * won + drawn }
    function GoalDifference(): int { goalsFor - goalsAgainst }
  }

  const ZERO := Counters(0, 0, 0, 0, 0, 0)

  datatype Row = Row(season: string, venue: Venue, opponent: string, counters: Counters, snapshotId: string, lineage: seq<string>)

  datatype Metadata = Metadata(snapshotId: string, seasons: map<string, Coverage>)

  datatype Request = Request(seasons: seq<string>, groupBy: GroupBy, venue: Option<Venue>, opponent: Option<string>)

  /** What the request parser accepts: one to sixteen seasons of the catalog, none twice. */
  predicate ValidRequest(r: Request, m: Metadata) {
    && 1 <= |r.seasons| <= 16
    && (forall i | 0 <= i < |r.seasons| :: r.seasons[i] in m.seasons)
    && (forall i, j | 0 <= i < j < |r.seasons| :: r.seasons[i] != r.seasons[j])
  }

  predicate ValidLineage(lineage: seq<string>) {
    && 1 <= |lineage| <= 32
    && (forall i | 0 <= i < |lineage| :: 1 <= |lineage[i]| <= 128)
    && (forall i, j | 0 <= i < j < |lineage| :: lineage[i] != lineage[j])
  }

  /** One completed fixture of a covered season in this snapshot, with a score that fits
      its outcome. */
  predicate ValidRow(row: Row, m: Metadata) {
    var c := row.counters;
    && row.season in m.seasons && m.seasons[row.season] != Missing && row.snapshotId == m.snapshotId
    && c.Safe() && c.won + c.drawn + c.lost == c.played == 1
    && (c.won == 1 ==> c.goalsFor > c.goalsAgainst)
    && (c.drawn == 1 ==> c.goalsFor == c.goalsAgainst)
    && (c.lost == 1 ==> c.goalsFor < c.goalsAgainst)
    && ValidLineage(row.lineage)
  }

  datatype Grain = Grain(season: string, venue: Venue, opponent: string)

  function GrainOf(row: Row): Grain {
    Grain(row.season, row.venue, row.opponent)
  }

  predicate Matches(row: Row, r: Request) {
    && row.season in r.seasons && (r.venue.Some? ==> row.venue == r.venue.value)
    && (r.opponent.Some? ==> row.opponent == r.opponent.value)
  }

  function GroupKey(row: Row, g: GroupBy): string {
    if g == ByVenue then (if row.venue == Home then "home" else "away") else row.opponent
  }

  // ---------------------------------------------------------------- what the groups are

  datatype Bucket = Bucket(totals: Counters, seasons: set<string>, lineage: set<string>)

  const EMPTY_BUCKET := Bucket(ZERO, {}, {})

  function Texts(list: seq<string>): set<string> {
    set x | x in list
  }

  function AddRow(b: Bucket, row: Row): Bucket {
    Bucket(b.totals.Plus(row.counters), if row.counters.played > 0 then b.seasons + {row.season} else b.seasons,
           b.lineage + Texts(row.lineage))
  }

  function BucketOf(rows: seq<Row>): Bucket {
    if rows == [] then EMPTY_BUCKET else AddRow(BucketOf(rows[..|rows| - 1]), rows[|rows| - 1])
  }

  function Select(rows: seq<Row>, r: Request): seq<Row> {
    if rows == [] then []
    else if Matches(rows[|rows| - 1], r) then Select(rows[..|rows| - 1], r) + [rows[|rows| - 1]]
    else Select(rows[..|rows| - 1], r)
  }

  function OfGroup(rows: seq<Row>, g: GroupBy, key: string): seq<Row> {
    if rows == [] then []
    else if GroupKey(rows[|rows| - 1], g) == key then OfGroup(rows[..|rows| - 1], g, key) + [rows[|rows| - 1]]
    else OfGroup(rows[..|rows| - 1], g, key)
  }

  function GroupKeys(rows: seq<Row>, g: GroupBy): set<string> {
    set i | 0 <= i < |rows| :: GroupKey(rows[i], g)
  }

  /** The groups, by definition: one per key among the selected rows, summing its rows. */
  function Groups(rows: seq<Row>, r: Request): map<string, Bucket> {
    map k | k in GroupKeys(Select(rows, r), r.groupBy) :: BucketOf(OfGroup(Select(rows, r), r.groupBy, k))
  }

  function Seasons(rows: seq<Row>): set<string> {
    set i | 0 <= i < |rows| :: rows[i].season
  }

  function Opponents(rows: seq<Row>): set<string> {
    set i | 0 <= i < |rows| :: rows[i].opponent
  }

  ghost predicate DistinctGrains(rows: seq<Row>) {
    forall i, j | 0 <= i < j < |rows| :: GrainOf(rows[i]) != GrainOf(rows[j])
  }

  ghost predicate SafeGroups(rows: seq<Row>, r: Request) {
    forall k | k in Groups(rows, r) :: Groups(rows, r)[k].totals.Safe()
  }

  /** Everything checked row by row. */
  ghost predicate Checked(m: Metadata, r: Request, rows: seq<Row>) {
    && (forall i | 0 <= i < |rows| :: ValidRow(rows[i], m))
    && DistinctGrains(rows)
    && |Seasons(rows)| <= 16 && |Opponents(rows)| <= 128
    && SafeGroups(rows, r)
  }

  /** The whole input is validated, also outside the selection. */
  ghost predicate Acceptable(m: Metadata, r: Request, rows: seq<Row>) {
    ValidRequest(r, m) && |rows| <= MAX_ROWS && Checked(m, r, rows)
  }

  function Grains(rows: seq<Row>): set<Grain> {
    set i | 0 <= i < |rows| :: GrainOf(rows[i])
  }

  // ---------------------------------------------------------------- one row more

  lemma LastRow(rows: seq<Row>, row: Row)
    ensures (rows + [row])[..|rows + [row]| - 1] == rows && (rows + [row])[|rows + [row]| - 1] == row
  {
  }

  lemma SelectAppend(rows: seq<Row>, row: Row, r: Request)
    ensures Select(rows + [row], r) == if Matches(row, r) then Select(rows, r) + [row] else Select(rows, r)
  {
    LastRow(rows, row);
  }

  lemma OfGroupAppend(rows: seq<Row>, row: Row, g: GroupBy, key: string)
    ensures OfGroup(rows + [row], g, key) == if GroupKey(row, g) == key then OfGroup(rows, g, key) + [row] else OfGroup(rows, g, key)
  {
    LastRow(rows, row);
  }

  lemma BucketAppend(rows: seq<Row>, row: Row)
    ensures BucketOf(rows + [row]) == AddRow(BucketOf(rows), row)
  {
    LastRow(rows, row);
  }

  lemma KeysAppend(rows: seq<Row>, row: Row, g: GroupBy)
    ensures GroupKeys(rows + [row], g) == GroupKeys(rows, g) + {GroupKey(row, g)}
  {
    var more := rows + [row];
    assert forall i | 0 <= i < |rows| :: more[i] == rows[i];
    forall k | k in GroupKeys(rows, g) + {GroupKey(row, g)}
      ensures k in GroupKeys(more, g)
    {
      if k in GroupKeys(rows, g) {
        var i :| 0 <= i < |rows| && GroupKey(rows[i], g) == k;
        assert GroupKey(more[i], g) == k;
      } else {
        assert GroupKey(more[|rows|], g) == k;
      }
    }
  }

  lemma NoRowsOfNewKey(rows: seq<Row>, g: GroupBy, key: string)
    requires key !in GroupKeys(rows, g)
    ensures OfGroup(rows, g, key) == []
  {
    if rows != [] {
      var front := rows[..|rows| - 1];
      assert GroupKey(rows[|rows| - 1], g) in GroupKeys(rows, g);
      forall k | k in GroupKeys(front, g)
        ensures k in GroupKeys(rows, g)
      {
        var i :| 0 <= i < |front| && GroupKey(front[i], g) == k;
        assert GroupKey(rows[i], g) == k;
      }
      NoRowsOfNewKey(front, g, key);
    }
  }

  /** What one more row does to the groups. */
  lemma GroupsAppend(rows: seq<Row>, row: Row, r: Request)
    ensures var groups := Groups(rows, r);
            var k := GroupKey(row, r.groupBy);
            Groups(rows + [row], r)
            == if Matches(row, r) then groups[k := AddRow(if k in groups then groups[k] else EMPTY_BUCKET, row)] else groups
  {
    assert BucketOf([]) == EMPTY_BUCKET;
    hide Select, OfGroup, BucketOf, Matches, AddRow, GroupKeys;
    SelectAppend(rows, row, r);
    if Matches(row, r) {
      var selected := Select(rows, r);
      var k := GroupKey(row, r.groupBy);
      KeysAppend(selected, row, r.groupBy);
      if k !in GroupKeys(selected, r.groupBy) {
        NoRowsOfNewKey(selected, r.groupBy, k);
      }
      forall j
        ensures BucketOf(OfGroup(selected + [row], r.groupBy, j))
                == if j == k then AddRow(BucketOf(OfGroup(selected, r.groupBy, j)), row) else BucketOf(OfGroup(selected, r.groupBy, j))
      {
        OfGroupAppend(selected, row, r.groupBy, j);
        BucketAppend(OfGroup(selected, r.groupBy, j), row);
      }
    }
  }

  /** A group that has overflowed stays overflowed. */
  lemma {:induction false} UnsafeStays(m: Metadata, r: Request, rows: seq<Row>, i: nat)
    requires i <= |rows| && SafeGroups(rows, r)
    ensures SafeGroups(rows[..i], r)
    decreases |rows| - i
  {
    hide Groups;
    if i == |rows| {
      assert rows[..i] == rows;
    } else {
      UnsafeStays(m, r, rows, i + 1);
      assert rows[..i + 1] == rows[..i] + [rows[i]];
      GroupsAppend(rows[..i], rows[i], r);
      var before, after := Groups(rows[..i], r), Groups(rows[..i + 1], r);
      forall k | k in before
        ensures before[k].totals.Safe()
      {
        assert after[k].totals.Safe();
      }
    }
  }

  // ---------------------------------------------------------------- the query

  function CheckedAdd(a: Counters, b: Counters): Option<Counters> {
    if a.Plus(b).Safe() then Some(a.Plus(b)) else None
  }

  function BucketAt(groups: map<string, Bucket>, k: string): Bucket {
    if k in groups then groups[k] else EMPTY_BUCKET
  }

  lemma DimensionsAppend(rows: seq<Row>, row: Row)
    ensures Seasons(rows + [row]) == Seasons(rows) + {row.season}
    ensures Opponents(rows + [row]) == Opponents(rows) + {row.opponent}
    ensures Grains(rows + [row]) == Grains(rows) + {GrainOf(row)}
  {
    var more := rows + [row];
    assert more[|rows|] == row && forall i | 0 <= i < |rows| :: more[i] == rows[i];
    assert forall s | s in Seasons(rows) :: exists i :: 0 <= i < |rows| && more[i].season == s;
    assert forall s | s in Opponents(rows) :: exists i :: 0 <= i < |rows| && more[i].opponent == s;
    assert forall g | g in Grains(rows) :: exists i :: 0 <= i < |rows| && GrainOf(more[i]) == g;
  }

  lemma SubsetSize<T>(a: set<T>, b: set<T>)
    requires a <= b
    ensures |a| <= |b|
  {
    assert |b - a| == |b| - |a|;
  }

  /** What was accepted as a whole was accepted all along. */
  lemma CheckedPrefix(m: Metadata, r: Request, rows: seq<Row>, i: nat)
    requires Checked(m, r, rows) && i <= |rows|
    ensures Checked(m, r, rows[..i])
  {
    hide ValidRow, SafeGroups;
    UnsafeStays(m, r, rows, i);
    SubsetSize(Seasons(rows[..i]), Seasons(rows));
    SubsetSize(Opponents(rows[..i]), Opponents(rows));
  }

  /** The tests on one more row, and what they decide. */
  lemma CheckedAppend(m: Metadata, r: Request, rows: seq<Row>, row: Row)
    requires Checked(m, r, rows)
    ensures Checked(m, r, rows + [row]) <==>
              && ValidRow(row, m) && GrainOf(row) !in Grains(rows)
              && |Seasons(rows) + {row.season}| <= 16 && |Opponents(rows) + {row.opponent}| <= 128
              && (Matches(row, r) ==>
                    CheckedAdd(BucketAt(Groups(rows, r), GroupKey(row, r.groupBy)).totals, row.counters).Some?)
  {
    hide ValidRow, Matches, SafeGroups, Groups, GrainOf;
    DimensionsAppend(rows, row);
    SafeAppend(rows, row, r);
    var more := rows + [row];
    assert more[|rows|] == row && forall i | 0 <= i < |rows| :: more[i] == rows[i];
    assert DistinctGrains(more) <==> GrainOf(row) !in Grains(rows);
  }

  lemma SafeAppend(rows: seq<Row>, row: Row, r: Request)
    requires SafeGroups(rows, r)
    ensures SafeGroups(rows + [row], r) <==>
              (Matches(row, r) ==>
                 CheckedAdd(BucketAt(Groups(rows, r), GroupKey(row, r.groupBy)).totals, row.counters).Some?)
  {
    hide Groups, Matches;
    var k := GroupKey(row, r.groupBy);
    GroupsAppend(rows, row, r);
    var groups, after := Groups(rows, r), Groups(rows + [row], r);
    if Matches(row, r) {
      assert after[k].totals == BucketAt(groups, k).totals.Plus(row.counters);
      assert forall j | j in after && j != k :: after[j] == groups[j];
    }
  }

  lemma NothingChecked(m: Metadata, r: Request)
    ensures Checked(m, r, []) && Groups([], r) == map[] && Seasons([]) == {} && Opponents([]) == {} && Grains([]) == {}
  {
    assert Groups([], r) == map[];
  }

  // ---------------------------------------------------------------- what is shown of a group

  datatype Shown = Shown(bucket: Bucket, points: nat, goalDifference: int)

  datatype Status = Available | NoMatches | MissingCapability

  datatype Splits = Splits(groups: map<string, Shown>, coverage: seq<Coverage>, partial: bool, status: Status)

  predicate OneMatch(row: Row) {
    row.counters.won + row.counters.drawn + row.counters.lost == row.counters.played == 1
  }

  lemma {:induction false} PointsOf(rows: seq<Row>)
    requires forall x | x in rows :: OneMatch(x)
    ensures BucketOf(rows).totals.Points() <= 3 * |rows| && BucketOf(rows).totals.played == |rows|
  {
    if rows != [] {
      assert rows == rows[..|rows| - 1] + [rows[|rows| - 1]];
      PointsOf(rows[..|rows| - 1]);
      assert OneMatch(rows[|rows| - 1]);
    }
  }

  lemma {:induction false} GroupIsPart(rows: seq<Row>, r: Request, k: string)
    ensures |OfGroup(rows, r.groupBy, k)| <= |rows| && |Select(rows, r)| <= |rows|
    ensures forall x | x in OfGroup(rows, r.groupBy, k) || x in Select(rows, r) :: x in rows
    ensures k in GroupKeys(rows, r.groupBy) ==> OfGroup(rows, r.groupBy, k) != []
  {
    if rows != [] {
      hide GroupKey, Matches;
      GroupIsPart(rows[..|rows| - 1], r, k);
      assert rows == rows[..|rows| - 1] + [rows[|rows| - 1]];
    }
  }

  /** Every row is one match, and there are at most 4096: no group's points come near the
      largest safe integer, so the test on them can never fire. And no group is empty. */
  lemma PointsNeverOverflow(rows: seq<Row>, r: Request, k: string)
    requires |rows| <= MAX_ROWS && k in Groups(rows, r) && forall x | x in rows :: OneMatch(x)
    ensures Groups(rows, r)[k].totals.Points() <= 3 * MAX_ROWS < MAX_SAFE && Groups(rows, r)[k].totals.played > 0
  {
    hide BucketOf, OfGroup, Select, GroupKeys, OneMatch;
    GroupIsPart(rows, r, k);
    GroupIsPart(Select(rows, r), r, k);
    PointsOf(OfGroup(Select(rows, r), r.groupBy, k));
  }

  lemma GroupsWhenSelected(rows: seq<Row>, r: Request)
    ensures Groups(rows, r) == map[] <==> Select(rows, r) == []
  {
    hide BucketOf, OfGroup, Select;
    if Select(rows, r) != [] { assert GroupKey(Select(rows, r)[0], r.groupBy) in Groups(rows, r); }
  }

  /** At most two venues, and no more opponents than rows have. */
  lemma GroupCount(rows: seq<Row>, r: Request)
    requires |Opponents(rows)| <= 128
    ensures |Groups(rows, r)| <= if r.groupBy == ByVenue then 2 else 128
  {
    hide BucketOf, OfGroup, Select;
    var keys := GroupKeys(Select(rows, r), r.groupBy);
    GroupIsPart(rows, r, "");
    assert Groups(rows, r).Keys == keys;
    if r.groupBy == ByVenue {
      SubsetSize(keys, {"home", "away"});
    } else {
      forall k | k in keys
        ensures k in Opponents(rows)
      {
        var i :| 0 <= i < |Select(rows, r)| && Select(rows, r)[i].opponent == k;
        assert Select(rows, r)[i] in rows;
      }
      SubsetSize(keys, Opponents(rows));
    }
  }

  lemma LaterTestsPass(m: Metadata, r: Request, rows: seq<Row>)
    requires Acceptable(m, r, rows)
    ensures forall k | k in Groups(rows, r) :: Groups(rows, r)[k].totals.Points() < MAX_SAFE && Groups(rows, r)[k].totals.played > 0
    ensures |Groups(rows, r)| <= if r.groupBy == ByVenue then 2 else 128
    ensures Groups(rows, r) == map[] <==> Select(rows, r) == []
  {
    assert forall x | x in rows :: OneMatch(x);
    hide Groups, Select, OneMatch;
    forall k | k in Groups(rows, r)
      ensures Groups(rows, r)[k].totals.Points() < MAX_SAFE && Groups(rows, r)[k].totals.played > 0
    {
      PointsNeverOverflow(rows, r, k);
    }
    GroupCount(rows, r);
    GroupsWhenSelected(rows, r);
  }

  lemma RequestedAreKnown(m: Metadata, r: Request)
    requires ValidRequest(r, m)
    ensures forall i | 0 <= i < |r.seasons| :: r.seasons[i] in m.seasons
  {
  }

  /** `None` is a rejection of the whole input. The tests on points and on the number of
      groups come after the loop, and never reject what the loop let through. */
  method QuerySeasonSplits(m: Metadata, r: Request, rows: seq<Row>) returns (s: Option<Splits>)
    ensures s.Some? <==> Acceptable(m, r, rows)
    ensures s.Some? ==>
              var groups := Groups(rows, r);
              && s.value.groups.Keys == groups.Keys
              && (forall k | k in groups ::
                    s.value.groups[k] == Shown(groups[k], groups[k].totals.Points(), groups[k].totals.GoalDifference()))
              && |s.value.coverage| == |r.seasons|
              && (forall i | 0 <= i < |r.seasons| :: s.value.coverage[i] == m.seasons[r.seasons[i]])
              && (s.value.partial <==> exists x :: x in r.seasons && m.seasons[x] != Complete)
              && s.value.status == (if Select(rows, r) != [] then Available else if s.value.partial then MissingCapability else NoMatches)
  {
    hide Groups, Select, Checked, Counters.Points, Counters.GoalDifference, ValidRequest;
    var buckets := SumGroups(m, r, rows);
    if buckets.None? {
      return None;
    }
    var groups := buckets.value;
    LaterTestsPass(m, r, rows);
    assert forall i | 0 <= i < |r.seasons| :: r.seasons[i] in m.seasons by { RequestedAreKnown(m, r); }
    if exists k | k in groups :: groups[k].totals.Points() > MAX_SAFE {
      return None;
    }
    if |groups| > (if r.groupBy == ByVenue then 2 else 128) {
      return None;
    }
    var shown := map k | k in groups :: Shown(groups[k], groups[k].totals.Points(), groups[k].totals.GoalDifference());
    var coverage := seq(|r.seasons|, i requires 0 <= i < |r.seasons| => m.seasons[r.seasons[i]]);
    var partial := exists x | x in r.seasons :: m.seasons[x] != Complete;
    var hasMatches := exists k | k in groups :: groups[k].totals.played > 0;
    s := Some(Splits(shown, coverage, partial,
                     if hasMatches then Available else if partial then MissingCapability else NoMatches));
  }

  /** The loop over the rows. */
  method SumGroups(m: Metadata, r: Request, rows: seq<Row>) returns (groups: Option<map<string, Bucket>>)
    ensures groups.Some? <==> Acceptable(m, r, rows)
    ensures groups.Some? ==> groups.value == Groups(rows, r)
  {
    hide Checked, Groups, ValidRow, Matches, AddRow, Grains, Seasons, Opponents, GroupKey;
    if !ValidRequest(r, m) || |rows| > MAX_ROWS {
      return None;
    }
    var seen: set<Grain> := {};
    var seasons: set<string> := {};
    var opponents: set<string> := {};
    var buckets: map<string, Bucket> := map[];
    NothingChecked(m, r);
    assert rows[..0] == [];
    for i := 0 to |rows|
      invariant Checked(m, r, rows[..i])
      invariant seen == Grains(rows[..i]) && seasons == Seasons(rows[..i]) && opponents == Opponents(rows[..i])
      invariant buckets == Groups(rows[..i], r)
    {
      var row := rows[i];
      ghost var before := rows[..i];
      assert rows[..i + 1] == before + [row];
      CheckedAppend(m, r, before, row);
      DimensionsAppend(before, row);
      GroupsAppend(before, row, r);
      if Checked(m, r, rows) { CheckedPrefix(m, r, rows, i + 1); }
      if !ValidRow(row, m) || GrainOf(row) in seen {
        return None;
      }
      seen := seen + {GrainOf(row)};
      opponents := opponents + {row.opponent};
      seasons := seasons + {row.season};
      if |seasons| > 16 || |opponents| > 128 {
        return None;
      }
      if Matches(row, r) {
        var key := GroupKey(row, r.groupBy);
        var bucket := BucketAt(buckets, key);
        if CheckedAdd(bucket.totals, row.counters).None? {
          return None;
        }
        buckets := buckets[key := AddRow(bucket, row)];
      }
    }
    assert rows[..|rows|] == rows;
    groups := Some(buckets);
  }
}
