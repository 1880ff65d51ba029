/** The feasibility resolver of the worker: a string-keyed index over the coverage list,
    and the alternative offered when a query cannot be answered. */
module Feasibility {
  import opened Canonical
  import opened Options
  import opened TextParts
  import opened TextSort

  // ---------------------------------------------------------------- catalogs and queries

  datatype Granularity = BoxScore | EventWithCoords | Tracking

  /** The five words that the decoder and the request parser let through. */
  datatype EntityType = Player | Match | Season | Opponent | Competition

  datatype Viz = Table | Bar | DotPlot | Line | ShotMap | PassMap | Heatmap

  function VizGranularity(viz: Viz): Granularity {
    if viz in {ShotMap, PassMap, Heatmap} then EventWithCoords else BoxScore
  }

  function GranularityText(g: Granularity): string {
    match g case BoxScore => "box_score" case EventWithCoords => "event_with_coords" case Tracking => "tracking"
  }

  function EntityText(e: EntityType): string {
    match e
    case Player => "player" case Match => "match" case Season => "season" case Opponent => "opponent" case Competition => "competition"
  }

  datatype Cost = Cheap | Expensive

  datatype Cell = Cell(
    metric: string, entityType: EntityType, granularity: Granularity, season: string, competition: string,
    sourceId: string, redistributable: bool, cost: Cost)

  datatype Metric = Metric(id: string, granularity: Granularity)

  datatype Compiled = Compiled(metrics: seq<Metric>, coverage: seq<Cell>)

  /** What of a query intent feasibility looks at, and the rest of it. */
  datatype Query = Query(metric: string, entityType: EntityType, season: string, competition: string, viz: Viz, rest: string)

  datatype State = Available | ComputableNowQueued | ComputableButExpensive | NoData | NoRights

  datatype Feasible = Feasible(state: State, alternative: Option<Query>)

  predicate SameCell(a: Cell, b: Cell) {
    && a.metric == b.metric && a.entityType == b.entityType && a.granularity == b.granularity
    && a.season == b.season && a.competition == b.competition
  }

  ghost predicate DistinctIds(metrics: seq<Metric>) {
    forall i, j | 0 <= i < j < |metrics| :: metrics[i].id != metrics[j].id
  }

  /** What lookups rely on across records. */
  ghost predicate Accepted(c: Compiled) {
    && DistinctIds(c.metrics)
    && (forall i, j | 0 <= i < j < |c.coverage| :: !SameCell(c.coverage[i], c.coverage[j]))
    && (forall cell | cell in c.coverage :: Metric(cell.metric, cell.granularity) in c.metrics)
  }

  // ---------------------------------------------------------------- joined keys

  predicate SpaceFree(s: string) {
    ' ' !in s
  }

  predicate SpaceFreeCell(c: Cell) {
    SpaceFree(c.metric) && SpaceFree(c.season) && SpaceFree(c.competition)
  }

  function JoinKey(metric: string, entity: string, gran: Granularity, season: string, comp: string): string {
    metric + (" " + (entity + (" " + (GranularityText(gran) + (" " + (season + (" " + comp)))))))
  }

  function CellKey(c: Cell): string {
    JoinKey(c.metric, EntityText(c.entityType), c.granularity, c.season, c.competition)
  }

  function QueryKey(q: Query): string {
    JoinKey(q.metric, EntityText(q.entityType), VizGranularity(q.viz), q.season, q.competition)
  }

  function Spaces(s: string): nat {
    if s == "" then 0 else (if s[0] == ' ' then 1 else 0) + Spaces(s[1..])
  }

  lemma {:induction false} SpacesAdd(a: string, b: string)
    ensures Spaces(a + b) == Spaces(a) + Spaces(b)
  {
    var c := a + b;
    if a == "" {
      assert c == b;
    } else {
      SpacesAdd(a[1..], b);
      assert c[1..] == a[1..] + b;
    }
  }

  lemma {:induction false} NoSpaces(s: string)
    ensures Spaces(s) == 0 <==> SpaceFree(s)
  {
    if s != "" {
      NoSpaces(s[1..]);
      assert s == [s[0]] + s[1..];
    }
  }

  lemma KeySpaces(metric: string, entity: string, gran: Granularity, season: string, comp: string)
    ensures Spaces(JoinKey(metric, entity, gran, season, comp))
            == 4 + Spaces(metric) + Spaces(entity) + Spaces(season) + Spaces(comp)
  {
    var g := GranularityText(gran);
    NoSpaces(g);
    assert Spaces(" ") == 1 by { assert " "[1..] == ""; }
    assert SpaceFree(g);
    hide Spaces, GranularityText;
    SpacesAdd(" ", comp);
    SpacesAdd(season, " " + comp);
    SpacesAdd(" ", season + (" " + comp));
    SpacesAdd(g, " " + (season + (" " + comp)));
    SpacesAdd(" ", g + (" " + (season + (" " + comp))));
    SpacesAdd(entity, " " + (g + (" " + (season + (" " + comp)))));
    SpacesAdd(" ", entity + (" " + (g + (" " + (season + (" " + comp))))));
    SpacesAdd(metric, " " + (entity + (" " + (g + (" " + (season + (" " + comp)))))));
  }

  lemma GranularityTexts(g: Granularity, h: Granularity)
    ensures SpaceFree(GranularityText(g))
    ensures GranularityText(g) == GranularityText(h) ==> g == h
  {
    assert |GranularityText(BoxScore)| == 9 && |GranularityText(EventWithCoords)| == 17 && |GranularityText(Tracking)| == 8;
  }

  lemma EntityTexts(a: EntityType, b: EntityType)
    ensures SpaceFree(EntityText(a))
    ensures EntityText(a) == EntityText(b) ==> a == b
  {
    assert EntityText(Player)[0] == 'p' && EntityText(Match)[0] == 'm' && EntityText(Season)[0] == 's';
    assert EntityText(Opponent)[0] == 'o' && EntityText(Competition)[0] == 'c';
  }

  lemma PartsAreDetermined(m: string, e: string, g: Granularity, s: string, c: string,
                           m': string, e': string, g': Granularity, s': string, c': string)
    requires SpaceFree(m) && SpaceFree(e) && SpaceFree(s) && SpaceFree(c)
    requires JoinKey(m, e, g, s, c) == JoinKey(m', e', g', s', c')
    ensures m == m' && e == e' && g == g' && s == s' && c == c'
  {
    KeySpaces(m, e, g, s, c);
    KeySpaces(m', e', g', s', c');
    NoSpaces(m); NoSpaces(e); NoSpaces(s); NoSpaces(c);
    NoSpaces(m'); NoSpaces(e'); NoSpaces(s'); NoSpaces(c');
    var t, t' := GranularityText(g), GranularityText(g');
    GranularityTexts(g, g');
    GranularityTexts(g', g);
    hide Spaces, GranularityText;
    FirstPart(" ", m, m', e + (" " + (t + (" " + (s + (" " + c))))), e' + (" " + (t' + (" " + (s' + (" " + c'))))));
    FirstPart(" ", e, e', t + (" " + (s + (" " + c))), t' + (" " + (s' + (" " + c'))));
    FirstPart(" ", t, t', s + (" " + c), s' + (" " + c'));
    FirstPart(" ", s, s', c, c');
  }

  /** A key made of space-free parts is met only by those parts: whatever the other parts
      are, even with spaces inside them. */
  lemma KeyIsInjective(c: Cell, q: Query)
    requires SpaceFreeCell(c) && CellKey(c) == QueryKey(q)
    ensures c.metric == q.metric && c.entityType == q.entityType && c.granularity == VizGranularity(q.viz)
    ensures c.season == q.season && c.competition == q.competition
  {
    EntityTexts(c.entityType, q.entityType);
    PartsAreDetermined(c.metric, EntityText(c.entityType), c.granularity, c.season, c.competition,
                       q.metric, EntityText(q.entityType), VizGranularity(q.viz), q.season, q.competition);
  }

  // ---------------------------------------------------------------- the index

  function Index(coverage: seq<Cell>): map<string, Cell> {
    if coverage == [] then map[]
    else Index(coverage[..|coverage| - 1])[CellKey(coverage[|coverage| - 1]) := coverage[|coverage| - 1]]
  }

  function Find(index: map<string, Cell>, q: Query): Option<Cell> {
    if QueryKey(q) in index then Some(index[QueryKey(q)]) else None
  }

  predicate Covers(c: Cell, q: Query) {
    && c.metric == q.metric && c.entityType == q.entityType && c.granularity == VizGranularity(q.viz)
    && c.season == q.season && c.competition == q.competition
  }

  /** The reference: look at every cell. */
  function Scan(coverage: seq<Cell>, q: Query): Option<Cell> {
    if coverage == [] then None
    else if Covers(coverage[0], q) then Some(coverage[0])
    else Scan(coverage[1..], q)
  }

  lemma {:induction false} ScanFinds(coverage: seq<Cell>, q: Query)
    ensures Scan(coverage, q).Some? ==> Scan(coverage, q).value in coverage && Covers(Scan(coverage, q).value, q)
    ensures (exists c :: c in coverage && Covers(c, q)) <==> Scan(coverage, q).Some?
  {
    if coverage != [] {
      ScanFinds(coverage[1..], q);
      assert coverage == [coverage[0]] + coverage[1..];
    }
  }

  lemma {:induction false} IndexHolds(coverage: seq<Cell>)
    ensures forall k | k in Index(coverage) :: Index(coverage)[k] in coverage && CellKey(Index(coverage)[k]) == k
    ensures forall c | c in coverage :: CellKey(c) in Index(coverage)
  {
    if coverage != [] {
      IndexHolds(coverage[..|coverage| - 1]);
      assert coverage == coverage[..|coverage| - 1] + [coverage[|coverage| - 1]];
    }
  }

  lemma OneCellCovers(c: Compiled, q: Query, a: Cell, b: Cell)
    requires Accepted(c) && a in c.coverage && b in c.coverage && Covers(a, q) && Covers(b, q)
    ensures a == b
  {
    var i :| 0 <= i < |c.coverage| && c.coverage[i] == a;
    var j :| 0 <= j < |c.coverage| && c.coverage[j] == b;
    assert SameCell(a, b) && SameCell(b, a);
    hide SameCell, Covers;
  }

  // ---------------------------------------------------------------- when the index is the scan

  /** The words between the metric and the season of a query's key. */
  function Words(e: EntityType, g: Granularity): string {
    " " + (EntityText(e) + (" " + (GranularityText(g) + " ")))
  }

  predicate SpelledAt(key: string, e: EntityType, g: Granularity, i: nat) {
    var n := |Words(e, g)|;
    i + n <= |key| && key[i..i + n] == Words(e, g) && ' ' in key[i + n..]
  }

  /** The text can be read as a query's key whose metric ends at i: an entity type and a
      granularity that queries ask for stand there, and a space follows later. */
  predicate AskedAt(key: string, i: nat) {
    exists e :: SpelledAt(key, e, BoxScore, i) || SpelledAt(key, e, EventWithCoords, i)
  }

  lemma KeyIsWords(metric: string, e: EntityType, g: Granularity, season: string, comp: string)
    ensures JoinKey(metric, EntityText(e), g, season, comp) == metric + (Words(e, g) + (season + (" " + comp)))
  {
    var a, b, tail := EntityText(e), GranularityText(g), season + (" " + comp);
    hide EntityText, GranularityText;
    assert " " + (a + (" " + (b + (" " + tail)))) == (" " + (a + (" " + (b + " ")))) + tail;
  }

  lemma SplitAt(s: string, i: nat, n: nat, k: nat)
    requires i + n + k < |s| && s[i + n + k] == ' '
    ensures s == s[..i] + (s[i..i + n] + (s[i + n..i + n + k] + (" " + s[i + n + k + 1..])))
  {
    var tail := s[i + n..];
    assert tail == s[i + n..i + n + k] + (" " + s[i + n + k + 1..]);
    assert s[i..] == s[i..i + n] + tail;
    assert s == s[..i] + s[i..];
  }

  /** The parts of a text read at i, with the separator of season and competition at j. */
  lemma ReadAt(key: string, e: EntityType, viz: Viz, i: nat, j: nat) returns (q: Query)
    requires SpelledAt(key, e, VizGranularity(viz), i)
    requires i + |Words(e, VizGranularity(viz))| <= j < |key| && key[j] == ' '
    ensures QueryKey(q) == key && |q.metric| == i
  {
    hide Words, JoinKey, GranularityText, EntityText;
    var g := VizGranularity(viz);
    var n := |Words(e, g)|;
    SplitAt(key, i, n, j - i - n);
    KeyIsWords(key[..i], e, g, key[i + n..j], key[j + 1..]);
    q := Query(key[..i], e, key[i + n..j], key[j + 1..], viz, "");
  }

  lemma AskedIsAQuery(key: string, i: nat) returns (q: Query)
    requires AskedAt(key, i)
    ensures QueryKey(q) == key && |q.metric| == i
  {
    var e :| SpelledAt(key, e, BoxScore, i) || SpelledAt(key, e, EventWithCoords, i);
    var viz := if SpelledAt(key, e, BoxScore, i) then Table else ShotMap;
    var n := |Words(e, VizGranularity(viz))|;
    hide Words;
    assert ' ' in key[i + n..];
    var k :| 0 <= k < |key| - i - n && key[i + n..][k] == ' ';
    q := ReadAt(key, e, viz, i, i + n + k);
  }

  lemma QueryIsAsked(q: Query)
    ensures AskedAt(QueryKey(q), |q.metric|)
  {
    var e, g, key := q.entityType, VizGranularity(q.viz), QueryKey(q);
    var w, tail := Words(e, g), q.season + (" " + q.competition);
    hide Words;
    KeyIsWords(q.metric, e, g, q.season, q.competition);
    var i := |q.metric|;
    assert key[i..i + |w|] == w && key[i + |w|..] == tail;
    assert tail[|q.season|] == ' ';
    assert SpelledAt(key, e, g, i);
  }

  /** The texts that are keys of queries. */
  lemma AskableExactlyByQueries(key: string)
    ensures (exists i: nat :: AskedAt(key, i)) <==> exists q :: QueryKey(q) == key
  {
    hide QueryKey, AskedAt;
    if i: nat :| AskedAt(key, i) { var q := AskedIsAQuery(key, i); }
    if q :| QueryKey(q) == key { QueryIsAsked(q); }
  }

  /** A cell's key read as a query's key gives the cell's own query and no other. */
  predicate OneReading(c: Cell) {
    && SpaceFree(c.season) && SpaceFree(c.competition)
    && forall i | 0 <= i < |CellKey(c)| && AskedAt(CellKey(c), i) :: i == |c.metric|
  }

  predicate NoReading(key: string) {
    forall i | 0 <= i < |key| :: !AskedAt(key, i)
  }

  /** Spaces may stand inside metrics as long as no key can be read in two ways. A cell of a
      granularity that no query asks for must not be readable at all, unless another cell
      took its place in the index. */
  predicate Unambiguous(coverage: seq<Cell>) {
    IndexHolds(coverage);
    forall c | c in coverage ::
      if c.granularity == Tracking then NoReading(CellKey(c)) || Index(coverage)[CellKey(c)].granularity != Tracking
      else OneReading(c)
  }

  /** Two readings that start at one place share the first three parts. */
  lemma OnePlace(c: Cell, q: Query)
    requires CellKey(c) == QueryKey(q) && |c.metric| == |q.metric|
    ensures c.metric == q.metric && c.entityType == q.entityType && c.granularity == VizGranularity(q.viz)
    ensures c.season + (" " + c.competition) == q.season + (" " + q.competition)
  {
    var e, f, g, h := EntityText(c.entityType), EntityText(q.entityType), GranularityText(c.granularity), GranularityText(VizGranularity(q.viz));
    EntityTexts(c.entityType, q.entityType);
    EntityTexts(q.entityType, c.entityType);
    GranularityTexts(c.granularity, VizGranularity(q.viz));
    GranularityTexts(VizGranularity(q.viz), c.granularity);
    var x, y := c.season + (" " + c.competition), q.season + (" " + q.competition);
    hide EntityText, GranularityText;
    var s, t := c.metric + (" " + (e + (" " + (g + (" " + x))))), q.metric + (" " + (f + (" " + (h + (" " + y)))));
    assert s == t && s[..|c.metric|] == c.metric && t[..|q.metric|] == q.metric;
    assert s[|c.metric| + 1..] == e + (" " + (g + (" " + x))) && t[|q.metric| + 1..] == f + (" " + (h + (" " + y)));
    FirstPart(" ", e, f, g + (" " + x), h + (" " + y));
    FirstPart(" ", g, h, x, y);
  }

  /** Space-free ends are met only by themselves. */
  lemma OneEnd(season: string, comp: string, season': string, comp': string)
    requires SpaceFree(season) && SpaceFree(comp) && season + (" " + comp) == season' + (" " + comp')
    ensures season == season' && comp == comp'
  {
    var t := season + (" " + comp);
    assert t[|season|] == ' ' && t[|season'|] == ' ';
    var n := |season|;
    assert |season'| == n;
    assert t[..n] == season && t[n + 1..] == comp;
    assert t[..n] == season' && t[n + 1..] == comp';
  }

  /** The joined-key lookup is the linear scan, for every query whatever. */
  lemma LookupIsScan(c: Compiled, q: Query)
    requires Accepted(c) && Unambiguous(c.coverage)
    ensures Find(Index(c.coverage), q) == Scan(c.coverage, q)
  {
    IndexHolds(c.coverage);
    ScanFinds(c.coverage, q);
    QueryIsAsked(q);
    var found, scanned := Find(Index(c.coverage), q), Scan(c.coverage, q);
    if found.Some? {
      var cell := found.value;
      assert CellKey(cell) == QueryKey(q) && |q.metric| < |QueryKey(q)|;
      hide Index, Scan, JoinKey, AskedAt;
      assert cell.granularity != Tracking && OneReading(cell);
      OnePlace(cell, q);
      OneEnd(cell.season, cell.competition, q.season, q.competition);
      OneCellCovers(c, q, cell, scanned.value);
    }
    if scanned.Some? {
      assert CellKey(scanned.value) == QueryKey(q);
    }
  }

  /** The query that a cell covers. */
  function QueryFor(c: Cell): (q: Query)
    requires c.granularity != Tracking
    ensures Covers(c, q) && QueryKey(q) == CellKey(c)
  {
    Query(c.metric, c.entityType, c.season, c.competition, if c.granularity == BoxScore then Table else ShotMap, "")
  }

  /** A second reading of a cell's key is another query. */
  lemma SecondReading(c: Cell) returns (q: Query)
    requires c.granularity != Tracking && !OneReading(c)
    ensures QueryKey(q) == CellKey(c) && !Covers(c, q)
  {
    hide AskedAt, Words, GranularityText, EntityText;
    if i :| 0 <= i < |CellKey(c)| && AskedAt(CellKey(c), i) && i != |c.metric| {
      q := AskedIsAQuery(CellKey(c), i);
    } else {
      var season, comp := SecondEnd(c.season, c.competition);
      q := QueryFor(c).(season := season, competition := comp);
    }
  }

  lemma SecondEnd(season: string, comp: string) returns (season': string, comp': string)
    requires !SpaceFree(season) || !SpaceFree(comp)
    ensures season' + (" " + comp') == season + (" " + comp) && |season'| != |season|
  {
    var tail := season + (" " + comp);
    var k := if !SpaceFree(season) then SpaceIn(season) else |season| + 1 + SpaceIn(comp);
    assert tail[k] == ' ';
    season', comp' := tail[..k], tail[k + 1..];
  }

  function SpaceIn(s: string): (k: nat)
    requires !SpaceFree(s)
    ensures k < |s| && s[k] == ' '
  {
    if s[0] == ' ' then 0 else 1 + SpaceIn(s[1..])
  }

  /** A cell with two readings misleads the lookup for some query. */
  lemma AmbiguousCellMisleads(c: Compiled, cell: Cell) returns (q: Query)
    requires Accepted(c) && cell in c.coverage && cell.granularity != Tracking && !OneReading(cell)
    ensures Find(Index(c.coverage), q) != Scan(c.coverage, q)
  {
    q := SecondReading(cell);
    IndexHolds(c.coverage);
    if Index(c.coverage)[CellKey(cell)] != cell {
      q := QueryFor(cell);
      ScanFinds(c.coverage, q);
      OneCellCovers(c, q, Scan(c.coverage, q).value, cell);
    } else {
      ScanFinds(c.coverage, q);
    }
  }

  lemma TrackingCellMisleads(c: Compiled, cell: Cell, i: nat) returns (q: Query)
    requires Accepted(c) && cell in c.coverage && AskedAt(CellKey(cell), i)
    requires CellKey(cell) in Index(c.coverage) && Index(c.coverage)[CellKey(cell)].granularity == Tracking
    ensures Find(Index(c.coverage), q) != Scan(c.coverage, q)
  {
    q := AskedIsAQuery(CellKey(cell), i);
    ScanFinds(c.coverage, q);
  }

  /** Exactly when the index may stand for the coverage list. */
  lemma LookupIsScanExactly(c: Compiled)
    requires Accepted(c)
    ensures (forall q :: Find(Index(c.coverage), q) == Scan(c.coverage, q)) <==> Unambiguous(c.coverage)
  {
    hide Find, Index, Scan, Accepted, OneReading, AskedAt, CellKey;
    IndexHolds(c.coverage);
    if Unambiguous(c.coverage) {
      forall q
        ensures Find(Index(c.coverage), q) == Scan(c.coverage, q)
      {
        LookupIsScan(c, q);
      }
    } else if bad :| bad in c.coverage && bad.granularity != Tracking && !OneReading(bad) {
      var q := AmbiguousCellMisleads(c, bad);
    } else {
      var bad :| bad in c.coverage && !NoReading(CellKey(bad)) && Index(c.coverage)[CellKey(bad)].granularity == Tracking;
      var i :| 0 <= i < |CellKey(bad)| && AskedAt(CellKey(bad), i);
      var q := TrackingCellMisleads(c, bad, i);
    }
  }

  /** Without spaces inside any field there is nothing to confuse. */
  lemma SpaceFreeIsUnambiguous(coverage: seq<Cell>)
    requires forall c | c in coverage :: SpaceFreeCell(c)
    ensures Unambiguous(coverage)
  {
    IndexHolds(coverage);
    forall c, i | c in coverage && 0 <= i < |CellKey(c)| && AskedAt(CellKey(c), i)
      ensures c.granularity != Tracking && i == |c.metric|
    {
      var q := AskedIsAQuery(CellKey(c), i);
      KeyIsInjective(c, q);
    }
    hide CellKey, AskedAt, Index;
  }

  /** A space inside a metric need do no harm: nowhere but at its end do the words follow. */
  lemma HarmlessSpace()
    ensures var cell := Cell("xg chain", Player, BoxScore, "2024", "PL", "fpl", true, Cheap);
            Decodable(Compiled([Metric("xg chain", BoxScore)], [cell])) && !SpaceFreeCell(cell) && Unambiguous([cell])
  {
    hide AskedAt, StrictKey, Index;
    var cell := Cell("xg chain", Player, BoxScore, "2024", "PL", "fpl", true, Cheap);
    assert OneReading(cell) by {
      forall i | 0 <= i < |CellKey(cell)| && AskedAt(CellKey(cell), i)
        ensures i == |cell.metric|
      {
        HarmlessKey(CellKey(cell), i);
      }
    }
    hide OneReading, CellKey;
    assert cell.metric[2] == ' ';
  }

  lemma HarmlessKey(key: string, i: nat)
    requires |key| == 33 && key[4] == 'h' && key[16] == 'b' && AskedAt(key, i)
    requires forall k | 0 <= k <= 15 && key[k] == ' ' :: k == 2 || k == 8 || k == 15
    ensures i == 8
  {
    hide Words, SpelledAt;
    var e :| SpelledAt(key, e, BoxScore, i) || SpelledAt(key, e, EventWithCoords, i);
    var g := if SpelledAt(key, e, BoxScore, i) then BoxScore else EventWithCoords;
    HarmlessWords(key, e, g, i);
  }

  lemma HarmlessWords(key: string, e: EntityType, g: Granularity, i: nat)
    requires |key| == 33 && key[4] == 'h' && key[16] == 'b' && SpelledAt(key, e, g, i) && g != Tracking
    requires forall k | 0 <= k <= 15 && key[k] == ' ' :: k == 2 || k == 8 || k == 15
    ensures i == 8
  {
    hide Words;
    WordsBegin(e, g);
    var w := Words(e, g);
    assert ' ' in key[i + |w|..] && key[i..i + |w|] == w;
    assert key[i] == w[0] && key[i + 1] == w[1] && key[i + 2] == w[2];
  }

  lemma WordsBegin(e: EntityType, g: Granularity)
    requires g != Tracking
    ensures |Words(e, g)| >= 17 && Words(e, g)[0] == ' ' && Words(e, g)[1] != 'b' && Words(e, g)[2] != 'h'
  {
  }

  // ---------------------------------------------------------------- the nearest alternative

  predicate Usable(c: Cell, q: Query) {
    c.metric == q.metric && c.entityType == q.entityType && c.competition == q.competition && c.redistributable
  }

  /** Seasons of usable cells of a granularity, but for one season. */
  function SeasonsOf(coverage: seq<Cell>, q: Query, g: Granularity, but: Option<string>): seq<string> {
    if coverage == [] then []
    else
      var rest := SeasonsOf(coverage[1..], q, g, but);
      if Usable(coverage[0], q) && coverage[0].granularity == g && but != Some(coverage[0].season) then [coverage[0].season] + rest
      else rest
  }

  lemma {:induction false} SeasonsAreCovered(coverage: seq<Cell>, q: Query, g: Granularity, but: Option<string>, season: string)
    ensures season in SeasonsOf(coverage, q, g, but) <==>
              but != Some(season) && exists c :: c in coverage && Usable(c, q) && c.granularity == g && c.season == season
  {
    if coverage != [] {
      SeasonsAreCovered(coverage[1..], q, g, but, season);
      assert coverage == [coverage[0]] + coverage[1..];
    }
  }

  function NearestAlternative(coverage: seq<Cell>, q: Query): Option<Query> {
    var sameShape := SeasonsOf(coverage, q, VizGranularity(q.viz), Some(q.season));
    var boxScore := SeasonsOf(coverage, q, BoxScore, None);
    if sameShape != [] then Some(q.(season := Latest(ByCodeUnit, sameShape)))
    else if q.season in boxScore then Some(q.(viz := Bar))
    else if boxScore != [] then Some(q.(season := Latest(ByCodeUnit, boxScore), viz := Bar))
    else None
  }

  function HasMetric(metrics: seq<Metric>, id: string): bool {
    exists m :: m in metrics && m.id == id
  }

  function Check(c: Compiled, index: map<string, Cell>, q: Query, artifactExists: bool): Feasible {
    Resolve(c, Find(index, q), q, artifactExists)
  }

  /** The reference: the same answers from looking at every cell. */
  function CheckByScan(c: Compiled, q: Query, artifactExists: bool): Feasible {
    Resolve(c, Scan(c.coverage, q), q, artifactExists)
  }

  function Resolve(c: Compiled, found: Option<Cell>, q: Query, artifactExists: bool): Feasible {
    if !HasMetric(c.metrics, q.metric) then Feasible(NoData, None)
    else
      match found
      case None => Feasible(NoData, NearestAlternative(c.coverage, q))
      case Some(cell) =>
        if !cell.redistributable then Feasible(NoRights, NearestAlternative(c.coverage, q))
        else if artifactExists then Feasible(Available, None)
        else if cell.cost == Expensive then Feasible(ComputableButExpensive, None)
        else Feasible(ComputableNowQueued, None)
  }

  lemma CoveredIsFeasible(c: Compiled, q: Query, artifactExists: bool, cell: Cell)
    requires Accepted(c) && Unambiguous(c.coverage) && HasMetric(c.metrics, q.metric)
    requires cell in c.coverage && cell.redistributable && Covers(cell, q)
    ensures Check(c, Index(c.coverage), q, artifactExists).state !in {NoData, NoRights}
  {
    hide Index, Scan, Find, Unambiguous, HasMetric, Covers, Accepted, NearestAlternative;
    LookupIsScan(c, q);
    ScanFinds(c.coverage, q);
    OneCellCovers(c, q, Scan(c.coverage, q).value, cell);
  }

  /** Which cell stands behind an alternative. */
  lemma AlternativeIsCovered(coverage: seq<Cell>, q: Query) returns (cell: Cell)
    requires NearestAlternative(coverage, q).Some?
    ensures cell in coverage && cell.redistributable && Covers(cell, NearestAlternative(coverage, q).value)
    ensures NearestAlternative(coverage, q).value.season == q.season ==> cell.season == q.season && cell.granularity == BoxScore
    ensures NearestAlternative(coverage, q).value.season == q.season ==>
              NearestAlternative(coverage, q).value == q.(viz := Bar)
  {
    var alt := NearestAlternative(coverage, q).value;
    var wanted := VizGranularity(q.viz);
    var sameShape := SeasonsOf(coverage, q, wanted, Some(q.season));
    var boxScore := SeasonsOf(coverage, q, BoxScore, None);
    hide SeasonsOf, Latest;
    if sameShape != [] {
      SeasonsAreCovered(coverage, q, wanted, Some(q.season), alt.season);
      cell :| cell in coverage && Usable(cell, q) && cell.granularity == wanted && cell.season == alt.season;
    } else {
      SeasonsAreCovered(coverage, q, BoxScore, None, alt.season);
      cell :| cell in coverage && Usable(cell, q) && cell.granularity == BoxScore && cell.season == alt.season;
    }
  }

  /** Any alternative offered differs from the query and is itself answerable. */
  lemma AlternativeIsHonest(c: Compiled, q: Query, artifactExists: bool, laterExists: bool)
    requires Accepted(c) && Unambiguous(c.coverage)
    ensures var offered := Check(c, Index(c.coverage), q, artifactExists).alternative;
            offered.Some? ==>
              && offered.value != q
              && Check(c, Index(c.coverage), offered.value, laterExists).state !in {NoData, NoRights}
              && Check(c, Index(c.coverage), offered.value, laterExists).alternative.None?
  {
    var r := Check(c, Index(c.coverage), q, artifactExists);
    if r.alternative.Some? {
      var alt := r.alternative.value;
      var cell := AlternativeIsCovered(c.coverage, q);
      assert alt.metric == q.metric;
      CoveredIsFeasible(c, alt, laterExists, cell);
      if alt == q {
        CoveredIsFeasible(c, q, artifactExists, cell);
        assert false;
      }
    }
  }

  // ---------------------------------------------------------------- the catalog in place

  /** The decoder's duplicate test joins the parts with a null character. */
  function StrictKey(c: Cell): string {
    c.metric + (NUL + (EntityText(c.entityType) + (NUL + (GranularityText(c.granularity) + (NUL + (c.season + (NUL + c.competition)))))))
  }

  const NUL := "\U{0000}"

  /** All cells of a source say the same about it. */
  ghost predicate OneFlagPerSource(coverage: seq<Cell>) {
    forall a, b | a in coverage && b in coverage && a.sourceId == b.sourceId :: a.redistributable == b.redistributable
  }

  /** The cross-record checks of the decoder. */
  ghost predicate Decodable(c: Compiled) {
    && DistinctIds(c.metrics)
    && (forall i, j | 0 <= i < j < |c.coverage| :: StrictKey(c.coverage[i]) != StrictKey(c.coverage[j]))
    && (forall cell | cell in c.coverage :: Metric(cell.metric, cell.granularity) in c.metrics)
    && OneFlagPerSource(c.coverage)
  }

  predicate NullFree(c: Cell) {
    NUL[0] !in c.metric && NUL[0] !in c.season && NUL[0] !in c.competition
  }

  lemma SameCellSameKey(a: Cell, b: Cell)
    ensures SameCell(a, b) ==> StrictKey(a) == StrictKey(b)
    ensures NullFree(a) && NullFree(b) ==> (SameCell(a, b) <==> StrictKey(a) == StrictKey(b))
  {
    if NullFree(a) && NullFree(b) && StrictKey(a) == StrictKey(b) {
      var g, h := GranularityText(a.granularity), GranularityText(b.granularity);
      var e, f := EntityText(a.entityType), EntityText(b.entityType);
      GranularityTexts(a.granularity, b.granularity);
      EntityTexts(a.entityType, b.entityType);
      assert NUL[0] !in g && NUL[0] !in h && NUL[0] !in e && NUL[0] !in f;
      FirstPart(NUL, a.metric, b.metric, e + (NUL + (g + (NUL + (a.season + (NUL + a.competition))))),
                f + (NUL + (h + (NUL + (b.season + (NUL + b.competition))))));
      FirstPart(NUL, e, f, g + (NUL + (a.season + (NUL + a.competition))),
                h + (NUL + (b.season + (NUL + b.competition))));
      FirstPart(NUL, g, h, a.season + (NUL + a.competition), b.season + (NUL + b.competition));
      FirstPart(NUL, a.season, b.season, a.competition, b.competition);
    }
  }

  /** What the decoder lets through has no two cells for one key. */
  lemma DecodableIsAccepted(c: Compiled)
    requires Decodable(c)
    ensures Accepted(c)
  {
    hide StrictKey, SameCell, OneFlagPerSource;
    forall i, j | 0 <= i < j < |c.coverage|
      ensures !SameCell(c.coverage[i], c.coverage[j])
    {
      SameCellSameKey(c.coverage[i], c.coverage[j]);
    }
  }

  ghost predicate ById(metrics: seq<Metric>, byId: map<string, Metric>) {
    && (forall id | id in byId :: byId[id] in metrics && byId[id].id == id)
    && (forall m | m in metrics :: m.id in byId && byId[m.id] == m)
  }

  lemma ByIdAppend(metrics: seq<Metric>, byId: map<string, Metric>, m: Metric)
    requires ById(metrics, byId) && DistinctIds(metrics)
    ensures DistinctIds(metrics + [m]) <==> m.id !in byId
    ensures m.id !in byId ==> ById(metrics + [m], byId[m.id := m])
  {
    var all := metrics + [m];
    assert all[|metrics|] == m;
    if m.id in byId {
      var j :| 0 <= j < |metrics| && metrics[j] == byId[m.id];
      assert all[j].id == m.id;
    }
  }

  lemma DistinctFront(metrics: seq<Metric>, i: nat)
    requires i <= |metrics|
    ensures DistinctIds(metrics) ==> DistinctIds(metrics[..i])
  {
  }

  method MetricsById(metrics: seq<Metric>) returns (byId: Option<map<string, Metric>>)
    ensures byId.Some? <==> DistinctIds(metrics)
    ensures byId.Some? ==> ById(metrics, byId.value)
  {
    var found: map<string, Metric> := map[];
    assert DistinctIds(metrics[..0]) && ById(metrics[..0], found);
    hide DistinctIds, ById;
    for i := 0 to |metrics|
      invariant DistinctIds(metrics[..i]) && ById(metrics[..i], found)
    {
      assert metrics[..i + 1] == metrics[..i] + [metrics[i]];
      ByIdAppend(metrics[..i], found, metrics[i]);
      DistinctFront(metrics, i + 1);
      if metrics[i].id in found {
        return None;
      }
      found := found[metrics[i].id := metrics[i]];
    }
    assert metrics[..|metrics|] == metrics;
    byId := Some(found);
  }

  /** With spaces the two part ways: in a catalog the decoder lets through, a cell answers
      for a query it does not cover. */
  lemma SpacesBreakTheIndex()
    ensures var cell := Cell("goals", Player, BoxScore, "2024 25", "PL", "fpl", true, Cheap);
            var q := Query("goals", Player, "2024", "25 PL", Table, "");
            Decodable(Compiled([Metric("goals", BoxScore)], [cell]))
            && Find(Index([cell]), q) == Some(cell) && Scan([cell], q) == None
  {
    var cell := Cell("goals", Player, BoxScore, "2024 25", "PL", "fpl", true, Cheap);
    var q := Query("goals", Player, "2024", "25 PL", Table, "");
    assert [cell][..0] == [] && [cell][1..] == [];
    assert "2024 25" + (" " + "PL") == "2024" + (" " + "25 PL");
    assert |q.season| != |cell.season|;
    assert CellKey(cell) == QueryKey(q);
  }

  lemma NotDecodable(c: Compiled, j: nat, k: nat)
    requires j < |c.coverage| && k < |c.coverage|
    requires
      || (j != k && StrictKey(c.coverage[j]) == StrictKey(c.coverage[k]))
      || Metric(c.coverage[k].metric, c.coverage[k].granularity) !in c.metrics
      || (c.coverage[j].sourceId == c.coverage[k].sourceId && c.coverage[j].redistributable != c.coverage[k].redistributable)
    ensures !Decodable(c)
  {
    hide StrictKey;
  }

  /** One flag for each source, as far as the cells have been read. */
  ghost predicate FlagsOf(coverage: seq<Cell>, flags: map<string, bool>) {
    && (forall cell | cell in coverage :: cell.sourceId in flags && flags[cell.sourceId] == cell.redistributable)
    && (forall s | s in flags :: exists cell :: cell in coverage && cell.sourceId == s)
  }

  lemma FlagsAppend(coverage: seq<Cell>, flags: map<string, bool>, cell: Cell)
    requires FlagsOf(coverage, flags) && (cell.sourceId in flags ==> flags[cell.sourceId] == cell.redistributable)
    ensures FlagsOf(coverage + [cell], flags[cell.sourceId := cell.redistributable])
  {
    var all := coverage + [cell];
    assert all[|coverage|] == cell;
    forall s | s in flags
      ensures exists x :: x in all && x.sourceId == s
    {
      var x :| x in coverage && x.sourceId == s;
      assert x in all;
    }
  }

  lemma EmptyFlags()
    ensures FlagsOf([], map[])
  {
  }

  lemma FlagsAgree(coverage: seq<Cell>, flags: map<string, bool>)
    requires FlagsOf(coverage, flags)
    ensures OneFlagPerSource(coverage)
  {
  }

  lemma ConflictingFlag(c: Compiled, flags: map<string, bool>, k: nat)
    requires k < |c.coverage| && FlagsOf(c.coverage[..k], flags)
    requires c.coverage[k].sourceId in flags && flags[c.coverage[k].sourceId] != c.coverage[k].redistributable
    ensures !Decodable(c)
  {
    hide Decodable;
    var x :| x in c.coverage[..k] && x.sourceId == c.coverage[k].sourceId;
    var j :| 0 <= j < k && c.coverage[..k][j] == x;
    NotDecodable(c, j, k);
  }

  method DecodeCompiled(metrics: seq<Metric>, coverage: seq<Cell>) returns (c: Option<Compiled>)
    ensures c.Some? <==> Decodable(Compiled(metrics, coverage))
    ensures c.Some? ==> c.value == Compiled(metrics, coverage)
  {
    hide StrictKey, FlagsOf;
    var byId := MetricsById(metrics);
    if byId.None? {
      return None;
    }
    var all := Compiled(metrics, coverage);
    var seen: set<string> := {};
    var flags: map<string, bool> := map[];
    assert FlagsOf([], flags) by { EmptyFlags(); }
    for i := 0 to |coverage|
      invariant seen == set k | 0 <= k < i :: StrictKey(coverage[k])
      invariant forall j, k | 0 <= j < k < i :: StrictKey(coverage[j]) != StrictKey(coverage[k])
      invariant forall k | 0 <= k < i :: Metric(coverage[k].metric, coverage[k].granularity) in metrics
      invariant FlagsOf(coverage[..i], flags)
    {
      hide Decodable;
      var cell := coverage[i];
      var key := StrictKey(cell);
      if key in seen {
        ghost var j :| 0 <= j < i && StrictKey(coverage[j]) == key;
        NotDecodable(all, j, i);
        return None;
      }
      seen := seen + {key};
      if cell.metric !in byId.value || byId.value[cell.metric].granularity != cell.granularity {
        NotDecodable(all, i, i);
        return None;
      }
      assert byId.value[cell.metric] == Metric(cell.metric, cell.granularity);
      if cell.sourceId in flags && flags[cell.sourceId] != cell.redistributable {
        ConflictingFlag(all, flags, i);
        return None;
      }
      FlagsAppend(coverage[..i], flags, cell);
      assert coverage[..i] + [cell] == coverage[..i + 1];
      flags := flags[cell.sourceId := cell.redistributable];
    }
    assert coverage[..|coverage|] == coverage;
    FlagsAgree(coverage, flags);
    c := Some(all);
  }

  class Catalog {
    const compiled: Compiled
    var metricIds: set<string>
    var coverageIndex: map<string, Cell>

    ghost predicate Valid()
      reads this
    {
      metricIds == (set m | m in compiled.metrics :: m.id) && coverageIndex == Index(compiled.coverage)
    }

    constructor (compiled: Compiled)
      ensures this.compiled == compiled && Valid()
    {
      this.compiled := compiled;
      var ids: set<string> := {};
      var index: map<string, Cell> := map[];
      for i := 0 to |compiled.metrics|
        invariant ids == set k | 0 <= k < i :: compiled.metrics[k].id
      {
        ids := ids + {compiled.metrics[i].id};
      }
      for i := 0 to |compiled.coverage|
        invariant index == Index(compiled.coverage[..i])
      {
        assert compiled.coverage[..i + 1][..i] == compiled.coverage[..i];
        index := index[CellKey(compiled.coverage[i]) := compiled.coverage[i]];
      }
      assert compiled.coverage[..|compiled.coverage|] == compiled.coverage;
      metricIds, coverageIndex := ids, index;
    }

    /** With an unambiguous catalog, what the resolver answers is what a linear scan of the
        coverage would. */
    method CheckFeasibility(q: Query, artifactExists: bool) returns (r: Feasible)
      requires Valid()
      ensures r == Check(compiled, Index(compiled.coverage), q, artifactExists)
      ensures Accepted(compiled) && Unambiguous(compiled.coverage) ==> r == CheckByScan(compiled, q, artifactExists)
    {
      if Accepted(compiled) && Unambiguous(compiled.coverage) {
        LookupIsScan(compiled, q);
      }
      if q.metric !in metricIds {
        return Feasible(NoData, None);
      }
      var key := QueryKey(q);
      if key !in coverageIndex {
        return Feasible(NoData, NearestAlternative(compiled.coverage, q));
      }
      var cell := coverageIndex[key];
      if !cell.redistributable {
        return Feasible(NoRights, NearestAlternative(compiled.coverage, q));
      }
      if artifactExists {
        return Feasible(Available, None);
      }
      r := Feasible(if cell.cost == Expensive then ComputableButExpensive else ComputableNowQueued, None);
    }
  }
}
