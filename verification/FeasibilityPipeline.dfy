/** The pipeline's resolver over the full catalog, the invariants it is checked for, and
    the compiled catalog the worker reads: both resolvers give one answer. */
module FeasibilityPipeline {
  import opened Canonical
  import opened Feasibility
  import opened Options
  import opened TextSort

  /** What a source allows, the saved copy of its terms, and the day they were verified. */
  datatype Rights = Rights(sourceId: string, redistributable: bool, terms: Option<string>, verifiedOn: int)

  const TERMS_MAX_DAYS := 365

  datatype FullCatalog = FullCatalog(rights: seq<Rights>, metrics: seq<Metric>, coverage: seq<Cell>)

  function RightsById(rights: seq<Rights>): map<string, Rights> {
    if rights == [] then map[]
    else RightsById(rights[..|rights| - 1])[rights[|rights| - 1].sourceId := rights[|rights| - 1]]
  }

  function MetricsByName(metrics: seq<Metric>): map<string, Metric> {
    if metrics == [] then map[]
    else MetricsByName(metrics[..|metrics| - 1])[metrics[|metrics| - 1].id := metrics[|metrics| - 1]]
  }

  // ---------------------------------------------------------------- check_invariants

  datatype Key = Key(metric: string, entityType: EntityType, granularity: Granularity, season: string, competition: string)

  function KeyOf(c: Cell): Key {
    Key(c.metric, c.entityType, c.granularity, c.season, c.competition)
  }

  datatype Violation =
    | DuplicateSource(id: string) | DuplicateMetric(id: string) | DuplicateCell(key: Key) | UnknownSource(key: Key)
    | UnknownMetric(key: Key) | ForbiddenSource(key: Key) | WrongGranularity(key: Key) | UncoveredMetric(id: string)
    | NoTerms(id: string) | LostTerms(id: string) | OldTerms(id: string)

  ghost predicate Repeated(ids: seq<string>, id: string) {
    exists i, j :: 0 <= i < j < |ids| && ids[i] == id && ids[j] == id
  }

  function SourceIds(c: FullCatalog): seq<string> {
    seq(|c.rights|, i requires 0 <= i < |c.rights| => c.rights[i].sourceId)
  }

  function MetricIds(c: FullCatalog): seq<string> {
    seq(|c.metrics|, i requires 0 <= i < |c.metrics| => c.metrics[i].id)
  }

  /** What is wrong with cell `k`, as far as one of the cells before it may tell. */
  ghost predicate CellViolates(c: FullCatalog, k: nat, v: Violation)
    requires k < |c.coverage|
  {
    var cell, rights, metrics := c.coverage[k], RightsById(c.rights), MetricsByName(c.metrics);
    || (v == DuplicateCell(KeyOf(cell)) && exists j :: 0 <= j < k && KeyOf(c.coverage[j]) == KeyOf(cell))
    || (v == UnknownSource(KeyOf(cell)) && cell.sourceId !in rights)
    || (v == UnknownMetric(KeyOf(cell)) && cell.metric !in metrics)
    || (v == ForbiddenSource(KeyOf(cell)) && cell.redistributable
        && cell.sourceId in rights && !rights[cell.sourceId].redistributable)
    || (v == WrongGranularity(KeyOf(cell)) && cell.metric in metrics && metrics[cell.metric].granularity != cell.granularity)
  }

  ghost predicate Uncovered(c: FullCatalog, id: string) {
    (exists m :: m in c.metrics && m.id == id) && forall cell | cell in c.coverage :: cell.metric != id
  }

  /** What is wrong with a source's terms on a day, with these files in the repository. */
  predicate TermsViolate(r: Rights, today: int, files: set<string>, v: Violation) {
    || (v == NoTerms(r.sourceId) && r.terms.None?)
    || (v == LostTerms(r.sourceId) && r.terms.Some? && r.terms.value !in files)
    || (v == OldTerms(r.sourceId) && today - r.verifiedOn > TERMS_MAX_DAYS)
  }

  ghost predicate SomeTermsViolate(c: FullCatalog, today: int, files: set<string>, v: Violation) {
    exists k :: 0 <= k < |c.rights| && TermsViolate(c.rights[k], today, files, v)
  }

  /** The violations that concern lookups. */
  ghost predicate Violates(c: FullCatalog, v: Violation) {
    || (v.DuplicateSource? && Repeated(SourceIds(c), v.id))
    || (v.DuplicateMetric? && Repeated(MetricIds(c), v.id))
    || (exists k :: 0 <= k < |c.coverage| && CellViolates(c, k, v))
    || (v.UncoveredMetric? && Uncovered(c, v.id))
  }

  /** Every id that occurs more than once, whatever else is wrong. */
  method Duplicates(ids: seq<string>) returns (dupes: set<string>)
    ensures forall id :: id in dupes <==> Repeated(ids, id)
  {
    dupes := {};
    var seen: set<string> := {};
    for i := 0 to |ids|
      invariant seen == set k | 0 <= k < i :: ids[k]
      invariant forall id :: id in dupes <==> Repeated(ids[..i], id)
    {
      if ids[i] in seen {
        dupes := dupes + {ids[i]};
      }
      seen := seen + {ids[i]};
      forall id
        ensures Repeated(ids[..i + 1], id) <==> Repeated(ids[..i], id) || (id == ids[i] && id in ids[..i])
      {
        RepeatedAppend(ids, i, id);
      }
    }
    assert ids[..|ids|] == ids;
  }

  lemma RepeatedAppend(ids: seq<string>, i: nat, id: string)
    requires i < |ids|
    ensures Repeated(ids[..i + 1], id) <==> Repeated(ids[..i], id) || (id == ids[i] && id in ids[..i])
  {
    var before, all := ids[..i], ids[..i + 1];
    if Repeated(before, id) {
      var a, b :| 0 <= a < b < i && before[a] == id && before[b] == id;
      assert all[a] == id && all[b] == id;
    }
    if id == ids[i] && id in before {
      var k :| 0 <= k < i && before[k] == id;
      assert all[k] == id && all[i] == id;
    }
    if Repeated(all, id) {
      var a, b :| 0 <= a < b < i + 1 && all[a] == id && all[b] == id;
      assert before[a] == id;
      if b < i { assert before[b] == id; }
    }
  }

  /** Everything wrong with one cell. */
  method CheckCell(c: FullCatalog, k: nat, seen: set<Key>) returns (found: set<Violation>)
    requires k < |c.coverage| && seen == set j | 0 <= j < k :: KeyOf(c.coverage[j])
    ensures forall v :: v in found <==> CellViolates(c, k, v)
  {
    var cell, rights, metrics := c.coverage[k], RightsById(c.rights), MetricsByName(c.metrics);
    var key := KeyOf(cell);
    found := {};
    if key in seen {
      found := found + {DuplicateCell(key)};
    }
    if cell.sourceId !in rights {
      found := found + {UnknownSource(key)};
    }
    if cell.metric !in metrics {
      found := found + {UnknownMetric(key)};
    }
    if cell.sourceId in rights && cell.redistributable && !rights[cell.sourceId].redistributable {
      found := found + {ForbiddenSource(key)};
    }
    if cell.metric in metrics && metrics[cell.metric].granularity != cell.granularity {
      found := found + {WrongGranularity(key)};
    }
  }

  /** Violations are collected, not raised: every one of them is reported at once, and
      nothing else is; so a catalog without any is sound. */
  method CheckInvariants(c: FullCatalog, today: int, files: set<string>) returns (errors: set<Violation>)
    ensures forall v :: v in errors <==> Violates(c, v) || SomeTermsViolate(c, today, files, v)
    ensures errors == {} ==> Sound(c)
  {
    var lookups := CheckLookups(c);
    var terms := CheckTerms(c, today, files);
    hide Violates, SomeTermsViolate;
    errors := lookups + terms;
    forall v
      ensures errors == {} ==> !Violates(c, v)
    {
      assert v in lookups <==> Violates(c, v);
      assert v in lookups ==> v in errors;
    }
  }

  method CheckTerms(c: FullCatalog, today: int, files: set<string>) returns (found: set<Violation>)
    ensures forall v :: v in found <==> SomeTermsViolate(c, today, files, v)
  {
    found := {};
    for i := 0 to |c.rights|
      invariant forall v :: v in found <==> exists k :: 0 <= k < i && TermsViolate(c.rights[k], today, files, v)
    {
      var r := c.rights[i];
      var here: set<Violation> := {};
      if r.terms.None? {
        here := here + {NoTerms(r.sourceId)};
      } else if r.terms.value !in files {
        here := here + {LostTerms(r.sourceId)};
      }
      if today - r.verifiedOn > TERMS_MAX_DAYS {
        here := here + {OldTerms(r.sourceId)};
      }
      assert forall v :: v in here <==> TermsViolate(r, today, files, v);
      hide TermsViolate;
      found := found + here;
    }
  }

  method CheckLookups(c: FullCatalog) returns (errors: set<Violation>)
    ensures forall v :: v in errors <==> Violates(c, v)
  {
    var sources := Duplicates(SourceIds(c));
    var metrics := Duplicates(MetricIds(c));
    var cells: set<Violation> := {};
    var seen: set<Key> := {};
    for k := 0 to |c.coverage|
      invariant seen == set j | 0 <= j < k :: KeyOf(c.coverage[j])
      invariant forall v :: v in cells <==> exists j :: 0 <= j < k && CellViolates(c, j, v)
    {
      hide CellViolates;
      var found := CheckCell(c, k, seen);
      cells := cells + found;
      seen := seen + {KeyOf(c.coverage[k])};
    }
    var uncovered: set<string> := {};
    for i := 0 to |c.metrics|
      invariant forall id :: id in uncovered <==> (exists k :: 0 <= k < i && c.metrics[k].id == id) && Uncovered(c, id)
    {
      if forall cell | cell in c.coverage :: cell.metric != c.metrics[i].id {
        assert Uncovered(c, c.metrics[i].id);
        uncovered := uncovered + {c.metrics[i].id};
      }
    }
    hide CellViolates, Repeated;
    errors := (set id | id in sources :: DuplicateSource(id)) + (set id | id in metrics :: DuplicateMetric(id))
              + cells + (set id | id in uncovered :: UncoveredMetric(id));
  }

  // ---------------------------------------------------------------- sound catalogs

  /** Nothing to report. */
  ghost predicate Sound(c: FullCatalog) {
    forall v :: !Violates(c, v)
  }

  ghost predicate CellSound(c: FullCatalog, cell: Cell) {
    && cell.sourceId in RightsById(c.rights)
    && Metric(cell.metric, cell.granularity) in c.metrics
    && (cell.redistributable ==> RightsById(c.rights)[cell.sourceId].redistributable)
  }

  lemma {:induction false} MetricsByNameHolds(metrics: seq<Metric>)
    ensures forall id | id in MetricsByName(metrics) :: MetricsByName(metrics)[id] in metrics && MetricsByName(metrics)[id].id == id
  {
    if metrics != [] {
      MetricsByNameHolds(metrics[..|metrics| - 1]);
      assert metrics == metrics[..|metrics| - 1] + [metrics[|metrics| - 1]];
    }
  }

  lemma SoundCells(c: FullCatalog, k: nat)
    requires Sound(c) && k < |c.coverage|
    ensures CellSound(c, c.coverage[k])
    ensures forall j | 0 <= j < k :: !SameCell(c.coverage[j], c.coverage[k])
  {
    var cell := c.coverage[k];
    var key := KeyOf(cell);
    MetricsByNameHolds(c.metrics);
    hide RightsById, MetricsByName;
    forall v
      ensures !CellViolates(c, k, v)
    {
      assert !Violates(c, v);
    }
    assert !CellViolates(c, k, DuplicateCell(key)) && !CellViolates(c, k, UnknownSource(key));
    assert !CellViolates(c, k, UnknownMetric(key)) && !CellViolates(c, k, ForbiddenSource(key));
    assert !CellViolates(c, k, WrongGranularity(key));
    assert MetricsByName(c.metrics)[cell.metric] == Metric(cell.metric, cell.granularity);
    forall j | 0 <= j < k
      ensures !SameCell(c.coverage[j], cell)
    {
      assert KeyOf(c.coverage[j]) != key;
    }
  }

  lemma SoundMetrics(c: FullCatalog)
    requires Sound(c)
    ensures forall i, j | 0 <= i < j < |c.metrics| :: c.metrics[i].id != c.metrics[j].id
  {
    forall i, j | 0 <= i < j < |c.metrics|
      ensures c.metrics[i].id != c.metrics[j].id
    {
      var ids := MetricIds(c);
      assert !Violates(c, DuplicateMetric(c.metrics[i].id));
      assert ids[i] == c.metrics[i].id && ids[j] == c.metrics[j].id;
      hide CellViolates;
    }
  }

  function CompileForWorker(c: FullCatalog): Compiled {
    Compiled(c.metrics, KnownCells(c.coverage, RightsById(c.rights)))
  }

  function KnownCells(coverage: seq<Cell>, rights: map<string, Rights>): seq<Cell> {
    if coverage == [] then []
    else if coverage[0].sourceId in rights then [coverage[0]] + KnownCells(coverage[1..], rights)
    else KnownCells(coverage[1..], rights)
  }

  lemma {:induction false} AllCellsKnown(coverage: seq<Cell>, rights: map<string, Rights>)
    requires forall cell | cell in coverage :: cell.sourceId in rights
    ensures KnownCells(coverage, rights) == coverage
  {
    if coverage != [] {
      AllCellsKnown(coverage[1..], rights);
      assert coverage == [coverage[0]] + coverage[1..];
    }
  }

  /** What passes the pipeline's check is compiled cell for cell, and lookups are sound. */
  lemma SoundIsAccepted(c: FullCatalog)
    requires Sound(c)
    ensures CompileForWorker(c) == Compiled(c.metrics, c.coverage) && Accepted(CompileForWorker(c))
  {
    hide SameCell, RightsById, Sound;
    SoundMetrics(c);
    forall k: nat | k < |c.coverage|
      ensures CellSound(c, c.coverage[k]) && forall j | 0 <= j < k :: !SameCell(c.coverage[j], c.coverage[k])
    {
      SoundCells(c, k);
    }
    AllCellsKnown(c.coverage, RightsById(c.rights));
  }

  /** What passes the pipeline's check is let through by the worker's decoder exactly when
      the cells of each source carry one redistribution flag, which the check does not ask. */
  lemma DecodedExactlyWithOneFlag(c: FullCatalog)
    requires Sound(c) && forall cell | cell in c.coverage :: NullFree(cell)
    ensures Decodable(CompileForWorker(c)) <==> OneFlagPerSource(c.coverage)
  {
    hide Sound, StrictKey, SameCell, NullFree, OneFlagPerSource, CompileForWorker;
    SoundIsAccepted(c);
    forall i, j | 0 <= i < j < |c.coverage|
      ensures StrictKey(c.coverage[i]) != StrictKey(c.coverage[j])
    {
      SameCellSameKey(c.coverage[i], c.coverage[j]);
    }
  }

  /** One closed season of an open source: the pipeline finds nothing wrong, and the worker
      refuses the catalog. */
  lemma SoundCanBeRefused()
    ensures var cells := [Cell("goals", Player, BoxScore, "2023", "PL", "fpl", true, Cheap),
                          Cell("goals", Player, BoxScore, "2024", "PL", "fpl", false, Cheap)];
            var c := FullCatalog([Rights("fpl", true, Some("tos/fpl.html"), 20_000)], [Metric("goals", BoxScore)], cells);
            Sound(c) && !Decodable(CompileForWorker(c))
  {
    var open, shut := Cell("goals", Player, BoxScore, "2023", "PL", "fpl", true, Cheap),
                      Cell("goals", Player, BoxScore, "2024", "PL", "fpl", false, Cheap);
    var c := FullCatalog([Rights("fpl", true, Some("tos/fpl.html"), 20_000)], [Metric("goals", BoxScore)], [open, shut]);
    assert RightsById(c.rights) == map["fpl" := Rights("fpl", true, Some("tos/fpl.html"), 20_000)] by { assert c.rights[..0] == []; }
    assert MetricsByName(c.metrics) == map["goals" := Metric("goals", BoxScore)] by { assert c.metrics[..0] == []; }
    assert open in c.coverage && shut in c.coverage && open.season[3] != shut.season[3];
    hide RightsById, MetricsByName, CompileForWorker;
    forall v
      ensures !Violates(c, v)
    {
    }
    SoundIsAccepted(c);
    assert !OneFlagPerSource(c.coverage);
  }

  // ---------------------------------------------------------------- the resolver

  /** The dictionary of the coverage list: the last cell of a key. */
  function CoverageIndex(coverage: seq<Cell>): map<Key, Cell> {
    if coverage == [] then map[]
    else CoverageIndex(coverage[..|coverage| - 1])[KeyOf(coverage[|coverage| - 1]) := coverage[|coverage| - 1]]
  }

  function KeyFor(q: Query): Key {
    Key(q.metric, q.entityType, VizGranularity(q.viz), q.season, q.competition)
  }

  /** sorted(cells, key=season, reverse=True): stable, latest season first. */
  function InsertCell(c: Cell, sorted: seq<Cell>): seq<Cell> {
    if sorted == [] then [c]
    else if Before(ByCodePoint, c.season, sorted[0].season) then [sorted[0]] + InsertCell(c, sorted[1..])
    else [c] + sorted
  }

  function SortCells(cells: seq<Cell>): seq<Cell> {
    if cells == [] then [] else InsertCell(cells[0], SortCells(cells[1..]))
  }

  function SameMetric(coverage: seq<Cell>, q: Query): seq<Cell> {
    if coverage == [] then []
    else if Usable(coverage[0], q) then [coverage[0]] + SameMetric(coverage[1..], q)
    else SameMetric(coverage[1..], q)
  }

  predicate Fits(c: Cell, g: Granularity, but: Option<string>) {
    c.granularity == g && but != Some(c.season)
  }

  /** The first cell of a granularity, passing over one season. */
  function FirstOf(cells: seq<Cell>, g: Granularity, but: Option<string>): Option<Cell> {
    if cells == [] then None
    else if Fits(cells[0], g, but) then Some(cells[0])
    else FirstOf(cells[1..], g, but)
  }

  function PyNearest(coverage: seq<Cell>, q: Query): Option<Query> {
    var sameMetric := SameMetric(coverage, q);
    if sameMetric == [] then None
    else
      var sameShape := FirstOf(SortCells(sameMetric), VizGranularity(q.viz), Some(q.season));
      var latest := FirstOf(SortCells(sameMetric), BoxScore, None);
      if sameShape.Some? then Some(q.(season := sameShape.value.season))
      else if exists c :: c in sameMetric && c.season == q.season && c.granularity == BoxScore then Some(q.(viz := Bar))
      else if latest.Some? then Some(q.(season := latest.value.season, viz := Bar))
      else None
  }

  /** A cell whose source has no rights entry is an error, which sound catalogs never meet. */
  function PyCheck(c: FullCatalog, q: Query, artifactExists: bool): Option<Feasible> {
    if !HasMetric(c.metrics, q.metric) then Some(Feasible(NoData, None))
    else
      var index := CoverageIndex(c.coverage);
      if KeyFor(q) !in index then Some(Feasible(NoData, PyNearest(c.coverage, q)))
      else
        var cell := index[KeyFor(q)];
        var rights := RightsById(c.rights);
        if cell.sourceId !in rights then None
        else if !cell.redistributable || !rights[cell.sourceId].redistributable
        then Some(Feasible(NoRights, PyNearest(c.coverage, q)))
        else if artifactExists then Some(Feasible(Available, None))
        else if cell.cost == Expensive then Some(Feasible(ComputableButExpensive, None))
        else Some(Feasible(ComputableNowQueued, None))
  }

  // ---------------------------------------------------------------- one alternative

  ghost predicate LatestFirst(cells: seq<Cell>) {
    forall i, j | 0 <= i < j < |cells| :: !Before(ByCodePoint, cells[i].season, cells[j].season)
  }

  lemma NotAfterChain(a: string, b: string, c: string)
    requires !Before(ByCodePoint, a, b) && !Before(ByCodePoint, b, c)
    ensures !Before(ByCodePoint, a, c)
  {
    hide Before;
    OrderIsTotal(ByCodePoint, a, b);
    if Before(ByCodePoint, a, c) && a != b {
      OrderIsTransitive(ByCodePoint, b, a, c);
    }
  }

  lemma {:induction false} InsertCellKeeps(c: Cell, sorted: seq<Cell>)
    requires LatestFirst(sorted)
    ensures LatestFirst(InsertCell(c, sorted))
    ensures forall x :: x in InsertCell(c, sorted) <==> x == c || x in sorted
  {
    hide Before;
    if sorted != [] {
      var rest := sorted[1..];
      assert sorted == [sorted[0]] + rest;
      if Before(ByCodePoint, c.season, sorted[0].season) {
        InsertCellKeeps(c, rest);
        OrderIsTotal(ByCodePoint, c.season, sorted[0].season);
        var inserted := InsertCell(c, rest);
        hide InsertCell;
        forall x | x in inserted
          ensures !Before(ByCodePoint, sorted[0].season, x.season)
        {
        }
      } else {
        forall x | x in sorted
          ensures !Before(ByCodePoint, c.season, x.season)
        {
          if x != sorted[0] { NotAfterChain(c.season, sorted[0].season, x.season); }
        }
      }
    }
  }

  lemma {:induction false} SortCellsSorts(cells: seq<Cell>)
    ensures LatestFirst(SortCells(cells)) && forall x :: x in SortCells(cells) <==> x in cells
  {
    if cells != [] {
      SortCellsSorts(cells[1..]);
      InsertCellKeeps(cells[0], SortCells(cells[1..]));
      assert cells == [cells[0]] + cells[1..];
    }
  }

  lemma {:induction false} FirstIsLatest(cells: seq<Cell>, g: Granularity, but: Option<string>)
    requires LatestFirst(cells)
    ensures FirstOf(cells, g, but).None? <==> forall x | x in cells :: !Fits(x, g, but)
    ensures FirstOf(cells, g, but).Some? ==>
              var first := FirstOf(cells, g, but).value;
              first in cells && Fits(first, g, but)
              && forall x | x in cells && Fits(x, g, but) :: x == first || !Before(ByCodePoint, first.season, x.season)
  {
    hide Before, Fits;
    if cells != [] {
      FirstIsLatest(cells[1..], g, but);
      assert forall x :: x in cells <==> x == cells[0] || x in cells[1..];
    }
  }

  lemma {:induction false} SameMetricIsUsable(coverage: seq<Cell>, q: Query, c: Cell)
    ensures c in SameMetric(coverage, q) <==> c in coverage && Usable(c, q)
  {
    if coverage != [] {
      SameMetricIsUsable(coverage[1..], q, c);
      assert coverage == [coverage[0]] + coverage[1..];
    }
  }

  /** Sorting cells and taking the first that fits gives the latest fitting season. */
  lemma FirstSeasonIsLatest(coverage: seq<Cell>, q: Query, g: Granularity, but: Option<string>)
    ensures var first := FirstOf(SortCells(SameMetric(coverage, q)), g, but);
            var seasons := SeasonsOf(coverage, q, g, but);
            && (first.Some? <==> seasons != [])
            && (first.Some? ==> first.value.season == Latest(ByCodePoint, seasons))
  {
    hide Before, SortCells, SeasonsOf, SameMetric, FirstOf, Usable, LatestFirst;
    var cells := SortCells(SameMetric(coverage, q));
    var seasons := SeasonsOf(coverage, q, g, but);
    var first := FirstOf(cells, g, but);
    SortCellsSorts(SameMetric(coverage, q));
    FirstIsLatest(cells, g, but);
    if seasons != [] {
      SeasonsAreCovered(coverage, q, g, but, seasons[0]);
      var c :| c in coverage && Usable(c, q) && c.granularity == g && c.season == seasons[0];
      SameMetricIsUsable(coverage, q, c);
      assert Fits(c, g, but);
    }
    if first.Some? {
      SameMetricIsUsable(coverage, q, first.value);
      SeasonsAreCovered(coverage, q, g, but, first.value.season);
      forall s | s in seasons
        ensures !Before(ByCodePoint, first.value.season, s)
      {
        SeasonsAreCovered(coverage, q, g, but, s);
        var c :| c in coverage && Usable(c, q) && c.granularity == g && c.season == s;
        SameMetricIsUsable(coverage, q, c);
        assert Fits(c, g, but);
        OrderIsTotal(ByCodePoint, s, s);
      }
      LatestIsLatest(ByCodePoint, seasons);
      LatestIsUnique(ByCodePoint, first.value.season, Latest(ByCodePoint, seasons), seasons);
    }
  }

  // ---------------------------------------------------------------- when the two orders find one season

  /** Both languages' latest season, or none at all. */
  predicate OneLatest(seasons: seq<string>) {
    seasons == [] || Latest(ByCodePoint, seasons) == Latest(ByCodeUnit, seasons)
  }

  /** A query of the group a cell belongs to: its season plays no part in the group. */
  function GroupOf(c: Cell): Query {
    Query(c.metric, c.entityType, c.season, c.competition, if c.granularity == BoxScore then Table else ShotMap, "")
  }

  /** In every group of cells that queries can ask for, with any one season left out, both
      orders find the same latest season. */
  predicate SeasonsAgree(coverage: seq<Cell>) {
    forall c | c in coverage && c.granularity != Tracking ::
      && OneLatest(SeasonsOf(coverage, GroupOf(c), c.granularity, None))
      && forall x | x in coverage :: OneLatest(SeasonsOf(coverage, GroupOf(c), c.granularity, Some(x.season)))
  }

  /** The same with no season left out. */
  predicate GroupsAgree(coverage: seq<Cell>) {
    forall c | c in coverage && c.granularity != Tracking ::
      OneLatest(SeasonsOf(coverage, GroupOf(c), c.granularity, None))
  }

  /** Only the group matters for the seasons, not the rest of the query. */
  lemma {:induction false} SameGroup(coverage: seq<Cell>, p: Query, q: Query, g: Granularity, but: Option<string>)
    requires p.metric == q.metric && p.entityType == q.entityType && p.competition == q.competition
    ensures SeasonsOf(coverage, p, g, but) == SeasonsOf(coverage, q, g, but)
  {
    if coverage != [] { SameGroup(coverage[1..], p, q, g, but); }
  }

  /** Leaving out a season that is not there leaves out nothing. */
  lemma {:induction false} NothingLeftOut(coverage: seq<Cell>, q: Query, g: Granularity, season: string)
    requires season !in SeasonsOf(coverage, q, g, None)
    ensures SeasonsOf(coverage, q, g, Some(season)) == SeasonsOf(coverage, q, g, None)
  {
    if coverage != [] { NothingLeftOut(coverage[1..], q, g, season); }
  }

  /** A season of a group comes from one of its cells. */
  lemma GroupHasCell(coverage: seq<Cell>, q: Query, g: Granularity, but: Option<string>) returns (c: Cell)
    requires SeasonsOf(coverage, q, g, but) != []
    ensures c in coverage && Usable(c, q) && c.granularity == g
    ensures forall other :: SeasonsOf(coverage, GroupOf(c), g, other) == SeasonsOf(coverage, q, g, other)
  {
    var season := SeasonsOf(coverage, q, g, but)[0];
    SeasonsAreCovered(coverage, q, g, but, season);
    c :| c in coverage && Usable(c, q) && c.granularity == g && c.season == season;
    forall other
      ensures SeasonsOf(coverage, GroupOf(c), g, other) == SeasonsOf(coverage, q, g, other)
    {
      SameGroup(coverage, GroupOf(c), q, g, other);
    }
  }

  lemma AnyGroupAgrees(coverage: seq<Cell>, q: Query, g: Granularity)
    requires GroupsAgree(coverage) && g != Tracking
    ensures OneLatest(SeasonsOf(coverage, q, g, None))
  {
    if SeasonsOf(coverage, q, g, None) != [] {
      var c := GroupHasCell(coverage, q, g, None);
      hide SeasonsOf, OneLatest;
    }
  }

  lemma AnyGroupAgreesLeavingOut(coverage: seq<Cell>, q: Query, g: Granularity, season: string)
    requires SeasonsAgree(coverage) && g != Tracking
    ensures OneLatest(SeasonsOf(coverage, q, g, Some(season)))
  {
    if SeasonsOf(coverage, q, g, Some(season)) != [] {
      var c := GroupHasCell(coverage, q, g, Some(season));
      if season in SeasonsOf(coverage, q, g, None) {
        SeasonsAreCovered(coverage, q, g, None, season);
        var x :| x in coverage && Usable(x, q) && x.granularity == g && x.season == season;
        assert OneLatest(SeasonsOf(coverage, GroupOf(c), c.granularity, Some(x.season)));
      } else {
        NothingLeftOut(coverage, q, g, season);
      }
    }
  }

  /** The two alternatives of one query agree when the two latest seasons do. */
  lemma AlternativesAgree(coverage: seq<Cell>, q: Query)
    requires OneLatest(SeasonsOf(coverage, q, VizGranularity(q.viz), Some(q.season)))
    requires OneLatest(SeasonsOf(coverage, q, BoxScore, None))
    ensures PyNearest(coverage, q) == NearestAlternative(coverage, q)
  {
    var wanted := VizGranularity(q.viz);
    hide Before, SortCells, SeasonsOf, FirstOf, Usable, Latest, SameMetric;
    FirstSeasonIsLatest(coverage, q, wanted, Some(q.season));
    FirstSeasonIsLatest(coverage, q, BoxScore, None);
    SameSeasonAgrees(coverage, q);
    if SameMetric(coverage, q) == [] { NothingUsable(coverage, q, wanted); }
  }

  /** And only then, where the season of the query is the one replaced. */
  lemma AlternativesDiffer(coverage: seq<Cell>, q: Query)
    requires !OneLatest(SeasonsOf(coverage, q, VizGranularity(q.viz), Some(q.season)))
    ensures PyNearest(coverage, q) != NearestAlternative(coverage, q)
  {
    hide Before, SortCells, SeasonsOf, FirstOf, Usable, Latest, SameMetric;
    FirstSeasonIsLatest(coverage, q, VizGranularity(q.viz), Some(q.season));
    if SameMetric(coverage, q) == [] { NothingUsable(coverage, q, VizGranularity(q.viz)); }
  }

  /** Exactly when both languages offer one alternative to every query. */
  lemma AlternativesAgreeExactly(coverage: seq<Cell>)
    ensures (forall q :: PyNearest(coverage, q) == NearestAlternative(coverage, q)) <==> SeasonsAgree(coverage)
  {
    hide PyNearest, NearestAlternative, OneLatest, SeasonsOf;
    if SeasonsAgree(coverage) {
      forall q
        ensures PyNearest(coverage, q) == NearestAlternative(coverage, q)
      {
        AnyGroupAgreesLeavingOut(coverage, q, VizGranularity(q.viz), q.season);
        AnyGroupAgrees(coverage, q, BoxScore);
        AlternativesAgree(coverage, q);
      }
    } else if c, x :| c in coverage && c.granularity != Tracking && x in coverage
                      && !OneLatest(SeasonsOf(coverage, GroupOf(c), c.granularity, Some(x.season))) {
      var q := GroupOf(c).(season := x.season);
      SameGroup(coverage, q, GroupOf(c), c.granularity, Some(x.season));
      AlternativesDiffer(coverage, q);
    } else {
      var c :| c in coverage && c.granularity != Tracking && !OneLatest(SeasonsOf(coverage, GroupOf(c), c.granularity, None));
      var q := UnservedQuery(coverage, c);
      AlternativesDiffer(coverage, q);
    }
  }

  function AllSeasons(coverage: seq<Cell>): string {
    if coverage == [] then "" else coverage[0].season + AllSeasons(coverage[1..])
  }

  lemma {:induction false} SeasonIsShorter(coverage: seq<Cell>, c: Cell)
    requires c in coverage
    ensures |c.season| <= |AllSeasons(coverage)|
  {
    if c != coverage[0] { SeasonIsShorter(coverage[1..], c); }
  }

  /** A query of a cell's group for a season that no cell has. */
  lemma UnservedQuery(coverage: seq<Cell>, c: Cell) returns (q: Query)
    requires c in coverage && c.granularity != Tracking
    ensures q.metric == c.metric && VizGranularity(q.viz) == c.granularity
    ensures forall x | x in coverage :: x.season != q.season
    ensures SeasonsOf(coverage, q, c.granularity, Some(q.season)) == SeasonsOf(coverage, GroupOf(c), c.granularity, None)
  {
    q := GroupOf(c).(season := AllSeasons(coverage) + "+");
    forall x | x in coverage
      ensures x.season != q.season
    {
      SeasonIsShorter(coverage, x);
    }
    SameGroup(coverage, q, GroupOf(c), c.granularity, None);
    SeasonsAreCovered(coverage, q, c.granularity, None, q.season);
    NothingLeftOut(coverage, q, c.granularity, q.season);
  }

  lemma SameSeasonAgrees(coverage: seq<Cell>, q: Query)
    ensures (exists c :: c in SameMetric(coverage, q) && c.season == q.season && c.granularity == BoxScore)
            <==> q.season in SeasonsOf(coverage, q, BoxScore, None)
  {
    hide SeasonsOf, SameMetric, Usable;
    SeasonsAreCovered(coverage, q, BoxScore, None, q.season);
    forall c
      ensures c in SameMetric(coverage, q) <==> c in coverage && Usable(c, q)
    {
      SameMetricIsUsable(coverage, q, c);
    }
  }

  lemma NothingUsable(coverage: seq<Cell>, q: Query, g: Granularity)
    requires SameMetric(coverage, q) == []
    ensures SeasonsOf(coverage, q, g, Some(q.season)) == [] && SeasonsOf(coverage, q, BoxScore, None) == []
  {
    FirstSeasonIsLatest(coverage, q, g, Some(q.season));
    FirstSeasonIsLatest(coverage, q, BoxScore, None);
  }

  // ---------------------------------------------------------------- one resolver

  lemma {:induction false} CoverageIndexHolds(coverage: seq<Cell>)
    ensures forall k | k in CoverageIndex(coverage) :: CoverageIndex(coverage)[k] in coverage && KeyOf(CoverageIndex(coverage)[k]) == k
    ensures forall c | c in coverage :: KeyOf(c) in CoverageIndex(coverage)
  {
    if coverage != [] {
      CoverageIndexHolds(coverage[..|coverage| - 1]);
      assert coverage == coverage[..|coverage| - 1] + [coverage[|coverage| - 1]];
    }
  }

  /** The tuple-keyed dictionary is the linear scan too. */
  lemma DictionaryIsScan(c: Compiled, q: Query)
    requires Accepted(c)
    ensures var index := CoverageIndex(c.coverage);
            Scan(c.coverage, q) == if KeyFor(q) in index then Some(index[KeyFor(q)]) else None
  {
    hide CoverageIndex, Scan, Accepted;
    var index := CoverageIndex(c.coverage);
    CoverageIndexHolds(c.coverage);
    ScanFinds(c.coverage, q);
    if KeyFor(q) in index {
      assert Covers(index[KeyFor(q)], q);
      OneCellCovers(c, q, index[KeyFor(q)], Scan(c.coverage, q).value);
    }
    if Scan(c.coverage, q).Some? {
      assert KeyOf(Scan(c.coverage, q).value) == KeyFor(q);
    }
  }

  /** Where no cell may be served, leaving out the query's own season leaves out nothing. */
  lemma UnservedSeason(c: Compiled, q: Query)
    requires Accepted(c)
    requires Scan(c.coverage, q).Some? ==> !Scan(c.coverage, q).value.redistributable
    ensures q.season !in SeasonsOf(c.coverage, q, VizGranularity(q.viz), None)
  {
    var g := VizGranularity(q.viz);
    SeasonsAreCovered(c.coverage, q, g, None, q.season);
    ScanFinds(c.coverage, q);
    hide Scan, SeasonsOf, Accepted;
    if q.season in SeasonsOf(c.coverage, q, g, None) {
      var x :| x in c.coverage && Usable(x, q) && x.granularity == g && x.season == q.season;
      OneCellCovers(c, q, Scan(c.coverage, q).value, x);
    }
  }

  /** For catalogs that pass the check and whose keys are unambiguous, the pipeline's
      answer is the scan's but for the alternative, which it takes from its own sort. */
  lemma PipelineScans(c: FullCatalog, q: Query, artifactExists: bool)
    requires Sound(c)
    ensures var scanned := CheckByScan(CompileForWorker(c), q, artifactExists);
            PyCheck(c, q, artifactExists)
            == Some(if HasMetric(c.metrics, q.metric) && scanned.state in {NoData, NoRights}
                    then scanned.(alternative := PyNearest(c.coverage, q)) else scanned)
  {
    hide Accepted, Sound, CoverageIndex, Scan, RightsById, NearestAlternative, PyNearest, CompileForWorker, HasMetric;
    SoundIsAccepted(c);
    DictionaryIsScan(CompileForWorker(c), q);
    ScanFinds(c.coverage, q);
    if Scan(c.coverage, q).Some? {
      var k :| 0 <= k < |c.coverage| && c.coverage[k] == Scan(c.coverage, q).value;
      SoundCells(c, k);
    }
  }

  /** One query: the resolvers agree if both orders agree on its group's latest season. */
  lemma ResolversAgree(c: FullCatalog, q: Query, artifactExists: bool)
    requires Sound(c) && GroupsAgree(c.coverage) && Unambiguous(c.coverage)
    ensures var compiled := CompileForWorker(c);
            PyCheck(c, q, artifactExists) == Some(Check(compiled, Index(compiled.coverage), q, artifactExists))
  {
    hide Accepted, Sound, Index, Scan, Unambiguous, GroupsAgree, PyCheck, PyNearest, NearestAlternative, CompileForWorker, HasMetric, SeasonsOf;
    var compiled := CompileForWorker(c);
    SoundIsAccepted(c);
    LookupIsScan(compiled, q);
    PipelineScans(c, q, artifactExists);
    if Scan(c.coverage, q).Some? ==> !Scan(c.coverage, q).value.redistributable {
      UnservedSeason(compiled, q);
      NothingLeftOut(c.coverage, q, VizGranularity(q.viz), q.season);
      AnyGroupAgrees(c.coverage, q, VizGranularity(q.viz));
      AnyGroupAgrees(c.coverage, q, BoxScore);
      AlternativesAgree(c.coverage, q);
    }
  }

  /** The query that shows a group's two latest seasons. */
  lemma ResolversDiffer(c: FullCatalog, cell: Cell) returns (q: Query)
    requires Sound(c) && Unambiguous(c.coverage) && cell in c.coverage && cell.granularity != Tracking
    requires !OneLatest(SeasonsOf(c.coverage, GroupOf(cell), cell.granularity, None))
    ensures var compiled := CompileForWorker(c);
            PyCheck(c, q, false) != Some(Check(compiled, Index(compiled.coverage), q, false))
  {
    q := UnservedQuery(c.coverage, cell);
    hide Accepted, Sound, Index, Scan, Unambiguous, PyCheck, PyNearest, NearestAlternative, CompileForWorker, SeasonsOf;
    var compiled := CompileForWorker(c);
    SoundIsAccepted(c);
    LookupIsScan(compiled, q);
    PipelineScans(c, q, false);
    ScanFinds(c.coverage, q);
    var k :| 0 <= k < |c.coverage| && c.coverage[k] == cell;
    SoundCells(c, k);
    assert HasMetric(c.metrics, q.metric);
    AlternativesDiffer(c.coverage, q);
  }

  /** For catalogs that pass the check, with unambiguous keys: the pipeline and the worker
      give one state and one alternative to every query exactly when both orders find one
      latest season in every group. */
  lemma ResolversAgreeExactly(c: FullCatalog)
    requires Sound(c) && Unambiguous(c.coverage)
    ensures var compiled := CompileForWorker(c);
            (forall q, artifactExists ::
               PyCheck(c, q, artifactExists) == Some(Check(compiled, Index(compiled.coverage), q, artifactExists)))
            <==> GroupsAgree(c.coverage)
  {
    hide Sound, Unambiguous, PyCheck, Check, Index, OneLatest, SeasonsOf, CompileForWorker;
    var compiled := CompileForWorker(c);
    if GroupsAgree(c.coverage) {
      forall q, artifactExists
        ensures PyCheck(c, q, artifactExists) == Some(Check(compiled, Index(compiled.coverage), q, artifactExists))
      {
        ResolversAgree(c, q, artifactExists);
      }
    } else {
      var cell :| cell in c.coverage && cell.granularity != Tracking
                  && !OneLatest(SeasonsOf(c.coverage, GroupOf(cell), cell.granularity, None));
      var q := ResolversDiffer(c, cell);
    }
  }

  predicate Basic(s: string) {
    forall i | 0 <= i < |s| :: s[i] as int < 0x10000
  }

  /** On the basic plane the two orders are one. */
  lemma {:induction false} OrdersAgree(a: string, b: string)
    requires Basic(a) && Basic(b)
    ensures Before(ByCodePoint, a, b) == Before(ByCodeUnit, a, b)
  {
    if a != "" && b != "" { OrdersAgree(a[1..], b[1..]); }
  }

  /** So catalogs with seasons of the basic plane are among those whose groups agree. */
  lemma BasicSeasonsAgree(coverage: seq<Cell>)
    requires forall c | c in coverage :: Basic(c.season)
    ensures GroupsAgree(coverage)
  {
    hide Before, Latest, Basic, SeasonsOf;
    forall c | c in coverage && c.granularity != Tracking
      ensures OneLatest(SeasonsOf(coverage, GroupOf(c), c.granularity, None))
    {
      var seasons := SeasonsOf(coverage, GroupOf(c), c.granularity, None);
      if seasons != [] {
        LatestIsLatest(ByCodePoint, seasons);
        LatestIsLatest(ByCodeUnit, seasons);
        forall s | s in seasons
          ensures Basic(s)
        {
          SeasonsAreCovered(coverage, GroupOf(c), c.granularity, None, s);
        }
        forall s | s in seasons
          ensures !Before(ByCodeUnit, Latest(ByCodePoint, seasons), s)
        {
          OrdersAgree(Latest(ByCodePoint, seasons), s);
        }
        LatestIsUnique(ByCodeUnit, Latest(ByCodePoint, seasons), Latest(ByCodeUnit, seasons), seasons);
      }
    }
  }

  const TWO_SEASONS := FullCatalog(
    [Rights("fpl", true, Some("tos/fpl.html"), 20_000)], [Metric("goals", BoxScore)],
    [Cell("goals", Player, BoxScore, "\U{FFFD}", "PL", "fpl", true, Cheap),
     Cell("goals", Player, BoxScore, "\U{10000}", "PL", "fpl", true, Cheap)])

  lemma TwoSeasonsSound()
    ensures Sound(TWO_SEASONS) && Unambiguous(TWO_SEASONS.coverage)
  {
    var c := TWO_SEASONS;
    assert RightsById(c.rights) == map["fpl" := Rights("fpl", true, Some("tos/fpl.html"), 20_000)] by { assert c.rights[..0] == []; }
    assert MetricsByName(c.metrics) == map["goals" := Metric("goals", BoxScore)] by { assert c.metrics[..0] == []; }
    assert c.coverage[0] in c.coverage && c.coverage[0].season[0] != c.coverage[1].season[0];
    hide RightsById, MetricsByName, Unambiguous;
    SpaceFreeIsUnambiguous(c.coverage);
    forall v
      ensures !Violates(c, v)
    {
    }
  }

  lemma TwoSeasonsDecode()
    ensures Decodable(CompileForWorker(TWO_SEASONS))
  {
    hide Sound, Decodable, CompileForWorker;
    TwoSeasonsSound();
    DecodedExactlyWithOneFlag(TWO_SEASONS);
  }

  lemma TwoLatest()
    ensures !OneLatest(SeasonsOf(TWO_SEASONS.coverage, GroupOf(TWO_SEASONS.coverage[0]), BoxScore, None))
  {
    var a, b := TWO_SEASONS.coverage[0], TWO_SEASONS.coverage[1];
    var q := GroupOf(a);
    assert [a, b][1..] == [b] && [b][1..] == [];
    var seasons := SeasonsOf([a, b], q, BoxScore, None);
    assert SeasonsOf([b], q, BoxScore, None) == [b.season] + SeasonsOf([], q, BoxScore, None);
    assert seasons == [a.season] + SeasonsOf([b], q, BoxScore, None);
    assert seasons[0] == a.season && seasons[1] == b.season;
    OrdersDiffer();
    LatestIsLatest(ByCodePoint, seasons);
    LatestIsLatest(ByCodeUnit, seasons);
  }

  /** Beyond the basic plane they can differ: the pipeline finds nothing wrong with this
      catalog, the worker decodes it, and the latest of its two seasons is not the same
      in both languages. */
  lemma SeasonsCanDisagree()
    ensures Sound(TWO_SEASONS) && Unambiguous(TWO_SEASONS.coverage) && Decodable(CompileForWorker(TWO_SEASONS))
    ensures exists q :: PyCheck(TWO_SEASONS, q, false)
                        != Some(Check(CompileForWorker(TWO_SEASONS), Index(CompileForWorker(TWO_SEASONS).coverage), q, false))
  {
    hide Sound, Unambiguous, Decodable, PyCheck, Check, CompileForWorker, OneLatest, SeasonsOf;
    TwoSeasonsSound();
    TwoSeasonsDecode();
    TwoLatest();
    var bad := ResolversDiffer(TWO_SEASONS, TWO_SEASONS.coverage[0]);
  }
}
