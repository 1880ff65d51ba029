/** The resolvers' answers written out over the coverage list: which state a query gets, and
    which alternative it is offered, in the worker and in the pipeline. */
module FeasibilityAnswers {
  import opened Canonical
  import opened Feasibility
  import opened FeasibilityPipeline
  import opened Options
  import opened TextSort

  /** Pitch overlays need event coordinates; every other picture is made of box scores. */
  predicate NeedsCoordinates(viz: Viz) {
    viz == ShotMap || viz == PassMap || viz == Heatmap
  }

  /** A cell of the query's metric, entity type, season and competition, of the granularity
      its picture needs. */
  predicate ServedBy(x: Cell, q: Query) {
    && x.metric == q.metric && x.entityType == q.entityType && x.season == q.season && x.competition == q.competition
    && x.granularity == if NeedsCoordinates(q.viz) then EventWithCoords else BoxScore
  }

  /** The state says exactly whether such a cell exists, and may be shown, and at what cost. */
  ghost predicate StateIs(coverage: seq<Cell>, q: Query, artifactExists: bool, state: State) {
    && (state == NoData <==> forall x | x in coverage :: !ServedBy(x, q))
    && (state == NoRights <==> exists x :: x in coverage && ServedBy(x, q) && !x.redistributable)
    && (state == Available <==> artifactExists && exists x :: x in coverage && ServedBy(x, q) && x.redistributable)
    && (state == ComputableNowQueued <==>
          !artifactExists && exists x :: x in coverage && ServedBy(x, q) && x.redistributable && x.cost == Cheap)
    && (state == ComputableButExpensive <==>
          !artifactExists && exists x :: x in coverage && ServedBy(x, q) && x.redistributable && x.cost == Expensive)
  }

  lemma ScanState(c: Compiled, q: Query, artifactExists: bool)
    requires Accepted(c)
    ensures StateIs(c.coverage, q, artifactExists, CheckByScan(c, q, artifactExists).state)
  {
    hide Accepted, Scan, NearestAlternative, ServedBy;
    ScanFinds(c.coverage, q);
    var found := Scan(c.coverage, q);
    forall x | x in c.coverage
      ensures ServedBy(x, q) <==> Covers(x, q)
      ensures ServedBy(x, q) ==> found == Some(x) && HasMetric(c.metrics, q.metric)
    {
      CoversExactly(x, q);
      if Covers(x, q) {
        OneCellCovers(c, q, x, found.value);
        DeclaredMetric(c, x);
      }
    }
    hide Covers, HasMetric;
  }

  lemma CoversExactly(x: Cell, q: Query)
    ensures ServedBy(x, q) <==> Covers(x, q)
  {
  }

  lemma DeclaredMetric(c: Compiled, x: Cell)
    requires Accepted(c) && x in c.coverage
    ensures HasMetric(c.metrics, x.metric)
  {
    assert Metric(x.metric, x.granularity) in c.metrics;
    hide SameCell;
  }

  // ---------------------------------------------------------------- alternatives

  /** A cell that may be offered instead: same metric, entity type and competition, open. */
  predicate Offerable(x: Cell, q: Query, g: Granularity) {
    x.metric == q.metric && x.entityType == q.entityType && x.competition == q.competition && x.redistributable && x.granularity == g
  }

  /** The granularity of the query's own picture in another season. */
  predicate SameShape(x: Cell, q: Query) {
    Offerable(x, q, if NeedsCoordinates(q.viz) then EventWithCoords else BoxScore) && x.season != q.season
  }

  /** The alternative, by cases: the same picture in the latest other season; else box
      scores of the same season; else box scores of their latest season; else none. */
  ghost predicate OfferIs(order: Order, coverage: seq<Cell>, q: Query, offer: Option<Query>) {
    if exists x :: x in coverage && SameShape(x, q) then
      exists x :: x in coverage && SameShape(x, q) && offer == Some(q.(season := x.season))
                  && forall y | y in coverage && SameShape(y, q) :: !Before(order, x.season, y.season)
    else if exists x :: x in coverage && Offerable(x, q, BoxScore) && x.season == q.season then offer == Some(q.(viz := Bar))
    else if exists x :: x in coverage && Offerable(x, q, BoxScore) then
      exists x :: x in coverage && Offerable(x, q, BoxScore) && offer == Some(q.(season := x.season, viz := Bar))
                  && forall y | y in coverage && Offerable(y, q, BoxScore) :: !Before(order, x.season, y.season)
    else offer == None
  }

  /** The seasons listed for an alternative are those of the offerable cells. */
  lemma SeasonsListed(coverage: seq<Cell>, q: Query, g: Granularity, but: Option<string>)
    ensures var seasons := SeasonsOf(coverage, q, g, but);
            && (forall x | x in coverage && Offerable(x, q, g) && but != Some(x.season) :: x.season in seasons)
            && (forall s | s in seasons :: exists x :: x in coverage && Offerable(x, q, g) && but != Some(s) && x.season == s)
  {
    hide SeasonsOf;
    forall s
      ensures s in SeasonsOf(coverage, q, g, but) <==>
                but != Some(s) && exists x :: x in coverage && Usable(x, q) && x.granularity == g && x.season == s
    {
      SeasonsAreCovered(coverage, q, g, but, s);
    }
    assert forall x :: Offerable(x, q, g) <==> Usable(x, q) && x.granularity == g;
  }

  /** The worker's alternative, latest by UTF-16 code unit. */
  lemma WorkerOffer(coverage: seq<Cell>, q: Query)
    ensures OfferIs(ByCodeUnit, coverage, q, NearestAlternative(coverage, q))
  {
    var g := if NeedsCoordinates(q.viz) then EventWithCoords else BoxScore;
    assert g == VizGranularity(q.viz);
    var sameShape, boxScore := SeasonsOf(coverage, q, g, Some(q.season)), SeasonsOf(coverage, q, BoxScore, None);
    SeasonsListed(coverage, q, g, Some(q.season));
    SeasonsListed(coverage, q, BoxScore, None);
    if sameShape != [] { LatestIsLatest(ByCodeUnit, sameShape); }
    if boxScore != [] { LatestIsLatest(ByCodeUnit, boxScore); }
    hide SeasonsOf, Latest, Before, NeedsCoordinates, VizGranularity;
    OfferFrom(ByCodeUnit, coverage, q, g, sameShape, boxScore,
              if sameShape != [] then Latest(ByCodeUnit, sameShape) else "", if boxScore != [] then Latest(ByCodeUnit, boxScore) else "");
  }

  /** From the seasons, with a latest one of each list, to the offer. */
  lemma OfferFrom(order: Order, coverage: seq<Cell>, q: Query, g: Granularity, sameShape: seq<string>, boxScore: seq<string>,
                  first: string, second: string)
    requires g == if NeedsCoordinates(q.viz) then EventWithCoords else BoxScore
    requires forall x | x in coverage && Offerable(x, q, g) && x.season != q.season :: x.season in sameShape
    requires forall s | s in sameShape :: exists x :: x in coverage && Offerable(x, q, g) && s != q.season && x.season == s
    requires forall x | x in coverage && Offerable(x, q, BoxScore) :: x.season in boxScore
    requires forall s | s in boxScore :: exists x :: x in coverage && Offerable(x, q, BoxScore) && x.season == s
    requires sameShape != [] ==> first in sameShape && forall s | s in sameShape :: !Before(order, first, s)
    requires boxScore != [] ==> second in boxScore && forall s | s in boxScore :: !Before(order, second, s)
    ensures OfferIs(order, coverage, q,
                    if sameShape != [] then Some(q.(season := first))
                    else if q.season in boxScore then Some(q.(viz := Bar))
                    else if boxScore != [] then Some(q.(season := second, viz := Bar)) else None)
  {
    hide Before, Offerable, NeedsCoordinates;
    if sameShape != [] {
      var x :| x in coverage && Offerable(x, q, g) && x.season == first && first != q.season;
      assert SameShape(x, q);
    } else {
      assert forall x | x in coverage :: !SameShape(x, q);
      if boxScore != [] && q.season !in boxScore {
        var x :| x in coverage && Offerable(x, q, BoxScore) && x.season == second;
      }
    }
  }

  /** The pipeline's alternative, latest by code point. */
  lemma PipelineOffer(coverage: seq<Cell>, q: Query)
    ensures OfferIs(ByCodePoint, coverage, q, PyNearest(coverage, q))
  {
    var g := if NeedsCoordinates(q.viz) then EventWithCoords else BoxScore;
    assert g == VizGranularity(q.viz);
    var sameShape, boxScore := SeasonsOf(coverage, q, g, Some(q.season)), SeasonsOf(coverage, q, BoxScore, None);
    SeasonsListed(coverage, q, g, Some(q.season));
    SeasonsListed(coverage, q, BoxScore, None);
    FirstSeasonIsLatest(coverage, q, g, Some(q.season));
    FirstSeasonIsLatest(coverage, q, BoxScore, None);
    SameSeasonAgrees(coverage, q);
    if sameShape != [] { LatestIsLatest(ByCodePoint, sameShape); }
    if boxScore != [] { LatestIsLatest(ByCodePoint, boxScore); }
    if SameMetric(coverage, q) == [] { NothingUsable(coverage, q, g); }
    hide SeasonsOf, Latest, Before, NeedsCoordinates, VizGranularity, SortCells, FirstOf, SameMetric;
    OfferFrom(ByCodePoint, coverage, q, g, sameShape, boxScore,
              if sameShape != [] then Latest(ByCodePoint, sameShape) else "", if boxScore != [] then Latest(ByCodePoint, boxScore) else "");
  }

  // ---------------------------------------------------------------- the two resolvers

  /** The whole answer: the state, and an alternative exactly for a known metric without
      data or without rights. */
  ghost predicate AnswerIs(order: Order, metrics: seq<Metric>, coverage: seq<Cell>, q: Query, artifactExists: bool, r: Feasible) {
    && StateIs(coverage, q, artifactExists, r.state)
    && if (exists m :: m in metrics && m.id == q.metric) && (r.state == NoData || r.state == NoRights)
       then OfferIs(order, coverage, q, r.alternative) else r.alternative.None?
  }

  /** The worker's answer, for every catalog whose index is unambiguous. */
  lemma WorkerAnswers(c: Compiled, q: Query, artifactExists: bool)
    requires Accepted(c) && Unambiguous(c.coverage)
    ensures AnswerIs(ByCodeUnit, c.metrics, c.coverage, q, artifactExists, Check(c, Index(c.coverage), q, artifactExists))
  {
    hide Accepted, Unambiguous, StateIs, Index, Scan, Find, NearestAlternative, OfferIs;
    LookupIsScan(c, q);
    ScanState(c, q, artifactExists);
    WorkerOffer(c.coverage, q);
  }

  /** The pipeline's answer, for every sound catalog. */
  lemma PipelineAnswers(c: FullCatalog, q: Query, artifactExists: bool)
    requires Sound(c)
    ensures PyCheck(c, q, artifactExists).Some?
            && AnswerIs(ByCodePoint, c.metrics, c.coverage, q, artifactExists, PyCheck(c, q, artifactExists).value)
  {
    hide Accepted, Sound, StateIs, PyCheck, Scan, CompileForWorker, PyNearest, NearestAlternative, OfferIs;
    SoundIsAccepted(c);
    PipelineScans(c, q, artifactExists);
    ScanState(CompileForWorker(c), q, artifactExists);
    PipelineOffer(c.coverage, q);
  }

  // ---------------------------------------------------------------- any catalog

  /** What is compiled for the worker are the cells of known sources, in their order. */
  lemma {:induction false} KnownExactly(coverage: seq<Cell>, rights: map<string, Rights>)
    ensures forall x :: x in KnownCells(coverage, rights) <==> x in coverage && x.sourceId in rights
    ensures |KnownCells(coverage, rights)| <= |coverage|
  {
    if coverage != [] {
      KnownExactly(coverage[1..], rights);
      assert coverage == [coverage[0]] + coverage[1..];
    }
  }

  /** The pipeline's states by cases, also for a catalog with violations: a cell or its
      source may withhold the rights, and an unknown source is an error. */
  lemma PipelineByCases(c: FullCatalog, q: Query, artifactExists: bool)
    ensures var index, rights, key := CoverageIndex(c.coverage), RightsById(c.rights), KeyFor(q);
            var known := exists m :: m in c.metrics && m.id == q.metric;
            var r := PyCheck(c, q, artifactExists);
            if !known then r == Some(Feasible(NoData, None))
            else if key !in index then r == Some(Feasible(NoData, PyNearest(c.coverage, q)))
            else if index[key].sourceId !in rights then r == None
            else if !(index[key].redistributable && rights[index[key].sourceId].redistributable) then
              r == Some(Feasible(NoRights, PyNearest(c.coverage, q)))
            else r == Some(Feasible(if artifactExists then Available
                                    else if index[key].cost == Cheap then ComputableNowQueued else ComputableButExpensive, None))
  {
    hide CoverageIndex, RightsById, PyNearest;
  }
}
