/** The calls over the database itself, interleaved in any way: every run of them is a run
    of the bridge over its store port, in which an abort is a call that failed. */
module BridgeD1Runs {
  import opened Options
  import opened Bridge
  import opened BridgeD1
  import opened BridgeRuns
  import opened BridgeSafety

  // ---------------------------------------------------------------- the machine

  /** The calls over the database itself: what they read is what the adapter shows. */
  datatype DbWorld = DbWorld(db: Db, calls: map<nat, Call>, leases: set<string>)

  const EMPTY_DB := DbWorld(Db(map[], map[]), map[], {})

  function AdmittedRow(id: string, request: string, admittedAt: int): JobRow {
    JobRow(id, request, Queued, 0, None, None, None, None, None, None, None, admittedAt, 1)
  }

  function DbRead(d: DbWorld, e: Event): DbWorld {
    var w := Step(World(View(d.db), d.calls, d.leases, map[], []), e);
    d.(calls := w.calls, leases := w.leases)
  }

  /** Admission inserts at the schema's default revision, a commit is the two statements
      or an error, and either way its call is over; every other step only reads. */
  function DbStep(d: DbWorld, e: Event): DbWorld {
    match e
    case Admit(id, request, admittedAt, _) =>
      if id in d.db.rows then d
      else d.(db := d.db.(rows := d.db.rows[id := AdmittedRow(id, request, WholeSecond(admittedAt))]))
    case TryCommit(c) =>
      if c !in d.calls || !d.calls[c].Pending? then d
      else d.(db := CommitDb(d.db, d.calls[c].read.revision, d.calls[c].next, d.calls[c].op), calls := d.calls - {c})
    case CallFails(c) => d.(calls := d.calls - {c})
    case _ => DbRead(d, e)
  }

  function DbRun(d: DbWorld, events: seq<Event>): DbWorld
    decreases |events|
  {
    if events == [] then d else DbRun(DbStep(d, events[0]), events[1..])
  }

  predicate Aborts(d: DbWorld, e: Event) {
    && e.TryCommit? && e.call in d.calls && d.calls[e.call].Pending?
    && CommitOutcome(d.db, d.calls[e.call].read.revision, d.calls[e.call].next, d.calls[e.call].op) == Aborted
  }

  // ---------------------------------------------------------------- simulation

  /** The same step of the abstract machine: an abort is a storage failure. */
  function SeenAs(d: DbWorld, e: Event): Event {
    if Aborts(d, e) then CallFails(e.call)
    else if e.Admit? then e.(revision := 1)
    else e
  }

  function SeenRun(d: DbWorld, events: seq<Event>): seq<Event>
    decreases |events|
  {
    if events == [] then [] else [SeenAs(d, events[0])] + SeenRun(DbStep(d, events[0]), events[1..])
  }

  ghost predicate Coupled(w: World, d: DbWorld) {
    && Sound(d.db) && View(d.db) == w.store && d.calls == w.calls && d.leases == w.leases
  }

  lemma CommitSeen(s: Store, db: Db, p: Call)
    requires p.Pending? && CallSound(s, p) && Sound(db) && View(db) == s
    ensures Sound(CommitDb(db, p.read.revision, p.next, p.op))
    ensures View(CommitDb(db, p.read.revision, p.next, p.op))
            == if CommitOutcome(db, p.read.revision, p.next, p.op) == Aborted then s else Commit(s, p.read.revision, p.next, p.op)
  {
    hide Moves, CommitOutcome, CommitDb, RowSound, ClockTooFarBehind;
    CommitRefinesPort(db, p.read, p.next, p.op, p.now);
  }

  lemma CommitStepSimulates(w: World, d: DbWorld, e: Event)
    requires Inv(w) && Coupled(w, d) && e.TryCommit? && e.call in w.calls && w.calls[e.call].Pending?
    ensures Coupled(Step(w, SeenAs(d, e)), DbStep(d, e))
  {
    hide Inv, CallSound, Sound, View, CanCommit, CommitOutcome, CommitDb, DbRead, ReadJobCall, DecideSweep;
    var p := w.calls[e.call];
    PendingSound(w, e.call);
    CommitSeen(w.store, d.db, p);
  }

  lemma PendingSound(w: World, c: nat)
    requires Inv(w) && c in w.calls
    ensures CallSound(w.store, w.calls[c])
  {
    hide CallSound;
  }

  lemma AdmittedRowSound(id: string, request: string, admittedAt: int)
    requires admittedAt % 1000 == 0
    ensures RowSound(id, AdmittedRow(id, request, admittedAt))
    ensures Project(AdmittedRow(id, request, admittedAt)) == NewJob(id, request, admittedAt, 1)
  {
  }

  lemma AdmitStepSimulates(w: World, d: DbWorld, e: Event)
    requires e.Admit? && Coupled(w, d)
    ensures Coupled(Step(w, SeenAs(d, e)), DbStep(d, e))
  {
    hide RowSound, Project, AdmittedRow, NewJob;
    AdmittedRowSound(e.jobId, e.request, WholeSecond(e.admittedAt));
    assert View(d.db).jobs.Keys == d.db.rows.Keys;
    assert View(DbStep(d, e).db).jobs == Step(w, e.(revision := 1)).store.jobs;
  }

  /** A step that only reads depends on the store, the calls and the drawn leases alone. */
  lemma StepsThatOnlyRead(w: World, v: World, e: Event)
    requires !e.Admit? && !e.TryCommit?
    requires v.store == w.store && v.calls == w.calls && v.leases == w.leases
    ensures Step(w, e).store == w.store
    ensures Step(v, e).calls == Step(w, e).calls && Step(v, e).leases == Step(w, e).leases
  {
  }

  lemma DbStepSimulates(w: World, d: DbWorld, e: Event)
    requires Inv(w) && Coupled(w, d)
    ensures Coupled(Step(w, SeenAs(d, e)), DbStep(d, e))
  {
    hide Inv, View, Sound, CommitDb, CommitOutcome;
    if e.TryCommit? {
      if e.call in w.calls && w.calls[e.call].Pending? { CommitStepSimulates(w, d, e); }
    } else if e.Admit? {
      AdmitStepSimulates(w, d, e);
    } else {
      StepsThatOnlyRead(w, World(View(d.db), d.calls, d.leases, map[], []), e);
    }
  }

  lemma {:induction false} RunSimulates(w: World, d: DbWorld, events: seq<Event>)
    requires Inv(w) && Coupled(w, d)
    ensures Coupled(Run(w, SeenRun(d, events)), DbRun(d, events))
    decreases |events|
  {
    hide Inv, Coupled, DbStep, SeenAs;
    if events != [] {
      DbStepSimulates(w, d, events[0]);
      StepKeepsInv(w, SeenAs(d, events[0]));
      RunSimulates(Step(w, SeenAs(d, events[0])), DbStep(d, events[0]), events[1..]);
    }
  }

  /** Every run of the database, whatever its clocks, is a run of the bridge seen through
      the port, step for step, in which each abort is a call that failed. */
  lemma DatabaseRunsLikeThePort(events: seq<Event>)
    ensures var seen := SeenRun(EMPTY_DB, events); var d := DbRun(EMPTY_DB, events);
            && |seen| == |events|
            && View(d.db) == Run(Empty, seen).store && d.calls == Run(Empty, seen).calls
            && Sound(d.db) && Reachable(Run(Empty, seen))
  {
    hide Run, DbRun, SeenRun;
    RunSimulates(Empty, EMPTY_DB, events);
    SeenRunLength(EMPTY_DB, events);
  }

  lemma {:induction false} SeenRunLength(d: DbWorld, events: seq<Event>)
    ensures |SeenRun(d, events)| == |events|
    decreases |events|
  {
    if events != [] { SeenRunLength(DbStep(d, events[0]), events[1..]); }
  }
}
