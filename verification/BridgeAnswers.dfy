/** What the bridge leaves behind, written out column by column: each listed row after a
    sweep, what a row shows through the port, and whole calls that nothing disturbs. */
module BridgeAnswers {
  import opened Options
  import opened Bridge
  import opened BridgeRuns
  import opened BridgeSafety
  import opened BridgeD1

  // ---------------------------------------------------------------- what the port shows

  /** Every column of the row; the lease columns only while the row is running. */
  lemma PortShowsTheRow(db: Db, id: string)
    requires id in db.rows && db.rows[id].jobId == id
    ensures var row := db.rows[id];
            View(db).Get(id)
            == Some(if row.status == Running then
                      StoredJob(Job(id, row.request, Running, row.attempt, row.leaseId, row.leaseExpiresAt,
                                    row.retryAfter, row.failure, row.publication), row.admittedAt, row.leaseOwner, row.revision)
                    else
                      StoredJob(Job(id, row.request, row.status, row.attempt, None, None,
                                    row.retryAfter, row.failure, row.publication), row.admittedAt, None, row.revision))
    ensures forall other :: View(db).Get(other).None? <==> other !in db.rows
    ensures forall k :: View(db).GetOperation(k) == if k in db.operations then Some(db.operations[k]) else None
  {
  }

  // ---------------------------------------------------------------- what the triggers let through

  predicate OnTheSecond(t: int) {
    t % 1000 == 0
  }

  /** The lease columns of a row that was ever claimed. */
  predicate ClaimedOnce(row: JobRow) {
    row.leaseId != None && row.leaseOwner != None && row.claimedAt != None
  }

  /** What the checks and triggers together let replace a row, column by column. */
  lemma SchemaExactly(row: JobRow, to: JobRow)
    ensures SchemaAllows(row, to) <==>
              && to == to.(jobId := row.jobId, request := row.request, admittedAt := row.admittedAt, revision := row.revision + 1)
              && to.revision >= 1 && 0 <= to.attempt <= 3 && OnTheSecond(to.admittedAt)
              && (to.leaseExpiresAt.Some? ==> OnTheSecond(to.leaseExpiresAt.value))
              && (to.claimedAt.Some? ==> OnTheSecond(to.claimedAt.value)) && (to.retryAfter.Some? ==> OnTheSecond(to.retryAfter.value))
              && match to.status
                 case Running =>
                   && row.status == Queued && to.attempt == row.attempt + 1 && to.attempt >= 1 && ClaimedOnce(to)
                   && to.leaseExpiresAt.Some? && to.claimedAt.value < to.leaseExpiresAt.value
                   && to.failure == None && to.publication == None
                 case Queued =>
                   && row.status == Failed && to.attempt == row.attempt && row.attempt < 3
                   && row.failure.Some? && !row.failure.value.AttemptsExhausted? && row.retryAfter.Some?
                   && to == to.(retryAfter := None, leaseId := None, leaseOwner := None, leaseExpiresAt := None, failure := None,
                                publication := None)
                 case Failed =>
                   && row.status == Running && to.attempt == row.attempt && to.attempt >= 1
                   && ClaimedOnce(to) && to.leaseId == row.leaseId && to.leaseOwner == row.leaseOwner && to.claimedAt == row.claimedAt
                   && to.leaseExpiresAt == None && to.publication == None && to.failure.Some?
                   && (if to.failure.value.AttemptsExhausted? then to.retryAfter == None
                       else && to.retryAfter.Some?
                            && to.claimedAt.value < to.retryAfter.value <= to.claimedAt.value + 86_400_000)
                 case Published =>
                   && row.status == Running && to.attempt == row.attempt && to.attempt >= 1
                   && ClaimedOnce(to) && to.leaseId == row.leaseId && to.leaseOwner == row.leaseOwner && to.claimedAt == row.claimedAt
                   && to.leaseExpiresAt == None && to.retryAfter == None && to.failure == None && to.publication.Some?
  {
  }

  // ---------------------------------------------------------------- sweeps

  /** A row that the sweep should move. */
  predicate Ready(kind: SweepKind, row: StoredJob, now: int) {
    match kind
    case Due => row.job.status == Failed && row.job.attempt < 3 && row.job.retryAfter.Some? && row.job.retryAfter.value <= now
    case Expiry => row.job.status == Running && row.job.leaseExpiresAt.Some? && row.job.leaseExpiresAt.value <= now
  }

  /** Back in the queue with its attempt and without a deadline. */
  function Requeued(row: StoredJob): StoredJob {
    StoredJob(Job(row.job.jobId, row.job.request, Queued, row.job.attempt, None, None, None, None, None),
              row.admittedAt, None, row.revision + 1)
  }

  /** Failed with a deadline a delay from now, but within a day of the claim; failed for
      good at the third attempt. */
  function LeaseLost(row: StoredJob, now: int): StoredJob
    requires row.job.leaseExpiresAt.Some?
  {
    var delayed := now + if row.job.attempt == 1 then 300_000 else 1_800_000;
    var latest := row.job.leaseExpiresAt.value - 900_000 + 86_400_000;
    StoredJob(Job(row.job.jobId, row.job.request, Failed, row.job.attempt, None, None,
                  if row.job.attempt == 3 then None else Some(if delayed <= latest then delayed else latest),
                  Some(if row.job.attempt == 3 then AttemptsExhausted else LeaseExpired), None),
              row.admittedAt, None, row.revision + 1)
  }

  /** What the sweep makes of a ready row. */
  function Turned(kind: SweepKind, row: StoredJob, now: int): Option<StoredJob> {
    if !Ready(kind, row, now) then None
    else Some(match kind case Due => Requeued(row) case Expiry => LeaseLost(row, now))
  }

  lemma SweepWrittenOut(kind: SweepKind, row: StoredJob, r0: int, now: int)
    requires JobShape(row, r0)
    ensures DecideSweep(kind, row, now) == Turned(kind, row, now)
  {
  }

  /** Listed and still stored as it was listed. */
  predicate StillStored(db: Db, row: StoredJob) {
    row.job.jobId in db.rows && Project(db.rows[row.job.jobId]) == row
  }

  lemma EffectWrittenOut(db: Db, kind: SweepKind, row: StoredJob, now: int)
    requires Sound(db)
    ensures Effect(db, kind, row, now) == if StillStored(db, row) then Turned(kind, row, now) else None
  {
    hide RowAllowed, DecideSweep, Turned, Project, JobShape;
    if StillStored(db, row) {
      assert RowSound(row.job.jobId, db.rows[row.job.jobId]);
      SweepWrittenOut(kind, row, 1, now);
    }
  }

  /** After a sweep each listed row that was still stored and due is requeued, or failed if
      its lease ran out; every other row, listed or not, is as it was. */
  lemma SweptRows(db: Db, kind: SweepKind, listed: seq<StoredJob>, now: int)
    requires Sound(db) && now % 1000 == 0 && Listed(db, listed)
    ensures var after := SweepAll(db, kind, listed, now).db;
            && after.rows.Keys == db.rows.Keys && after.operations == db.operations
            && (forall row | row in listed :: row.job.jobId in db.rows &&
                  if StillStored(db, row) && Ready(kind, row, now)
                  then Some(Project(after.rows[row.job.jobId])) == Turned(kind, row, now)
                  else after.rows[row.job.jobId] == db.rows[row.job.jobId])
            && (forall id | id in db.rows && (forall row | row in listed :: row.job.jobId != id) :: after.rows[id] == db.rows[id])
  {
    hide Ready, Effect, Project, SweepAll, Sound, StillStored;
    SweepMovesWhatIsDue(db, kind, listed, now);
    forall row | row in listed
      ensures Effect(db, kind, row, now) == if StillStored(db, row) then Turned(kind, row, now) else None
    {
      EffectWrittenOut(db, kind, row, now);
    }
  }

  function Movings(db: Db, kind: SweepKind, listed: seq<StoredJob>, now: int): set<StoredJob> {
    set row | row in listed && StillStored(db, row) && Ready(kind, row, now)
  }

  /** The counts: as many as were moved, and none failed. */
  lemma {:induction false} SweepCounts(db: Db, kind: SweepKind, listed: seq<StoredJob>, now: int)
    requires Sound(db) && now % 1000 == 0 && Listed(db, listed)
    ensures SweepAll(db, kind, listed, now).moved == |Movings(db, kind, listed, now)|
    ensures SweepAll(db, kind, listed, now).failed == 0
  {
    hide Movings, SweepAll, Sound, SweptExactly;
    SweepMovesWhatIsDue(db, kind, listed, now);
    CountMovings(db, kind, listed, now);
  }

  lemma {:induction false} CountMovings(db: Db, kind: SweepKind, listed: seq<StoredJob>, now: int)
    requires Sound(db) && Listed(db, listed)
    ensures CountEffects(db, kind, listed, now) == |Movings(db, kind, listed, now)|
  {
    hide Ready, Effect, StillStored, Sound, Movings;
    if listed != [] {
      var front, row := listed[..|listed| - 1], listed[|listed| - 1];
      assert listed == front + [row];
      FrontListed(db, front, row);
      hide Listed;
      CountMovings(db, kind, front, now);
      EffectWrittenOut(db, kind, row, now);
      MovingsAppend(db, kind, front, row, now);
    } else {
      NoMovings(db, kind, now);
    }
  }

  lemma NoMovings(db: Db, kind: SweepKind, now: int)
    ensures Movings(db, kind, [], now) == {}
  {
  }

  lemma MovingsAppend(db: Db, kind: SweepKind, front: seq<StoredJob>, row: StoredJob, now: int)
    requires row !in front
    ensures |Movings(db, kind, front + [row], now)|
            == |Movings(db, kind, front, now)| + if StillStored(db, row) && Ready(kind, row, now) then 1 else 0
  {
    hide Ready, StillStored;
    var moved := if StillStored(db, row) && Ready(kind, row, now) then {row} else {};
    assert Movings(db, kind, front + [row], now) == Movings(db, kind, front, now) + moved;
  }

  lemma FrontListed(db: Db, front: seq<StoredJob>, row: StoredJob)
    requires Listed(db, front + [row])
    ensures Listed(db, front) && row !in front
  {
    hide ReadIsCurrentOrStale;
    var listed := front + [row];
    assert listed[|front|] == row && forall i | 0 <= i < |front| :: listed[i] == front[i];
  }

  // ---------------------------------------------------------------- undisturbed calls

  lemma FourEvents(w: World, a: Event, b: Event, c: Event, d: Event)
    ensures Run(w, [a, b, c, d]) == Step(Step(Step(Step(w, a), b), c), d)
  {
    var x1, x2, x3 := Step(w, a), Step(Step(w, a), b), Step(Step(Step(w, a), b), c);
    assert [a, b, c, d][1..] == [b, c, d] && [b, c, d][1..] == [c, d] && [c, d][1..] == [d] && [d][1..] == [];
    assert Run(x3, [d]) == Step(x3, d);
    assert Run(x2, [c, d]) == Run(x3, [d]);
    assert Run(x1, [b, c, d]) == Run(x2, [c, d]);
    hide Step;
  }

  /** What is proposed is stored with its record under the call's own names; an answer
      changes nothing. */
  predicate Stored(s: Store, after: Store, service: string, body: Body, d: Decision) {
    match d
    case Answer(_) => after == s
    case Propose(_, next, op) =>
      op.Some? && after == Store(s.jobs[body.JobId() := next], s.ops[body.Key(service) := op.value])
  }

  /** The four steps of a call with nothing in between: what is proposed from the operation
      record and the job as they stand is stored with its record, or nothing changes. */
  lemma UndisturbedCall(w: World, c: nat, service: string, body: Body, clock: int, lease: string, verified: bool)
    requires Reachable(w) && c !in w.calls && lease !in w.leases
    ensures var w' := Run(w, [Begin(c, service, body, clock), ReadOperation(c), ReadJob(c, lease, verified), TryCommit(c)]);
            var d := Decide(service, body, clock / 1000 * 1000, w.store.GetOperation(body.Key(service)), w.store.Get(body.JobId()),
                            lease, verified);
            && w'.calls == w.calls
            && Stored(w.store, w'.store, service, body, d)
  {
    var now := clock / 1000 * 1000;
    var prior, cur := w.store.GetOperation(body.Key(service)), w.store.Get(body.JobId());
    FourEvents(w, Begin(c, service, body, clock), ReadOperation(c), ReadJob(c, lease, verified), TryCommit(c));
    CallHasRead(w, c, service, body, clock);
    var w2 := Step(Step(w, Begin(c, service, body, clock)), ReadOperation(c));
    hide Step, Decide, Store.Get, Store.GetOperation;
    DecidedAndStored(w2, c, service, body, now, prior, lease, verified);
    assert w2.calls - {c} == w.calls;
  }

  lemma CallHasRead(w: World, c: nat, service: string, body: Body, clock: int)
    requires Reachable(w) && c !in w.calls
    ensures var w2 := Step(Step(w, Begin(c, service, body, clock)), ReadOperation(c));
            w2 == w.(calls := w.calls[c := Looked(service, body, clock / 1000 * 1000, w.store.GetOperation(body.Key(service)))])
            && Inv(w2)
  {
    hide Inv, Step;
    ReachableInv(w);
    BeginsAndReads(w, c, service, body, clock);
    StepKeepsInv(w, Begin(c, service, body, clock));
    StepKeepsInv(Step(w, Begin(c, service, body, clock)), ReadOperation(c));
  }

  lemma BeginsAndReads(w: World, c: nat, service: string, body: Body, clock: int)
    requires c !in w.calls
    ensures Step(Step(w, Begin(c, service, body, clock)), ReadOperation(c))
            == w.(calls := w.calls[c := Looked(service, body, clock / 1000 * 1000, w.store.GetOperation(body.Key(service)))])
  {
    var w1 := Step(w, Begin(c, service, body, clock));
    var looked := Looked(service, body, clock / 1000 * 1000, w.store.GetOperation(body.Key(service)));
    assert w1.calls[c := looked] == w.calls[c := looked];
  }

  lemma StoredUnderItsName(w: World, id: string)
    requires Inv(w) && id in w.store.jobs
    ensures w.store.jobs[id].job.jobId == id
  {
  }

  lemma DecidedAndStored(w: World, c: nat, service: string, body: Body, now: int, prior: Option<OperationRecord>, lease: string, verified: bool)
    requires Inv(w) && c in w.calls && lease !in w.leases && now % 1000 == 0
    requires prior == w.store.GetOperation(body.Key(service)) && w.calls[c] == Looked(service, body, now, prior)
    ensures var w' := Step(Step(w, ReadJob(c, lease, verified)), TryCommit(c));
            && w'.calls == w.calls - {c}
            && Stored(w.store, w'.store, service, body, Decide(service, body, now, prior, w.store.Get(body.JobId()), lease, verified))
  {
    hide Inv, Moves, Decide;
    var cur := w.store.Get(body.JobId());
    if cur.Some? { StoredUnderItsName(w, body.JobId()); }
    DecisionsMove(service, body, now, prior, cur, lease, verified);
    var d := Decide(service, body, now, prior, cur, lease, verified);
    if d.Propose? { MoveNamesJob(d.read, d.next, d.op, now, body.JobId()); }
    var w3 := Step(w, ReadJob(c, lease, verified));
    assert w3.store == w.store;
  }

  lemma MoveNamesJob(read: StoredJob, next: StoredJob, op: Option<OperationRecord>, now: int, jobId: string)
    requires Moves(read, next, op, now) && read.job.jobId == jobId
    ensures next.job.jobId == jobId
  {
  }

  /** The two steps of a sweep's turn with nothing in between. */
  lemma UndisturbedTurn(w: World, c: nat, kind: SweepKind, id: string, clock: int)
    requires Reachable(w) && c !in w.calls && id in w.store.jobs
    ensures var w' := Step(Step(w, SweepRead(c, kind, id, clock)), TryCommit(c));
            var next := Turned(kind, w.store.jobs[id], clock / 1000 * 1000);
            && w'.calls == w.calls && w'.store.ops == w.store.ops
            && w'.store.jobs == if next.Some? then w.store.jobs[id := next.value] else w.store.jobs
  {
    hide Inv;
    var now := clock / 1000 * 1000;
    ReachableInv(w);
    StoredUnderItsName(w, id);
    ShapeOf(w, id);
    SweepWrittenOut(kind, w.store.jobs[id], w.admitted[id], now);
    var d := Turned(kind, w.store.jobs[id], now);
    assert d.Some? ==> d.value.job.jobId == id;
    hide DecideSweep, JobShape, Turned, Run;
    assert w.calls - {c} == w.calls;
  }

  lemma ShapeOf(w: World, id: string)
    requires Inv(w) && id in w.store.jobs
    ensures id in w.admitted && JobShape(w.store.jobs[id], w.admitted[id])
  {
  }

  /** What may happen around the calls: a job is admitted under a new name, queued, and a
      call may fail at any point. */
  lemma OutsideSteps(w: World, e: Event)
    requires e.Admit? || e.CallFails?
    ensures match e
            case Admit(id, request, admittedAt, revision) =>
              Step(w, e) == if id in w.store.jobs || revision <= 0 then w
                            else w.(store := w.store.(jobs := w.store.jobs[id := StoredJob(
                                      Job(id, request, Queued, 0, None, None, None, None, None), admittedAt / 1000 * 1000, None, revision)]),
                                    admitted := w.admitted[id := revision])
            case CallFails(c) => Step(w, e) == w.(calls := w.calls - {c})
  {
  }

  /** Every step of a call, whatever ran before it: a commit applies exactly to the revision
      that was read and under a new operation key. */
  lemma CallSteps(w: World, e: Event)
    requires e.Begin? || e.ReadOperation? || e.ReadJob? || e.SweepRead? || e.TryCommit?
    ensures match e
            case Begin(c, service, body, clock) =>
              Step(w, e) == if c in w.calls then w else w.(calls := w.calls[c := Started(service, body, clock / 1000 * 1000)])
            case ReadOperation(c) =>
              Step(w, e) == if c !in w.calls || !w.calls[c].Started? then w
                            else
                              var call, k := w.calls[c], w.calls[c].body.Key(w.calls[c].service);
                              w.(calls := w.calls[c := Looked(call.service, call.body, call.now,
                                                              if k in w.store.ops then Some(w.store.ops[k]) else None)])
            case ReadJob(c, lease, verified) =>
              Step(w, e) == if c !in w.calls || !w.calls[c].Looked? || lease in w.leases then w
                            else
                              var call, id := w.calls[c], w.calls[c].body.JobId();
                              (match Decide(call.service, call.body, call.now, call.prior,
                                            if id in w.store.jobs then Some(w.store.jobs[id]) else None, lease, verified)
                               case Answer(_) => w.(calls := w.calls - {c})
                               case Propose(read, next, op) =>
                                 w.(calls := w.calls[c := Pending(read, next, op, call.now)], leases := w.leases + {lease}))
            case SweepRead(c, kind, id, clock) =>
              Step(w, e) == if c in w.calls || id !in w.store.jobs then w
                            else
                              var row, now := w.store.jobs[id], clock / 1000 * 1000;
                              var next := DecideSweep(kind, row, now);
                              if next == None then w else w.(calls := w.calls[c := Pending(row, next.value, None, now)])
            case TryCommit(c) =>
              Step(w, e) == if c !in w.calls || !w.calls[c].Pending? then w
                            else
                              var p, rest := w.calls[c], w.(calls := w.calls - {c});
                              var id := p.next.job.jobId;
                              if id in w.store.jobs && w.store.jobs[id].revision == p.read.revision
                                 && (p.op == None || p.op.value.key !in w.store.ops)
                              then rest.(store := Store(w.store.jobs[id := p.next],
                                                        if p.op == None then w.store.ops else w.store.ops[p.op.value.key := p.op.value]),
                                         log := w.log + [Transition(p.read, w.store.jobs[id], p.next, p.op, p.now)])
                              else rest
  {
    hide Decide, DecideSweep;
  }

  // ---------------------------------------------------------------- any row

  /** A first-time claim of whatever row is read, also one that no run leaves behind. */
  lemma ClaimOfAnyRow(service: string, p: ClaimBody, now: int, s: StoredJob, lease: string)
    requires 0 <= p.expectedAttempt <= 2
    ensures var j := s.job;
            DecideClaim(service, p, now, None, Some(s), lease)
            == if j.status == Failed && j.failure.Some? && j.failure.value.AttemptsExhausted? then Answer(Exhausted)
               else if j.status == Queued && j.attempt == p.expectedAttempt && j.attempt < 3
                       && (j.retryAfter.None? || j.retryAfter.value <= now) then
                 var running := Job(j.jobId, j.request, Running, j.attempt + 1, Some(lease), Some(now + 900_000), None, None, None);
                 Propose(s, StoredJob(running, s.admittedAt, Some(service), s.revision + 1),
                         Some(OperationRecord(OpKey(service, ClaimOp, p.operationId), ClaimPayload(p), Claimed(running), lease)))
               else Answer(Conflict)
  {
  }

  /** What a failure, a publication and a return to the queue make of any job. */
  lemma NextOfAnyJob(j: Job, reason: Failure, publication: Publication, now: int)
    ensures var last, delayed := j.attempt >= 3, now + (if j.attempt == 1 then 300_000 else 1_800_000);
            FailedJob(j, reason, now)
            == Job(j.jobId, j.request, Failed, j.attempt, None, None,
                   if last then None
                   else Some(if j.leaseExpiresAt.Some? && j.leaseExpiresAt.value - 900_000 + 86_400_000 < delayed
                             then j.leaseExpiresAt.value - 900_000 + 86_400_000 else delayed),
                   Some(if last then AttemptsExhausted else reason), None)
    ensures PublishedJob(j, publication) == Job(j.jobId, j.request, Published, j.attempt, None, None, None, None, Some(publication))
    ensures RequeuedJob(j) == Job(j.jobId, j.request, Queued, j.attempt, None, None, None, None, j.publication)
  {
  }
}
