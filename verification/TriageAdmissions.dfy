/** The shared admission tables under triage. Part of the acknowledgement's batch is not
    guarded by changes(), and a refused batch may still insert what it finds due; over
    whole runs nothing is ever due, so a refused acknowledgement writes nothing at all. */
module TriageAdmissions {
  import opened Options
  import opened Triage
  import opened TriageBatch
  import opened TriageRuns
  import opened TriageSafety

  // ---------------------------------------------------------------- the invariant

  /** Every link has its shared request and its job. */
  ghost predicate LinksServed(db: Db) {
    forall l | l in db.links :: l.0 in db.requests && JobFor(l.0) in db.jobs
  }

  /** Every queued question has the link of its request and owner. */
  ghost predicate QueuedLinked(db: Db) {
    forall id | id in db.questions && db.questions[id].status == Queued && db.questions[id].explorationId.Some? ::
      (db.questions[id].explorationId.value, db.questions[id].accountSub) in db.links
  }

  /** A question never changes hands. */
  ghost predicate OwnersKept(questions: map<string, Question>, calls: map<nat, Call>) {
    forall c | c in calls ::
      ReadOf(calls[c]).id in questions && questions[ReadOf(calls[c]).id].accountSub == ReadOf(calls[c]).q.accountSub
  }

  ghost predicate Served(w: World) {
    LinksServed(w.db) && QueuedLinked(w.db) && OwnersKept(w.db.questions, w.calls)
  }

  // ---------------------------------------------------------------- one batch

  /** A question table that gains no queued question keeps the links sufficient. */
  ghost predicate Unqueued(db: Db, after: Db) {
    && after.links == db.links && after.requests == db.requests && after.jobs == db.jobs
    && forall id | id in after.questions ::
         || (id in db.questions && after.questions[id] == db.questions[id])
         || after.questions[id].status != Queued
  }

  lemma UnqueuedKeeps(db: Db, after: Db)
    requires LinksServed(db) && QueuedLinked(db) && Unqueued(db, after)
    ensures LinksServed(after) && QueuedLinked(after)
  {
  }

  lemma ClaimUnqueued(db: Db, call: Call, t: int)
    requires call.Claiming? && Decided(call)
    ensures Unqueued(db, ClaimBatch(call.protocol, call.read, call.next, call.op, db, t).db)
  {
  }

  lemma SettleUnqueued(db: Db, call: Call, t: int)
    requires call.Settling? && Decided(call)
    ensures Unqueued(db, SettleBatch(call.protocol, call.read, call.next, call.now, db, t).db)
  {
  }

  /** Where the invariant holds, a refused acknowledgement leaves the whole database as
      it found it. */
  lemma RefusedAckKeeps(db: Db, p: Plan, outcome: Outcome, t1: int, t2: int)
    requires Prepared(p, outcome) && !FirstGuard(p, db, t1) && LinksServed(db) && QueuedLinked(db)
    requires p.row.id in db.questions && db.questions[p.row.id].accountSub == p.row.q.accountSub
    ensures AckBatch(p, db, t1, t2).db == db
  {
    if p.admission.None? {
      AckDoesNothing(p, outcome, db, t1, t2);
    } else {
      RefusedAckIsNothing(p, outcome, db, t1, t2);
      var a := p.admission.value;
      assert a.jobId == JobFor(a.requestId) && a.accountSub == p.row.q.accountSub;
      hide AckBatch, FirstGuard, Prepared;
      if (a.requestId, a.accountSub) in db.links {
        assert JobFor((a.requestId, a.accountSub).0) in db.jobs;
      }
    }
  }

  lemma EverythingServes(db: Db, p: Plan, outcome: Outcome, t2: int)
    requires Prepared(p, outcome) && LinksServed(db) && QueuedLinked(db)
    requires p.row.id in db.questions && db.questions[p.row.id].accountSub == p.row.q.accountSub
    ensures LinksServed(Everything(p, db, t2)) && QueuedLinked(Everything(p, db, t2))
  {
    PlanShape(p, outcome);
    var after := Everything(p, db, t2);
    forall l | l in after.links
      ensures l.0 in after.requests && JobFor(l.0) in after.jobs
    {
      if l !in db.links { assert p.admission.value.jobId == JobFor(l.0); }
    }
  }

  lemma AckServes(db: Db, p: Plan, outcome: Outcome, t1: int, t2: int)
    requires Prepared(p, outcome) && LinksServed(db) && QueuedLinked(db)
    requires p.row.id in db.questions && db.questions[p.row.id].accountSub == p.row.q.accountSub
    ensures LinksServed(AckBatch(p, db, t1, t2).db) && QueuedLinked(AckBatch(p, db, t1, t2).db)
  {
    hide AckBatch, FirstGuard, Prepared;
    if !FirstGuard(p, db, t1) {
      RefusedAckKeeps(db, p, outcome, t1, t2);
    } else if Crossed(p, db, t2) {
      AckLeavesTriaged(p, outcome, db, t1, t2);
      UnqueuedKeeps(db, AckBatch(p, db, t1, t2).db);
    } else {
      AckDoesEverything(p, outcome, db, t1, t2);
      EverythingServes(db, p, outcome, t2);
    }
  }

  lemma BatchServes(db: Db, call: Call, t1: int, t2: int)
    requires Decided(call) && LinksServed(db) && QueuedLinked(db)
    requires ReadOf(call).id in db.questions && db.questions[ReadOf(call).id].accountSub == ReadOf(call).q.accountSub
    ensures LinksServed(BatchDone(db, call, t1, t2).db) && QueuedLinked(BatchDone(db, call, t1, t2).db)
  {
    hide ClaimBatch, SettleBatch, AckBatch;
    match call
    case Claiming(_, _, _, _) => ClaimUnqueued(db, call, t1); UnqueuedKeeps(db, BatchDone(db, call, t1, t2).db);
    case Settling(_, _, _, _) => SettleUnqueued(db, call, t1); UnqueuedKeeps(db, BatchDone(db, call, t1, t2).db);
    case Acking(p, outcome) => AckServes(db, p, outcome, t1, t2);
  }

  // ---------------------------------------------------------------- owners

  ghost predicate SameOwners(questions: map<string, Question>, after: map<string, Question>) {
    forall id | id in questions :: id in after && after[id].accountSub == questions[id].accountSub
  }

  lemma OwnersSurvive(questions: map<string, Question>, after: map<string, Question>, calls: map<nat, Call>, fewer: set<nat>)
    requires OwnersKept(questions, calls) && SameOwners(questions, after)
    ensures OwnersKept(after, calls - fewer)
  {
  }

  lemma BatchKeepsOwners(db: Db, call: Call, t1: int, t2: int)
    requires Decided(call) && SidecarsShaped(db.questions, db.sidecars)
    requires Fresh(db.questions, db.sidecars, ReadOf(call))
    ensures SameOwners(db.questions, BatchDone(db, call, t1, t2).db.questions)
  {
    var done := BatchDone(db, call, t1, t2);
    if call.Acking? {
      var p := call.p;
      hide AckBatch, FirstGuard, Prepared;
      if !FirstGuard(p, db, t1) {
        AckDoesNothing(p, call.outcome, db, t1, t2);
      } else if Crossed(p, db, t2) {
        AckLeavesTriaged(p, call.outcome, db, t1, t2);
      } else {
        AckDoesEverything(p, call.outcome, db, t1, t2);
      }
    }
  }

  // ---------------------------------------------------------------- every step, every run

  lemma RunBatchServes(w: World, c: nat, t1: int, t2: int)
    requires Inv(w) && Served(w) && c in w.calls
    ensures Served(RunBatchStep(w, c, t1, t2))
  {
    var call := w.calls[c];
    assert Fresh(w.db.questions, w.db.sidecars, ReadOf(call)) && Decided(call);
    hide Inv, Decided, Fresh, BatchDone, LinksServed, QueuedLinked;
    assert ReadOf(call).id in w.db.questions;
    BatchServes(w.db, call, t1, t2);
    BatchKeepsOwners(w.db, call, t1, t2);
    OwnersSurvive(w.db.questions, BatchDone(w.db, call, t1, t2).db.questions, w.calls, {c});
    hide OwnersKept;
  }

  lemma WriterServes(w: World, after: Db)
    requires Served(w) && Unqueued(w.db, after) && SameOwners(w.db.questions, after.questions)
    ensures Served(w.(db := after))
  {
    hide LinksServed, QueuedLinked, Unqueued, OwnersKept, SameOwners;
    UnqueuedKeeps(w.db, after);
    OwnersSurvive(w.db.questions, after.questions, w.calls, {});
    assert w.calls - {} == w.calls;
  }

  lemma BeginServes(w: World, c: nat, id: string, call: Option<Call>)
    requires Served(w) && id in w.db.questions
    requires call.Some? ==> ReadOf(call.value) == ReadRow(w.db, id)
    ensures Served(Begin(w, c, call))
  {
    hide LinksServed, QueuedLinked;
  }

  lemma BeginStepServes(w: World, e: Event)
    requires Inv(w) && Served(w) && (e.BeginClaim? || e.BeginAck? || e.BeginSettle?)
    ensures Served(Step(w, e))
  {
    if e.id in w.db.questions {
      var row := ReadRow(w.db, e.id);
      assert 0 <= row.q.attempt <= 3;
      hide Inv, Served, Begin, Decided, DecideClaim, DecideAck, DecideSettle;
      match e {
        case BeginClaim(c, protocol, id, service, operationId, body, digest, snapshotId, random, now) =>
          var lease := LeaseFor(protocol, random);
          DecisionsAreSound(protocol, row, service, operationId, body, digest, snapshotId, lease, Fails, ExpiredLease, now);
          BeginServes(w, c, id, DecideClaim(protocol, row, service, operationId, body, digest, snapshotId, lease, now));
        case BeginAck(c, protocol, id, service, operationId, body, digest, snapshotId, lease, outcome, now) =>
          DecisionsAreSound(protocol, row, service, operationId, body, digest, snapshotId, lease, outcome, ExpiredLease, now);
          BeginServes(w, c, id, DecideAck(protocol, row, service, operationId, body, digest, snapshotId, lease, outcome, now));
        case BeginSettle(c, protocol, id, sweep, now) =>
          DecisionsAreSound(protocol, row, "", "", "", "", "", "", Fails, sweep, now);
          BeginServes(w, c, id, DecideSettle(protocol, row, sweep, now));
      }
    }
  }

  lemma StepServes(w: World, e: Event)
    requires Inv(w) && Served(w)
    ensures Served(Step(w, e))
  {
    hide Inv, RunBatchStep, Served;
    match e
    case BeginClaim(_, _, _, _, _, _, _, _, _, _) => BeginStepServes(w, e);
    case BeginAck(_, _, _, _, _, _, _, _, _, _, _) => BeginStepServes(w, e);
    case BeginSettle(_, _, _, _, _) => BeginStepServes(w, e);
    case RunBatch(c, t1, t2) =>
      if c in w.calls { RunBatchServes(w, c, t1, t2); } else { NothingPending(w, c, t1, t2); }
    case RolledBack(c) => DropServes(w, c);
    case Submit(id, q) => WriterServes(w, Step(w, e).db);
    case Clarify(id, now, t) => WriterServes(w, Step(w, e).db);
    case ResultMoves(id, state) => WriterServes(w, Step(w, e).db);
    case Publish(_) => WriterServes(w, Step(w, e).db);
  }

  lemma DropServes(w: World, c: nat)
    requires Served(w)
    ensures Served(w.(calls := w.calls - {c}))
  {
    hide LinksServed, QueuedLinked;
  }

  lemma {:induction false} RunServes(w: World, events: seq<Event>)
    requires Inv(w) && Served(w)
    ensures Served(Run(w, events))
  {
    hide Inv, Served, Step;
    if events != [] {
      RunServes(w, events[..|events| - 1]);
      RunKeepsInv(w, events[..|events| - 1]);
      StepServes(Run(w, events[..|events| - 1]), events[|events| - 1]);
    }
  }

  /** In every reachable world, an acknowledgement that is refused changes nothing, in
      the question tables and in the shared ones. */
  lemma RefusedAckChangesNothing(w: World, c: nat, t1: int, t2: int)
    requires Reachable(w) && c in w.calls && w.calls[c].Acking?
    requires !FirstGuard(w.calls[c].p, w.db, t1)
    ensures RunBatchStep(w, c, t1, t2) == w.(calls := w.calls - {c})
  {
    var events :| w == Run(EMPTY, events);
    RunKeepsInv(EMPTY, events);
    RunServes(EMPTY, events);
    var call := w.calls[c];
    assert Fresh(w.db.questions, w.db.sidecars, ReadOf(call)) && Decided(call);
    hide Inv, LinksServed, QueuedLinked, AckBatch, FirstGuard, Prepared;
    RefusedAckKeeps(w.db, call.p, call.outcome, t1, t2);
    AckDoesNothing(call.p, call.outcome, w.db, t1, t2);
  }

  /** In every reachable world a link has its request and its job, and a queued question
      has its link. */
  lemma AdmissionsAreWhole(w: World)
    requires Reachable(w)
    ensures LinksServed(w.db) && QueuedLinked(w.db)
  {
    var events :| w == Run(EMPTY, events);
    RunKeepsInv(EMPTY, events);
    RunServes(EMPTY, events);
  }
}
