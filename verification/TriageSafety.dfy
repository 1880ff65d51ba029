/** What every run of triage keeps, and what follows from it. */
module TriageSafety {
  import opened Options
  import opened Triage
  import opened TriageBatch
  import opened TriageRuns

  function Claims(log: seq<Transition>, id: string): nat {
    if log == [] then 0
    else Claims(log[..|log| - 1], id) + if log[|log| - 1].pre.id == id && log[|log| - 1].claim then 1 else 0
  }

  // ---------------------------------------------------------------- the invariant

  ghost predicate QuestionsShaped(questions: map<string, Question>) {
    forall id | id in questions ::
      && questions[id].revision >= 1 && 0 <= questions[id].attempt <= 3
      && (questions[id].status == Received ==> questions[id].attempt <= 2)
  }

  /** Only a managed question is ever seen at `Triaged`. */
  ghost predicate TriagedIsManaged(questions: map<string, Question>, sidecars: map<string, Sidecar>) {
    forall id | id in questions && questions[id].status == Triaged :: id in sidecars
  }

  ghost predicate SidecarsShaped(questions: map<string, Question>, sidecars: map<string, Sidecar>) {
    forall id | id in sidecars ::
      id in questions && sidecars[id].revision >= 1 && 0 <= sidecars[id].generation <= 3
      && (sidecars[id].state == InTriage ==> sidecars[id].generation >= 1)
  }

  /** A read is the stored row or an older revision of it. */
  ghost predicate Fresh(questions: map<string, Question>, sidecars: map<string, Sidecar>, read: Row) {
    && read.id in questions
    && read.q.revision <= questions[read.id].revision
    && (read.q.revision == questions[read.id].revision ==> read.q == questions[read.id])
    && (read.sidecar.Some? ==>
          && read.id in sidecars
          && read.sidecar.value.revision <= sidecars[read.id].revision
          && (read.sidecar.value.revision == sidecars[read.id].revision ==> read.sidecar.value == sidecars[read.id]))
  }

  predicate ReceiptFor(op: Operation, read: Row, next: Question) {
    op.receipt.Some? ==>
      && op.receipt.value.requestId == read.id && op.receipt.value.generation == read.Generation()
      && op.receipt.value.inputRevision == read.q.revision && op.receipt.value.appliedRevision == next.revision
  }

  /** What a decision establishes about the batch it prepares. */
  ghost predicate Decided(call: Call) {
    match call
    case Claiming(protocol, read, next, op) =>
      && Readable(protocol, read) && read.q.status == Received && read.q.attempt <= 2
      && next.claimedAt.Some? && next.leaseExpiresAt.Some?
      && next == ClaimedQuestion(read.q, next) && next.status == Triaging
      && next.attempt == read.q.attempt + 1 && next.revision == read.q.revision + 1
      && op.key.kind == ClaimOp && ReceiptFor(op, read, next)
    case Acking(p, outcome) => Prepared(p, outcome) && ReceiptFor(p.op, p.row, p.next)
    case Settling(protocol, read, next, now) =>
      && Readable(protocol, read) && (read.q.status == Triaging || protocol == V1)
      && next == SweptQuestion(read.q, next) && next.status !in {Triaging, Triaged, Queued}
      && next.revision == read.q.revision + 1 && (next.status == Received ==> next.attempt <= 2)
  }

  ghost predicate CallsSound(questions: map<string, Question>, sidecars: map<string, Sidecar>, calls: map<nat, Call>) {
    forall c | c in calls :: Fresh(questions, sidecars, ReadOf(calls[c])) && Decided(calls[c])
  }

  predicate Planned(t: Transition) {
    t.post == t.planned && t.post.status != Triaged && t.pre.q.revision < t.post.revision <= t.pre.q.revision + 2
  }

  predicate LeftBehind(t: Transition) {
    && t.post.status == Triaged && t.op.None? && t.post.revision == t.pre.q.revision + 1
    && t.pre.q.status == Triaging && t.pre.sidecar.Some?
  }

  /** A transition replaces exactly what its caller read with exactly what it planned,
      unless the deadline crossing left the question at `Triaged`. */
  ghost predicate EntrySound(t: Transition) {
    && t.read == t.pre
    && (Planned(t) || LeftBehind(t))
    && (t.claim ==> t.pre.q.status == Received && t.post.status == Triaging && t.op.Some?)
    && t.post.attempt == t.pre.q.attempt + (if t.claim then 1 else 0)
    && (t.op.Some? ==> ReceiptFor(t.op.value, t.pre, t.post))
  }

  ghost predicate LogSound(log: seq<Transition>) {
    forall i | 0 <= i < |log| :: EntrySound(log[i])
  }

  /** Operation records and the transitions that carry one correspond one to one. */
  ghost predicate Receipted(operations: map<OpKey, Operation>, log: seq<Transition>) {
    && (forall i | 0 <= i < |log| && log[i].op.Some? ::
          log[i].op.value.key in operations && operations[log[i].op.value.key] == log[i].op.value)
    && (forall k | k in operations :: operations[k].key == k && exists i :: 0 <= i < |log| && log[i].op == Some(operations[k]))
    && (forall i, j | 0 <= i < j < |log| && log[i].op.Some? && log[j].op.Some? ::
          log[i].op.value.key != log[j].op.value.key)
  }

  /** Three claims for the question as asked and three for each clarification. */
  ghost predicate ClaimsCounted(questions: map<string, Question>, sidecars: map<string, Sidecar>, log: seq<Transition>) {
    forall id ::
      Claims(log, id) <= (if id in questions then questions[id].attempt else 0)
                         + 3 * (if id in sidecars then sidecars[id].generation else 0)
  }

  ghost predicate Inv(w: World) {
    && QuestionsShaped(w.db.questions)
    && SidecarsShaped(w.db.questions, w.db.sidecars)
    && TriagedIsManaged(w.db.questions, w.db.sidecars)
    && CallsSound(w.db.questions, w.db.sidecars, w.calls)
    && LogSound(w.log)
    && Receipted(w.db.operations, w.log)
    && ClaimsCounted(w.db.questions, w.db.sidecars, w.log)
  }

  // ---------------------------------------------------------------- deciding

  lemma DecisionsAreSound(protocol: Protocol, row: Row, service: string, operationId: string, body: string,
                          digest: string, snapshotId: string, lease: string, outcome: Outcome, sweep: Sweep, now: int)
    requires 0 <= row.q.attempt <= 3
    ensures var d := DecideClaim(protocol, row, service, operationId, body, digest, snapshotId, lease, now);
            d.Some? ==> Decided(d.value) && ReadOf(d.value) == row
    ensures var d := DecideAck(protocol, row, service, operationId, body, digest, snapshotId, lease, outcome, now);
            d.Some? ==> Decided(d.value) && ReadOf(d.value) == row
    ensures var d := DecideSettle(protocol, row, sweep, now);
            d.Some? ==> Decided(d.value) && ReadOf(d.value) == row
  {
  }

  lemma BeginKeepsInv(w: World, c: nat, id: string, call: Option<Call>)
    requires Inv(w) && id in w.db.questions
    requires call.Some? ==> Decided(call.value) && ReadOf(call.value) == ReadRow(w.db, id)
    ensures Inv(Begin(w, c, call))
  {
    hide Decided, EntrySound;
  }

  // ---------------------------------------------------------------- the tables move under pending calls

  /** Every write raises a revision, so that older reads stay older. */
  ghost predicate Advances(q: map<string, Question>, s: map<string, Sidecar>, q': map<string, Question>, s': map<string, Sidecar>) {
    && (forall id | id in q :: id in q' && (q'[id] == q[id] || q'[id].revision > q[id].revision))
    && (forall id | id in s :: id in s' && (s'[id] == s[id] || s'[id].revision > s[id].revision))
  }

  lemma AdvancingKeepsCalls(q: map<string, Question>, s: map<string, Sidecar>,
                            q': map<string, Question>, s': map<string, Sidecar>, calls: map<nat, Call>, fewer: set<nat>)
    requires CallsSound(q, s, calls) && Advances(q, s, q', s')
    ensures CallsSound(q', s', calls - fewer)
  {
    hide Decided;
    var rest := calls - fewer;
    forall c | c in rest
      ensures Fresh(q', s', ReadOf(rest[c])) && Decided(rest[c])
    {
      assert Fresh(q, s, ReadOf(calls[c]));
    }
  }

  /** What a batch that reports success did to the question it names. */
  ghost predicate Replaced(db: Db, done: Db, call: Call) {
    var read := ReadOf(call);
    && read.id in db.questions && read == ReadRow(db, read.id)
    && read.id in done.questions
    && done.questions == db.questions[read.id := done.questions[read.id]]
    && EntrySound(Transition(read, read, PlannedBy(call), done.questions[read.id], call.Claiming?, Recorded(db, done, call)))
    && (done.questions[read.id].status == Received ==> done.questions[read.id].attempt <= 2)
    && (done.sidecars == db.sidecars || ResultReplaced(db, done, read.id))
    && match Recorded(db, done, call)
       case None => done.operations == db.operations
       case Some(op) => op.key !in db.operations && done.operations == db.operations[op.key := op]
  }

  ghost predicate ResultReplaced(db: Db, done: Db, id: string) {
    && id in done.sidecars && done.sidecars == db.sidecars[id := done.sidecars[id]]
    && var s := done.sidecars[id];
    && s.state != InTriage
    && (if id in db.sidecars then s.revision > db.sidecars[id].revision && s.generation == db.sidecars[id].generation
        else s.revision >= 1 && s.generation == 0)
  }

  /** A fence that holds now pins a fresh read to the stored row. */
  lemma FencePinsRow(db: Db, protocol: Protocol, read: Row, t: int)
    requires Fresh(db.questions, db.sidecars, read) && Readable(protocol, read)
    requires read.q.revision == db.questions[read.id].revision
    requires Fence(protocol, db, read, db.questions[read.id], t)
             || (ReadExpired(protocol, read) && SettleFence(protocol, db, read, db.questions[read.id], t))
    ensures read == ReadRow(db, read.id)
  {
  }

  lemma ClaimReplaces(db: Db, call: Call, t: int)
    requires call.Claiming? && Decided(call) && Fresh(db.questions, db.sidecars, call.read)
    requires ClaimBatch(call.protocol, call.read, call.next, call.op, db, t).accepted == Some(true)
    ensures Replaced(db, ClaimBatch(call.protocol, call.read, call.next, call.op, db, t).db, call)
  {
    FencePinsRow(db, call.protocol, call.read, t);
  }

  lemma SettleReplaces(db: Db, call: Call, t: int)
    requires call.Settling? && Decided(call) && Fresh(db.questions, db.sidecars, call.read)
    requires SidecarsShaped(db.questions, db.sidecars)
    requires SettleBatch(call.protocol, call.read, call.next, call.now, db, t).accepted == Some(true)
    ensures Replaced(db, SettleBatch(call.protocol, call.read, call.next, call.now, db, t).db, call)
  {
    FencePinsRow(db, call.protocol, call.read, t);
  }

  lemma AckReplacesAll(db: Db, call: Call, t1: int, t2: int)
    requires call.Acking? && Decided(call) && Fresh(db.questions, db.sidecars, call.p.row)
    requires FirstGuard(call.p, db, t1) && call.p.row == ReadRow(db, call.p.row.id)
    ensures Replaced(db, Everything(call.p, db, t2), call)
  {
    var p := call.p;
    PlanShape(p, call.outcome);
    FencePinsSidecar(p, call.outcome, db, db.questions[p.row.id], t1);
    assert p.op.key !in db.operations;
    hide FirstGuard, PlanFor;
    var done := Everything(p, db, t2);
    assert done.operations[p.op.key].key == p.op.key;
  }

  lemma AckReplaces(db: Db, call: Call, t1: int, t2: int)
    requires call.Acking? && Decided(call) && Fresh(db.questions, db.sidecars, call.p.row)
    requires FirstGuard(call.p, db, t1)
    ensures AckBatch(call.p, db, t1, t2).accepted == Some(true)
    ensures Replaced(db, AckBatch(call.p, db, t1, t2).db, call)
  {
    var p := call.p;
    FencePinsRow(db, p.protocol, p.row, t1);
    PlanShape(p, call.outcome);
    hide AckBatch, PlanFor;
    if Crossed(p, db, t2) {
      AckLeavesTriaged(p, call.outcome, db, t1, t2);
    } else {
      AckDoesEverything(p, call.outcome, db, t1, t2);
      AckReplacesAll(db, call, t1, t2);
    }
  }

  // ---------------------------------------------------------------- one batch

  lemma ClaimsAppend(log: seq<Transition>, t: Transition, id: string)
    ensures Claims(log + [t], id) == Claims(log, id) + if t.pre.id == id && t.claim then 1 else 0
  {
    assert (log + [t])[..|log + [t]| - 1] == log;
  }

  lemma ReceiptedAppend(operations: map<OpKey, Operation>, log: seq<Transition>, t: Transition, operations': map<OpKey, Operation>)
    requires Receipted(operations, log)
    requires match t.op
             case None => operations' == operations
             case Some(op) => op.key !in operations && operations' == operations[op.key := op]
    ensures Receipted(operations', log + [t])
  {
    var log' := log + [t];
    forall k | k in operations'
      ensures operations'[k].key == k && exists i :: 0 <= i < |log'| && log'[i].op == Some(operations'[k])
    {
      if t.op.Some? && k == t.op.value.key {
        assert log'[|log|].op == Some(operations'[k]);
      } else {
        var i :| 0 <= i < |log| && log[i].op == Some(operations[k]);
        assert log'[i].op == Some(operations'[k]);
      }
    }
  }

  lemma ReplacingKeepsTables(db: Db, done: Db, call: Call)
    requires QuestionsShaped(db.questions) && SidecarsShaped(db.questions, db.sidecars) && Replaced(db, done, call)
    ensures QuestionsShaped(done.questions) && SidecarsShaped(done.questions, done.sidecars)
    ensures TriagedIsManaged(db.questions, db.sidecars) ==> TriagedIsManaged(done.questions, done.sidecars)
    ensures Advances(db.questions, db.sidecars, done.questions, done.sidecars)
  {
  }

  lemma ReplacingKeepsClaims(db: Db, done: Db, call: Call, log: seq<Transition>, t: Transition)
    requires SidecarsShaped(db.questions, db.sidecars) && Replaced(db, done, call)
    requires ClaimsCounted(db.questions, db.sidecars, log)
    requires t.pre == ReadOf(call) && t.claim == call.Claiming?
    ensures ClaimsCounted(done.questions, done.sidecars, log + [t])
  {
    var id := ReadOf(call).id;
    forall other
      ensures Claims(log + [t], other) <= (if other in done.questions then done.questions[other].attempt else 0)
                                          + 3 * (if other in done.sidecars then done.sidecars[other].generation else 0)
    {
      ClaimsAppend(log, t, other);
      assert Claims(log, other) <= (if other in db.questions then db.questions[other].attempt else 0)
                                   + 3 * (if other in db.sidecars then db.sidecars[other].generation else 0);
    }
  }

  lemma ReplacingKeepsInv(w: World, c: nat, done: Db, t: Transition)
    requires Inv(w) && c in w.calls && Replaced(w.db, done, w.calls[c])
    requires t == Transition(ReadOf(w.calls[c]), ReadRow(w.db, ReadOf(w.calls[c]).id), PlannedBy(w.calls[c]),
                             done.questions[ReadOf(w.calls[c]).id], w.calls[c].Claiming?, Recorded(w.db, done, w.calls[c]))
    ensures Inv(World(done, w.calls - {c}, w.log + [t]))
  {
    ReplacingKeepsTables(w.db, done, w.calls[c]);
    AdvancingKeepsCalls(w.db.questions, w.db.sidecars, done.questions, done.sidecars, w.calls, {c});
    ReplacingKeepsClaims(w.db, done, w.calls[c], w.log, t);
    hide QuestionsShaped, SidecarsShaped, TriagedIsManaged, CallsSound, ClaimsCounted, Advances, EntrySound, Receipted;
    ReceiptedAppend(w.db.operations, w.log, t, done.operations);
  }

  /** A batch that does not report success leaves the question tables alone. */
  lemma RefusedChangesNothing(db: Db, call: Call, t1: int, t2: int)
    requires Decided(call)
    requires BatchDone(db, call, t1, t2).accepted != Some(true)
    ensures var d := BatchDone(db, call, t1, t2).db; d == db.(requests := d.requests, links := d.links, jobs := d.jobs)
  {
    if call.Acking? {
      if !FirstGuard(call.p, db, t1) {
        AckDoesNothing(call.p, call.outcome, db, t1, t2);
      } else {
        if Crossed(call.p, db, t2) {
          AckLeavesTriaged(call.p, call.outcome, db, t1, t2);
        } else {
          AckDoesEverything(call.p, call.outcome, db, t1, t2);
        }
        assert false;
      }
    }
  }

  lemma AcceptedReplaces(db: Db, call: Call, t1: int, t2: int)
    requires Decided(call) && Fresh(db.questions, db.sidecars, ReadOf(call)) && SidecarsShaped(db.questions, db.sidecars)
    requires BatchDone(db, call, t1, t2).accepted == Some(true)
    ensures Replaced(db, BatchDone(db, call, t1, t2).db, call)
  {
    match call
    case Claiming(_, _, _, _) => ClaimReplaces(db, call, t1);
    case Settling(_, _, _, _) => SettleReplaces(db, call, t1);
    case Acking(p, outcome) =>
      if !FirstGuard(p, db, t1) {
        AckDoesNothing(p, outcome, db, t1, t2);
        assert false;
      }
      AckReplaces(db, call, t1, t2);
  }

  lemma RunBatchKeepsInv(w: World, c: nat, t1: int, t2: int)
    requires Inv(w) && c in w.calls
    ensures Inv(RunBatchStep(w, c, t1, t2))
  {
    var call := w.calls[c];
    assert Fresh(w.db.questions, w.db.sidecars, ReadOf(call)) && Decided(call);
    assert SidecarsShaped(w.db.questions, w.db.sidecars);
    hide Inv, AckBatch, ClaimBatch, SettleBatch, SidecarsShaped;
    var id := ReadOf(call).id;
    if id in w.db.questions {
      var done := BatchDone(w.db, call, t1, t2);
      if done.accepted == Some(true) {
        AcceptedReplaces(w.db, call, t1, t2);
        assert id in done.db.questions;
        hide Replaced;
        ReplacingKeepsInv(w, c, done.db, Transition(ReadOf(call), ReadRow(w.db, id), PlannedBy(call), done.db.questions[id],
                                                    call.Claiming?, Recorded(w.db, done.db, call)));
      } else {
        RefusedChangesNothing(w.db, call, t1, t2);
        TablesAloneKeepInv(w, done.db, {c});
      }
    }
  }

  lemma TablesAloneKeepInv(w: World, db: Db, fewer: set<nat>)
    requires Inv(w) && db.questions == w.db.questions && db.sidecars == w.db.sidecars && db.operations == w.db.operations
    ensures Inv(World(db, w.calls - fewer, w.log))
  {
    hide QuestionsShaped, SidecarsShaped, TriagedIsManaged, ClaimsCounted, LogSound, Receipted;
    AdvancingKeepsCalls(w.db.questions, w.db.sidecars, db.questions, db.sidecars, w.calls, fewer);
  }

  // ---------------------------------------------------------------- the other writers

  lemma WriterKeepsInv(w: World, db': Db)
    requires Inv(w) && db'.operations == w.db.operations
    requires QuestionsShaped(db'.questions) && SidecarsShaped(db'.questions, db'.sidecars)
    requires TriagedIsManaged(db'.questions, db'.sidecars) && ClaimsCounted(db'.questions, db'.sidecars, w.log)
    requires Advances(w.db.questions, w.db.sidecars, db'.questions, db'.sidecars)
    ensures Inv(w.(db := db'))
  {
    hide QuestionsShaped, SidecarsShaped, TriagedIsManaged, Advances, CallsSound, LogSound, Receipted, ClaimsCounted;
    AdvancingKeepsCalls(w.db.questions, w.db.sidecars, db'.questions, db'.sidecars, w.calls, {});
    assert w.calls - {} == w.calls;
  }

  lemma SubmitKeepsInv(w: World, id: string, q: Question)
    requires Inv(w) && id !in w.db.questions && q.status == Received && q.attempt == 0 && q.revision == 1
    ensures Inv(w.(db := PutQuestion(w.db, id, q)))
  {
    hide LogSound, Receipted, CallsSound;
    WriterKeepsInv(w, PutQuestion(w.db, id, q));
  }

  lemma ClarifyKeepsTables(w: World, id: string, now: int, t: int)
    requires Inv(w) && CanClarify(w.db, id, t)
    ensures var db' := Clarified(w.db, id, now);
            && QuestionsShaped(db'.questions) && SidecarsShaped(db'.questions, db'.sidecars)
            && TriagedIsManaged(db'.questions, db'.sidecars)
            && Advances(w.db.questions, w.db.sidecars, db'.questions, db'.sidecars)
  {
    hide LogSound, Receipted, CallsSound, ClaimsCounted;
  }

  lemma ClarifyKeepsClaims(db: Db, id: string, now: int, t: int, log: seq<Transition>)
    requires ClaimsCounted(db.questions, db.sidecars, log) && CanClarify(db, id, t) && db.questions[id].attempt <= 3
    ensures ClaimsCounted(Clarified(db, id, now).questions, Clarified(db, id, now).sidecars, log)
  {
    var db' := Clarified(db, id, now);
    forall other
      ensures Claims(log, other) <= (if other in db'.questions then db'.questions[other].attempt else 0)
                                    + 3 * (if other in db'.sidecars then db'.sidecars[other].generation else 0)
    {
      assert Claims(log, other) <= (if other in db.questions then db.questions[other].attempt else 0)
                                   + 3 * (if other in db.sidecars then db.sidecars[other].generation else 0);
    }
  }

  lemma ClarifyKeepsInv(w: World, id: string, now: int, t: int)
    requires Inv(w) && CanClarify(w.db, id, t)
    ensures Inv(w.(db := Clarified(w.db, id, now)))
  {
    assert w.db.questions[id].attempt <= 3 && ClaimsCounted(w.db.questions, w.db.sidecars, w.log);
    assert Clarified(w.db, id, now).operations == w.db.operations;
    hide Inv, Clarified, Claims;
    ClarifyKeepsTables(w, id, now, t);
    ClarifyKeepsClaims(w.db, id, now, t, w.log);
    hide CanClarify;
    WriterKeepsInv(w, Clarified(w.db, id, now));
  }

  lemma ResultMovesKeepsTables(w: World, id: string, state: ResultState)
    requires Inv(w) && id in w.db.sidecars && state != InTriage
    ensures var db' := ResultMoved(w.db, id, state);
            && db'.questions == w.db.questions && db'.operations == w.db.operations
            && SidecarsShaped(db'.questions, db'.sidecars) && TriagedIsManaged(db'.questions, db'.sidecars)
            && Advances(w.db.questions, w.db.sidecars, db'.questions, db'.sidecars)
            && ClaimsCounted(db'.questions, db'.sidecars, w.log)
  {
    hide LogSound, Receipted, CallsSound, Claims;
  }

  lemma ResultMovesKeepsInv(w: World, id: string, state: ResultState)
    requires Inv(w) && id in w.db.sidecars && state != InTriage
    ensures Inv(w.(db := ResultMoved(w.db, id, state)))
  {
    ResultMovesKeepsTables(w, id, state);
    hide QuestionsShaped, SidecarsShaped, TriagedIsManaged, Advances, CallsSound, LogSound, Receipted, ClaimsCounted, ResultMoved;
    WriterKeepsInv(w, ResultMoved(w.db, id, state));
  }

  lemma BeginStepKeepsInv(w: World, e: Event)
    requires Inv(w) && (e.BeginClaim? || e.BeginAck? || e.BeginSettle?)
    ensures Inv(Step(w, e))
  {
    if e.id in w.db.questions {
      var row := ReadRow(w.db, e.id);
      assert 0 <= row.q.attempt <= 3;
      hide Inv, Decided, DecideClaim, DecideAck, DecideSettle;
      match e {
        case BeginClaim(c, protocol, id, service, operationId, body, digest, snapshotId, random, now) =>
          var lease := LeaseFor(protocol, random);
          DecisionsAreSound(protocol, row, service, operationId, body, digest, snapshotId, lease, Fails, ExpiredLease, now);
          BeginKeepsInv(w, c, id, DecideClaim(protocol, row, service, operationId, body, digest, snapshotId, lease, now));
        case BeginAck(c, protocol, id, service, operationId, body, digest, snapshotId, lease, outcome, now) =>
          DecisionsAreSound(protocol, row, service, operationId, body, digest, snapshotId, lease, outcome, ExpiredLease, now);
          BeginKeepsInv(w, c, id, DecideAck(protocol, row, service, operationId, body, digest, snapshotId, lease, outcome, now));
        case BeginSettle(c, protocol, id, sweep, now) =>
          DecisionsAreSound(protocol, row, "", "", "", "", "", "", Fails, sweep, now);
          BeginKeepsInv(w, c, id, DecideSettle(protocol, row, sweep, now));
      }
    }
  }

  lemma StepKeepsInv(w: World, e: Event)
    requires Inv(w)
    ensures Inv(Step(w, e))
  {
    assert e.RunBatch? && e.c !in w.calls ==> Step(w, e) == w;
    hide Inv, RunBatchStep, Clarified, ResultMoved;
    match e
    case Submit(id, q) =>
      if Step(w, e) != w { SubmitKeepsInv(w, id, q); }
    case BeginClaim(_, _, _, _, _, _, _, _, _, _) => BeginStepKeepsInv(w, e);
    case BeginAck(_, _, _, _, _, _, _, _, _, _, _) => BeginStepKeepsInv(w, e);
    case BeginSettle(_, _, _, _, _) => BeginStepKeepsInv(w, e);
    case RunBatch(c, t1, t2) =>
      if c in w.calls { RunBatchKeepsInv(w, c, t1, t2); }
    case RolledBack(c) => TablesAloneKeepInv(w, w.db, {c});
    case Clarify(id, now, t) =>
      if CanClarify(w.db, id, t) { ClarifyKeepsInv(w, id, now, t); }
    case ResultMoves(id, state) =>
      if id in w.db.sidecars && state != InTriage { ResultMovesKeepsInv(w, id, state); }
    case Publish(snapshotId) =>
      TablesAloneKeepInv(w, w.db.(snapshot := Some(snapshotId)), {});
      assert w.calls - {} == w.calls;
  }

  lemma {:induction false} RunKeepsInv(w: World, events: seq<Event>)
    requires Inv(w)
    ensures Inv(Run(w, events))
  {
    hide Inv, Step;
    if events != [] {
      RunKeepsInv(w, events[..|events| - 1]);
      StepKeepsInv(Run(w, events[..|events| - 1]), events[|events| - 1]);
    }
  }

  ghost predicate Reachable(w: World) {
    exists events :: w == Run(EMPTY, events)
  }

  lemma ReachableKeepsInv(w: World)
    requires Reachable(w)
    ensures Inv(w)
  {
    var events :| w == Run(EMPTY, events);
    RunKeepsInv(EMPTY, events);
  }

  // ---------------------------------------------------------------- theorems over whole runs

  /** No lost update: a batch that reports success replaced exactly what its caller had
      read, question and result both, and stored exactly what it planned, unless a
      managed question was left at `Triaged` without a receipt. */
  lemma BatchesReplaceWhatTheyRead(w: World, i: nat)
    requires Reachable(w) && i < |w.log|
    ensures var t := w.log[i];
            && t.read == t.pre
            && (Planned(t) || LeftBehind(t))
  {
    ReachableKeepsInv(w);
    assert EntrySound(w.log[i]);
  }

  /** A receipt exists exactly for a transition that committed, and names the revisions
      before and after it. */
  lemma ReceiptsNameTheirTransition(w: World, k: OpKey)
    requires Reachable(w) && k in w.db.operations
    ensures exists i ::
              && 0 <= i < |w.log| && w.log[i].op == Some(w.db.operations[k])
              && (forall j | 0 <= j < |w.log| && w.log[j].op == Some(w.db.operations[k]) :: j == i)
              && var t := w.log[i];
              && Planned(t)
              && (w.db.operations[k].receipt.Some? ==>
                    var r := w.db.operations[k].receipt.value;
                    r.requestId == t.pre.id && r.inputRevision == t.pre.q.revision && r.appliedRevision == t.post.revision
                    && r.generation == t.pre.Generation())
  {
    ReachableKeepsInv(w);
    assert w.db.operations[k].key == k;
    var i :| 0 <= i < |w.log| && w.log[i].op == Some(w.db.operations[k]);
    assert EntrySound(w.log[i]);
    hide EntrySound;
  }

  /** An operation acts at most once, whatever is sent again. */
  lemma OperationActsOnce(w: World, i: nat, j: nat)
    requires Reachable(w) && i < |w.log| && j < |w.log|
    requires w.log[i].op.Some? && w.log[j].op.Some? && w.log[i].op.value.key == w.log[j].op.value.key
    ensures i == j
  {
    ReachableKeepsInv(w);
    hide EntrySound;
  }

  lemma TriagedNeverMatches(db: Db, call: Call, t1: int, t2: int)
    requires Decided(call) && Fresh(db.questions, db.sidecars, ReadOf(call))
    requires ReadOf(call).id in db.sidecars && db.questions[ReadOf(call).id].status == Triaged
    ensures BatchDone(db, call, t1, t2).accepted != Some(true)
  {
    if call.Acking? {
      AckDoesNothing(call.p, call.outcome, db, t1, t2);
    }
  }

  lemma BatchKeepsTriaged(w: World, c: nat, t1: int, t2: int, id: string)
    requires Inv(w) && c in w.calls && id in w.db.questions && w.db.questions[id].status == Triaged
    ensures var after := RunBatchStep(w, c, t1, t2).db; id in after.questions && after.questions[id] == w.db.questions[id]
  {
    var call := w.calls[c];
    assert id in w.db.sidecars && SidecarsShaped(w.db.questions, w.db.sidecars);
    assert Fresh(w.db.questions, w.db.sidecars, ReadOf(call)) && Decided(call);
    hide Inv, BatchDone, Fresh, Decided, SidecarsShaped;
    if ReadOf(call).id == id {
      TriagedNeverMatches(w.db, call, t1, t2);
    }
    if BatchDone(w.db, call, t1, t2).accepted == Some(true) {
      AcceptedReplaces(w.db, call, t1, t2);
    } else {
      RefusedChangesNothing(w.db, call, t1, t2);
    }
  }

  lemma StepKeepsTriaged(w: World, e: Event, id: string)
    requires Inv(w) && id in w.db.questions && w.db.questions[id].status == Triaged
    ensures id in Step(w, e).db.questions && Step(w, e).db.questions[id] == w.db.questions[id]
  {
    hide Inv, RunBatchStep;
    match e
    case RunBatch(c, t1, t2) =>
      if c in w.calls { BatchKeepsTriaged(w, c, t1, t2, id); } else { NothingPending(w, c, t1, t2); }
    case BeginClaim(_, _, _, _, _, _, _, _, _, _) => hide DecideClaim;
    case BeginAck(_, _, _, _, _, _, _, _, _, _, _) => hide DecideAck;
    case BeginSettle(_, _, _, _, _) => hide DecideSettle;
    case _ =>
  }

  lemma NothingPending(w: World, c: nat, t1: int, t2: int)
    requires c !in w.calls
    ensures RunBatchStep(w, c, t1, t2) == w
  {
  }

  lemma {:induction false} TriagedSurvives(w: World, events: seq<Event>, id: string)
    requires Inv(w) && id in w.db.questions && w.db.questions[id].status == Triaged
    ensures id in Run(w, events).db.questions && Run(w, events).db.questions[id] == w.db.questions[id]
  {
    hide Inv, Step;
    if events != [] {
      var before := Run(w, events[..|events| - 1]);
      TriagedSurvives(w, events[..|events| - 1], id);
      RunKeepsInv(w, events[..|events| - 1]);
      StepKeepsTriaged(before, events[|events| - 1], id);
    }
  }

  /** A question is never seen at `Triaged` unless the deadline crossing left it there,
      and there it stays: no further run of either protocol, of clarifications or of the
      result service changes it. */
  lemma TriagedIsStranded(w: World, events: seq<Event>, id: string)
    requires Reachable(w) && id in w.db.questions && w.db.questions[id].status == Triaged
    ensures id in w.db.sidecars
    ensures id in Run(w, events).db.questions && Run(w, events).db.questions[id] == w.db.questions[id]
  {
    ReachableKeepsInv(w);
    TriagedSurvives(w, events, id);
  }

  /** Three attempts, and three more for each of at most three clarifications. */
  lemma AtMostTwelveClaims(w: World, id: string)
    requires Reachable(w)
    ensures Claims(w.log, id) <= 12
    ensures id in w.db.questions && id !in w.db.sidecars ==> Claims(w.log, id) <= w.db.questions[id].attempt <= 3
  {
    ReachableKeepsInv(w);
    hide EntrySound, CallsSound, Receipted;
    assert Claims(w.log, id) <= (if id in w.db.questions then w.db.questions[id].attempt else 0)
                                + 3 * (if id in w.db.sidecars then w.db.sidecars[id].generation else 0);
  }
}
