/** What triage leaves behind, written out column by column for every outcome of an
    acknowledgement, every claim and every sweep. */
module TriageAnswers {
  import opened Options
  import opened Triage
  import opened TriageBatch
  import opened TriageRuns

  // ---------------------------------------------------------------- who may work on a question

  /** The second protocol's leases begin with its mark. */
  predicate Marked(lease: Option<string>) {
    lease.Some? && |lease.value| >= 3 && lease.value[0] == 'q' && lease.value[1] == '2' && lease.value[2] == ':'
  }

  /** A managed result that is open to triage: clarified for its generation, in time. */
  predicate Open(s: Sidecar, now: int) {
    s.state == InTriage && (s.generation == 1 || s.generation == 2 || s.generation == 3) && s.clarified && now < s.responseDeadline
  }

  /** The receipt that only the second protocol writes. */
  function ReceiptFor(protocol: Protocol, row: Row, applied: int, lease: string, digest: string, snapshotId: string): Option<Receipt> {
    match protocol
    case V1 => None
    case V2 => Some(Receipt(row.id, if row.sidecar.Some? then row.sidecar.value.generation else 0, row.q.revision, applied,
                            lease, digest, snapshotId))
  }

  // ---------------------------------------------------------------- claims

  /** Received, in attempts, past its deadline and in the protocol's scope. */
  predicate Claimable(protocol: Protocol, row: Row, lease: string, now: int) {
    && row.q.status == Received && row.q.attempt < 3 && row.q.leaseId != Some(lease)
    && (row.q.retryAfter.None? || row.q.retryAfter.value <= now)
    && match protocol
       case V1 => row.sidecar.None? && !Marked(row.q.leaseId)
       case V2 => now < row.q.expiresAt && (row.sidecar.None? || Open(row.sidecar.value, now))
  }

  function ClaimedRow(q: Question, service: string, lease: string, now: int): Question {
    Question(Triaging, q.attempt + 1, Some(lease), Some(service), Some(now + 900_000), None, Some(now),
             q.revision + 1, q.verdict, q.explorationId, q.accountSub, q.expiresAt)
  }

  /** When a claim is proposed, and what it proposes. */
  lemma ClaimAnswers(protocol: Protocol, row: Row, service: string, operationId: string, body: string,
                     digest: string, snapshotId: string, lease: string, now: int)
    ensures DecideClaim(protocol, row, service, operationId, body, digest, snapshotId, lease, now)
            == if !Claimable(protocol, row, lease, now) then None
               else Some(Claiming(protocol, row, ClaimedRow(row.q, service, lease, now),
                                  Operation(OpKey(service, ClaimOp, operationId), body, Triaging, lease,
                                            ReceiptFor(protocol, row, row.q.revision + 1, lease, digest, snapshotId), 0)))
  {
  }

  /** The stored question and its result are in the protocol's scope, and the result is at
      the generation and revision that were read. */
  predicate InScopeAsRead(protocol: Protocol, db: Db, row: Row, t: int)
    requires row.id in db.questions
  {
    match protocol
    case V1 => row.id !in db.sidecars && !Marked(db.questions[row.id].leaseId)
    case V2 =>
      && (db.questions[row.id].status == Triaging ==> Marked(db.questions[row.id].leaseId))
      && (if row.id in db.sidecars then
            && Open(db.sidecars[row.id], t) && db.sidecars[row.id].requestRevision <= db.questions[row.id].revision
            && db.sidecars[row.id].generation == (if row.sidecar.Some? then row.sidecar.value.generation else 0)
            && db.sidecars[row.id].revision == (if row.sidecar.Some? then row.sidecar.value.revision else 0)
          else row.sidecar.Some? ==> row.sidecar.value.generation == 0 && row.sidecar.value.revision == 0)
  }

  /** What the claim's statement asks of the database at its own time. */
  predicate ClaimMayLand(protocol: Protocol, db: Db, row: Row, service: string, operationId: string, snapshotId: string, now: int, t: int) {
    && row.id in db.questions
    && var q := db.questions[row.id];
    && q.status == Received && q.revision == row.q.revision && q.attempt == row.q.attempt && t < q.expiresAt
    && (q.retryAfter.None? || q.retryAfter.value <= now) && now <= t < now + 900_000
    && OpKey(service, ClaimOp, operationId) !in db.operations
    && InScopeAsRead(protocol, db, row, t) && (protocol == V2 ==> db.snapshot == Some(snapshotId))
  }

  /** A proposed claim lands exactly under these conditions, with its record; else nothing
      changes and the claimant is told so. */
  lemma ClaimLandsExactly(protocol: Protocol, db: Db, row: Row, service: string, operationId: string, body: string,
                          digest: string, snapshotId: string, lease: string, now: int, t: int)
    requires Claimable(protocol, row, lease, now)
    ensures var key := OpKey(service, ClaimOp, operationId);
            var receipt := ReceiptFor(protocol, row, row.q.revision + 1, lease, digest, snapshotId);
            var next := ClaimedRow(row.q, service, lease, now);
            ClaimBatch(protocol, row, next, Operation(key, body, Triaging, lease, receipt, 0), db, t)
            == if ClaimMayLand(protocol, db, row, service, operationId, snapshotId, now, t) then
                 var q := db.questions[row.id];
                 Done(db.(questions := db.questions[row.id := Question(Triaging, row.q.attempt + 1, Some(lease), Some(service),
                                                                       Some(now + 900_000), None, Some(now), row.q.revision + 1,
                                                                       q.verdict, q.explorationId, q.accountSub, q.expiresAt)],
                          operations := db.operations[key := Operation(key, body, Triaging, lease, receipt, t + 2_592_000_000)]),
                      Some(true))
               else Done(db, Some(false))
  {
  }

  // ---------------------------------------------------------------- acknowledgements

  /** Triaging under the caller's live lease, in the protocol's scope. */
  predicate Acknowledgeable(protocol: Protocol, row: Row, service: string, lease: string, now: int) {
    && row.q.status == Triaging && row.q.leaseId == Some(lease) && row.q.leaseOwner == Some(service)
    && row.q.leaseExpiresAt.Some? && now < row.q.leaseExpiresAt.value
    && match protocol
       case V1 => row.sidecar.None? && !Marked(row.q.leaseId)
       case V2 => Marked(row.q.leaseId) && now < row.q.expiresAt && (row.sidecar.None? || Open(row.sidecar.value, now))
  }

  /** When an acknowledgement is proposed. */
  lemma AckIsProposed(protocol: Protocol, row: Row, service: string, operationId: string, body: string,
                      digest: string, snapshotId: string, lease: string, outcome: Outcome, now: int)
    ensures var d := DecideAck(protocol, row, service, operationId, body, digest, snapshotId, lease, outcome, now);
            && (d.Some? <==> Acknowledgeable(protocol, row, service, lease, now)
                             && (protocol == V1 || outcome.Fails? || outcome.Irrelevant? || outcome.Mapped?))
            && (d.Some? ==>
                  && d.value.Acking? && d.value.p.row == row && d.value.p.protocol == protocol && d.value.p.now == now
                  && Prepared(d.value.p, outcome)
                  && d.value.p.op == Operation(OpKey(service, AckOp, operationId), body, d.value.p.next.status, lease,
                                               ReceiptFor(protocol, row, d.value.p.next.revision, lease, digest, snapshotId), 0))
  {
  }

  /** A batch that completes: the guard of its first statement held and no deadline was
      crossed between its statements. */
  predicate Completes(p: Plan, outcome: Outcome, db: Db, t1: int, t2: int) {
    && Prepared(p, outcome) && FirstGuard(p, db, t1) && !Crossed(p, db, t2)
  }

  function Earlier(a: int, b: int): int {
    if a < b then a else b
  }

  /** The result as a completed batch stores it: open for its owner's answer for a day. */
  function ResultFor(db: Db, id: string, state: ResultState, spec: Option<string>, revision: int, now: int): Sidecar
    requires id in db.questions
  {
    var q := db.questions[id];
    if id in db.sidecars then
      var s := db.sidecars[id];
      Sidecar(revision, s.revision + 1, state, s.generation, spec, Earlier(s.expiresAt, now + 86_400_000), s.expiresAt,
              s.clarified && s.requestRevision == revision)
    else Sidecar(revision, 1, state, 0, spec, Earlier(q.expiresAt, now + 86_400_000), q.expiresAt, false)
  }

  /** The record of a completed acknowledgement keeps for thirty days. */
  function Kept(db: Db, op: Operation, t: int): map<OpKey, Operation> {
    db.operations[op.key := Operation(op.key, op.body, op.status, op.leaseId, op.receipt, t + 2_592_000_000)]
  }

  lemma CompletedBatch(p: Plan, outcome: Outcome, db: Db, t1: int, t2: int)
    requires Completes(p, outcome, db, t1, t2)
    ensures p.row.id in db.questions && (p.row.id in db.sidecars <==> p.row.sidecar.Some?)
    ensures AckBatch(p, db, t1, t2) == Done(Everything(p, db, t2), Some(true))
    ensures p.row.sidecar.Some? ==> p.protocol == V2
    ensures p == PlanFor(p.protocol, p.row, outcome, p.op, p.now)
  {
    AckDoesEverything(p, outcome, db, t1, t2);
    FencePinsSidecar(p, outcome, db, db.questions[p.row.id], t1);
    hide AckBatch, Everything, PlanFor;
  }

  /** A mapped question waits for confirmation with the spec it was mapped to, or has no
      data: asked to clarify, except that a third generation is not asked again. */
  lemma MappedAnswer(p: Plan, verdict: string, draft: Draft, db: Db, t1: int, t2: int)
    requires Completes(p, Mapped(verdict, draft), db, t1, t2)
    ensures var q, id, n := db.questions[p.row.id], p.row.id, p.row.q.revision + 2;
            var exhausted := draft.state == ClarificationRequired && p.row.sidecar.Some? && p.row.sidecar.value.generation >= 3;
            AckBatch(p, db, t1, t2)
            == Done(Db(db.questions[id := Question(if draft.state == ConfirmationRequired then Filled else NoData, q.attempt,
                                                   q.leaseId, q.leaseOwner, None, None, q.claimedAt, n, Some(verdict), None,
                                                   q.accountSub, q.expiresAt)],
                       db.sidecars[id := if exhausted then ResultFor(db, id, Unsupported, None, n, p.now)
                                         else ResultFor(db, id, draft.state, draft.spec, n, p.now)],
                       Kept(db, p.op, t2), db.snapshot, db.requests, db.links, db.jobs),
                    Some(true))
  {
    hide FirstGuard, Crossed, AckBatch, Prepared;
    CompletedBatch(p, Mapped(verdict, draft), db, t1, t2);
  }

  /** An irrelevant question is junk, and the result of a managed one is unsupported. */
  lemma IrrelevantAnswer(p: Plan, verdict: string, db: Db, t1: int, t2: int)
    requires Completes(p, Irrelevant(verdict), db, t1, t2)
    ensures var q, id, n := db.questions[p.row.id], p.row.id, p.row.q.revision + 1;
            AckBatch(p, db, t1, t2)
            == Done(Db(db.questions[id := Question(Junk, q.attempt, q.leaseId, q.leaseOwner, None, None, q.claimedAt, n, Some(verdict),
                                                   p.row.q.explorationId, q.accountSub, q.expiresAt)],
                       if id in db.sidecars then db.sidecars[id := ResultFor(db, id, Unsupported, None, n, p.now)] else db.sidecars,
                       Kept(db, p.op, t2), db.snapshot, db.requests, db.links, db.jobs),
                    Some(true))
  {
    hide FirstGuard, Crossed, AckBatch, Prepared;
    CompletedBatch(p, Irrelevant(verdict), db, t1, t2);
  }

  /** A failure sends the question back with a delay, at most a day from its claim, and for
      good at the third attempt, together with its result. */
  lemma FailureAnswer(p: Plan, db: Db, t1: int, t2: int)
    requires Completes(p, Fails, db, t1, t2)
    ensures var q, id, n := db.questions[p.row.id], p.row.id, p.row.q.revision + 1;
            var last := p.row.q.attempt >= 3;
            var delayed := p.now + if p.row.q.attempt == 1 then 300_000 else 1_800_000;
            AckBatch(p, db, t1, t2)
            == Done(Db(db.questions[id := Question(if last then TriageFailed else Received, q.attempt, q.leaseId, q.leaseOwner, None,
                                                   if last then None
                                                   else Some(if p.row.q.claimedAt.Some?
                                                             then Earlier(delayed, p.row.q.claimedAt.value + 86_400_000) else delayed),
                                                   q.claimedAt, n, p.row.q.verdict, p.row.q.explorationId, q.accountSub, q.expiresAt)],
                       if last && id in db.sidecars then db.sidecars[id := ResultFor(db, id, ResultFailed, None, n, p.now)]
                       else db.sidecars,
                       Kept(db, p.op, t2), db.snapshot, db.requests, db.links, db.jobs),
                    Some(true))
  {
    hide FirstGuard, Crossed, AckBatch, Prepared;
    CompletedBatch(p, Fails, db, t1, t2);
  }

  /** An arrivals question is queued for its request, which is linked and has its job. */
  lemma ArrivalsAnswer(p: Plan, verdict: string, requestId: string, db: Db, t1: int, t2: int)
    requires Completes(p, Arrivals(verdict, requestId), db, t1, t2)
    ensures var q, id, n := db.questions[p.row.id], p.row.id, p.row.q.revision + 2;
            AckBatch(p, db, t1, t2)
            == Done(Db(db.questions[id := Question(Queued, q.attempt, q.leaseId, q.leaseOwner, None, None, q.claimedAt, n, Some(verdict),
                                                   Some(requestId), q.accountSub, q.expiresAt)],
                       db.sidecars, Kept(db, p.op, t2), db.snapshot,
                       db.requests + {requestId}, db.links + {(requestId, p.row.q.accountSub)}, db.jobs + {requestId + "\njob"}),
                    Some(true))
  {
    hide FirstGuard, Crossed, AckBatch, Prepared;
    CompletedBatch(p, Arrivals(verdict, requestId), db, t1, t2);
  }

  /** A question answered from cells is filled, partly filled, or has no data. */
  lemma CellsAnswer(p: Plan, verdict: string, total: nat, available: nat, db: Db, t1: int, t2: int)
    requires Completes(p, Cells(verdict, total, available), db, t1, t2)
    ensures var q, id, n := db.questions[p.row.id], p.row.id, p.row.q.revision + 2;
            var status := if total > 0 && available == total then Filled else if total > 0 && available > 0 then Partial else NoData;
            AckBatch(p, db, t1, t2)
            == Done(Db(db.questions[id := Question(status, q.attempt, q.leaseId, q.leaseOwner, None, None, q.claimedAt, n, Some(verdict),
                                                   p.row.q.explorationId, q.accountSub, q.expiresAt)],
                       db.sidecars, Kept(db, p.op, t2), db.snapshot, db.requests, db.links, db.jobs),
                    Some(true))
  {
    hide FirstGuard, Crossed, AckBatch, Prepared;
    CompletedBatch(p, Cells(verdict, total, available), db, t1, t2);
  }

  /** The claim of this lease on record, for the same question, revision, digest and snapshot. */
  predicate OnRecord(db: Db, q: Question, id: string, digest: string, snapshotId: string, t: int) {
    exists k | k in db.operations ::
      && k.kind == ClaimOp && q.leaseOwner == Some(k.service) && q.leaseId == Some(db.operations[k].leaseId)
      && t < db.operations[k].expiresAt && db.operations[k].receipt.Some?
      && var r := db.operations[k].receipt.value;
      && r.requestId == id && r.appliedRevision == q.revision && r.catalogDigest == digest && r.snapshotId == snapshotId
  }

  /** What the acknowledgement's first statement asks of the database at its own time. */
  predicate AckMayLand(protocol: Protocol, db: Db, row: Row, outcome: Outcome, service: string, operationId: string,
                       digest: string, snapshotId: string, now: int, t: int) {
    && row.id in db.questions
    && var q := db.questions[row.id];
    && q.status == Triaging && q.revision == row.q.revision && q.attempt == row.q.attempt
    && q.leaseId == row.q.leaseId && q.leaseOwner == row.q.leaseOwner
    && q.leaseExpiresAt.Some? && now < q.leaseExpiresAt.value && t < q.leaseExpiresAt.value && t < q.expiresAt
    && OpKey(service, AckOp, operationId) !in db.operations
    && InScopeAsRead(protocol, db, row, t)
    && match protocol
       case V1 => outcome.Mapped? && outcome.draft.snapshotId.Some? ==> db.snapshot == outcome.draft.snapshotId
       case V2 => db.snapshot == Some(snapshotId) && OnRecord(db, q, row.id, digest, snapshotId, t)
  }

  /** A proposed acknowledgement finds its first statement's guard met exactly then. */
  lemma AckGuardExactly(protocol: Protocol, db: Db, row: Row, service: string, operationId: string, body: string,
                        digest: string, snapshotId: string, lease: string, outcome: Outcome, now: int, t: int)
    ensures var d := DecideAck(protocol, row, service, operationId, body, digest, snapshotId, lease, outcome, now);
            d.Some? ==>
              (FirstGuard(d.value.p, db, t) <==> AckMayLand(protocol, db, row, outcome, service, operationId, digest, snapshotId, now, t))
  {
    var d := DecideAck(protocol, row, service, operationId, body, digest, snapshotId, lease, outcome, now);
    if d.Some? && row.id in db.questions {
      var p, q := d.value.p, db.questions[row.id];
      AckIsProposed(protocol, row, service, operationId, body, digest, snapshotId, lease, outcome, now);
      FenceWrittenOut(protocol, db, row, q, t);
      if protocol == V2 {
        assert p.op.receipt == Some(Receipt(row.id, row.Generation(), row.q.revision, p.next.revision, lease, digest, snapshotId));
        assert ClaimContext(db, q, row.id, p.op.receipt.value, t) <==> OnRecord(db, q, row.id, digest, snapshotId, t);
      }
      hide DecideAck, Fence, InScopeAsRead, Prepared, ClaimContext, OnRecord, NextQuestion, Acknowledgeable;
    }
  }

  lemma FenceWrittenOut(protocol: Protocol, db: Db, row: Row, q: Question, t: int)
    requires row.id in db.questions && db.questions[row.id] == q
    ensures Fence(protocol, db, row, q, t) <==> InScopeAsRead(protocol, db, row, t)
  {
  }

  // ---------------------------------------------------------------- sweeps

  /** A sweep's own selection. */
  predicate Selected(protocol: Protocol, row: Row, sweep: Sweep, now: int) {
    match sweep
    case ExpiredLease => row.q.status == Triaging && row.q.leaseExpiresAt.Some? && row.q.leaseExpiresAt.value <= now
    case LeftTriaged(_, _) => protocol == V1 && row.q.status == Triaged
    case QueuedAnswered(answer) => protocol == V1 && row.q.status == Queued && (answer == Filled || answer == Partial || answer == NoData)
  }

  /** A lease left behind by a managed result that has expired. */
  predicate LeftBehind(protocol: Protocol, row: Row) {
    && protocol == V2 && row.sidecar.Some? && row.sidecar.value.state == Expired && row.sidecar.value.clarified
    && 1 <= row.sidecar.value.generation <= 3 && Marked(row.q.leaseId)
  }

  predicate InSweepScope(protocol: Protocol, row: Row, now: int) {
    match protocol
    case V1 => row.sidecar.None? && !Marked(row.q.leaseId)
    case V2 => (row.q.status == Triaging ==> Marked(row.q.leaseId)) && now < row.q.expiresAt
               && (row.sidecar.None? || Open(row.sidecar.value, now))
  }

  /** The question after its sweep. */
  function SweptRow(q: Question, sweep: Sweep, now: int): Question {
    match sweep
    case ExpiredLease =>
      var delayed := now + if q.attempt == 1 then 300_000 else 1_800_000;
      if q.attempt >= 3 then
        Question(TriageFailed, q.attempt, q.leaseId, q.leaseOwner, None, None, q.claimedAt, q.revision + 1, q.verdict, q.explorationId,
                 q.accountSub, q.expiresAt)
      else
        Question(Received, q.attempt, q.leaseId, q.leaseOwner, None,
                 Some(if q.claimedAt.Some? then Earlier(delayed, q.claimedAt.value + 86_400_000) else delayed),
                 q.claimedAt, q.revision + 1, q.verdict, q.explorationId, q.accountSub, q.expiresAt)
    case LeftTriaged(total, available) =>
      q.(status := if total > 0 && available == total then Filled else if total > 0 && available > 0 then Partial else NoData,
         revision := q.revision + 1)
    case QueuedAnswered(answer) => q.(status := answer, revision := q.revision + 1)
  }

  /** When a sweep takes a question on, and what it plans. */
  lemma SweepAnswers(protocol: Protocol, row: Row, sweep: Sweep, now: int)
    ensures DecideSettle(protocol, row, sweep, now)
            == if Selected(protocol, row, sweep, now) && (InSweepScope(protocol, row, now) || (sweep.ExpiredLease? && LeftBehind(protocol, row)))
               then Some(Settling(protocol, row, SweptRow(row.q, sweep, now), now)) else None
  {
  }

  /** What the sweep's statement asks of the database at its own time. */
  predicate SweepMayLand(protocol: Protocol, db: Db, row: Row, t: int) {
    && row.id in db.questions
    && var q := db.questions[row.id];
    && q.status == row.q.status && q.revision == row.q.revision && q.attempt == row.q.attempt && q.accountSub == row.q.accountSub
    && q.leaseId == row.q.leaseId && q.leaseOwner == row.q.leaseOwner
    && (q.status == Triaging ==> q.leaseExpiresAt.Some? && q.leaseExpiresAt.value <= t)
    && if protocol == V2 && row.sidecar.Some? && row.sidecar.value.state == Expired then
         && row.id in db.sidecars && q.status == Triaging && Marked(q.leaseId)
         && var s := db.sidecars[row.id];
         && s.state == Expired && 1 <= s.generation <= 3 && s.clarified && s.requestRevision <= q.revision && s.expiresAt == q.expiresAt
         && s.generation == row.sidecar.value.generation && s.revision == row.sidecar.value.revision
       else InScopeAsRead(protocol, db, row, t)
  }

  /** A planned sweep lands exactly under these conditions, and takes the result of an open
      managed question that failed for good with it; else nothing changes. */
  lemma SweepLandsExactly(protocol: Protocol, db: Db, row: Row, sweep: Sweep, now: int, t: int)
    requires Selected(protocol, row, sweep, now) && (InSweepScope(protocol, row, now) || (sweep.ExpiredLease? && LeftBehind(protocol, row)))
    ensures SettleBatch(protocol, row, SweptRow(row.q, sweep, now), now, db, t)
            == if SweepMayLand(protocol, db, row, t) then
                 var q, next := db.questions[row.id], SweptRow(row.q, sweep, now);
                 var failed := next.status == TriageFailed && row.sidecar.Some? && row.sidecar.value.state == InTriage;
                 Done(db.(questions := db.questions[row.id := q.(status := next.status, leaseExpiresAt := next.leaseExpiresAt,
                                                                 retryAfter := next.retryAfter, revision := row.q.revision + 1)],
                          sidecars := if failed then db.sidecars[row.id := ResultFor(db, row.id, ResultFailed, None, row.q.revision + 1, now)]
                                      else db.sidecars),
                      Some(true))
               else Done(db, Some(false))
  {
    if row.id in db.questions {
      FenceWrittenOut(protocol, db, row, db.questions[row.id], t);
    }
    hide Fence, InScopeAsRead;
  }

  // ---------------------------------------------------------------- the machine

  /** A call's two steps with nothing in between: it reads the question with its result,
      decides, and its batch does what the store's batch does; the call is then over. */
  lemma UndisturbedBatch(w: World, c: nat, e: Event, t1: int, t2: int)
    requires e.BeginClaim? || e.BeginAck? || e.BeginSettle?
    requires e.c == c && e.id in w.db.questions
    ensures var row := Row(e.id, w.db.questions[e.id], if e.id in w.db.sidecars then Some(w.db.sidecars[e.id]) else None);
            var d := match e
                     case BeginClaim(_, protocol, _, service, operationId, body, digest, snapshotId, random, now) =>
                       DecideClaim(protocol, row, service, operationId, body, digest, snapshotId,
                                   if protocol == V2 then "q2:" + random else random, now)
                     case BeginAck(_, protocol, _, service, operationId, body, digest, snapshotId, lease, outcome, now) =>
                       DecideAck(protocol, row, service, operationId, body, digest, snapshotId, lease, outcome, now)
                     case BeginSettle(_, protocol, _, sweep, now) => DecideSettle(protocol, row, sweep, now);
            var begun := Step(w, e);
            && (d.None? ==> begun == w)
            && (d.Some? ==>
                  && begun == w.(calls := w.calls[c := d.value])
                  && (d.value.Claiming? ==> d.value.next.claimedAt.Some? && d.value.next.leaseExpiresAt.Some?)
                  && Step(begun, RunBatch(c, t1, t2)).calls == w.calls - {c}
                  && Step(begun, RunBatch(c, t1, t2)).db
                     == match d.value
                        case Claiming(protocol, read, next, op) => ClaimBatch(protocol, read, next, op, w.db, t1).db
                        case Acking(p, _) => AckBatch(p, w.db, t1, t2).db
                        case Settling(protocol, read, next, now) => SettleBatch(protocol, read, next, now, w.db, t1).db)
  {
    hide DecideClaim, DecideAck, DecideSettle, ClaimBatch, AckBatch, SettleBatch;
    var row := ReadRow(w.db, e.id);
    match e
    case BeginClaim(_, protocol, _, service, operationId, body, digest, snapshotId, random, now) =>
      ClaimAnswers(protocol, row, service, operationId, body, digest, snapshotId, LeaseFor(protocol, random), now);
      hide Claimable, ReceiptFor;
      var d := DecideClaim(protocol, row, service, operationId, body, digest, snapshotId, LeaseFor(protocol, random), now);
      if d.Some? { RunsItsBatch(w, c, d.value, t1, t2); }
    case BeginAck(_, protocol, _, service, operationId, body, digest, snapshotId, lease, outcome, now) =>
      AckIsProposed(protocol, row, service, operationId, body, digest, snapshotId, lease, outcome, now);
      hide Prepared, Acknowledgeable, ReceiptFor;
      var d := DecideAck(protocol, row, service, operationId, body, digest, snapshotId, lease, outcome, now);
      if d.Some? { RunsItsBatch(w, c, d.value, t1, t2); }
    case BeginSettle(_, protocol, _, sweep, now) =>
      SweepAnswers(protocol, row, sweep, now);
      hide Selected, InSweepScope, LeftBehind, SweptRow;
      var d := DecideSettle(protocol, row, sweep, now);
      if d.Some? { RunsItsBatch(w, c, d.value, t1, t2); }
  }

  lemma RunsItsBatch(w: World, c: nat, call: Call, t1: int, t2: int)
    requires ReadOf(call).id in w.db.questions
    requires call.Claiming? ==> call.next.claimedAt.Some? && call.next.leaseExpiresAt.Some?
    ensures var after := Step(w.(calls := w.calls[c := call]), RunBatch(c, t1, t2));
            && after.calls == w.calls - {c}
            && after.db == match call
                           case Claiming(protocol, read, next, op) => ClaimBatch(protocol, read, next, op, w.db, t1).db
                           case Acking(p, _) => AckBatch(p, w.db, t1, t2).db
                           case Settling(protocol, read, next, now) => SettleBatch(protocol, read, next, now, w.db, t1).db
  {
    hide ClaimBatch, AckBatch, SettleBatch;
    assert w.calls[c := call] - {c} == w.calls - {c};
  }

  /** A clarification reopens a question that was asked to clarify, three times at the most: it is
      received anew without a trace of its triage, and its result waits for triage again. */
  lemma ClarifyAnswer(w: World, id: string, now: int, t: int)
    ensures Step(w, Clarify(id, now, t))
            == if id in w.db.questions && id in w.db.sidecars
                  && (w.db.questions[id].status == Filled || w.db.questions[id].status == Partial || w.db.questions[id].status == NoData)
                  && t < w.db.questions[id].expiresAt && w.db.sidecars[id].requestRevision == w.db.questions[id].revision
                  && w.db.sidecars[id].state == ClarificationRequired && w.db.sidecars[id].generation <= 2
                  && t < w.db.sidecars[id].responseDeadline
               then
                 var q, s := w.db.questions[id], w.db.sidecars[id];
                 w.(db := w.db.(
                   questions := w.db.questions[id := Question(Received, 0, None, None, None, None, None, q.revision + 1, None, None,
                                                              q.accountSub, q.expiresAt)],
                   sidecars := w.db.sidecars[id := Sidecar(q.revision + 1, s.revision + 1, InTriage, s.generation + 1, None,
                                                           Earlier(s.expiresAt, now + 86_400_000), s.expiresAt, true)]))
               else w
  {
  }

  /** What may happen around the calls: submissions, results that other services move on,
      publications, and batches rolled back. */
  lemma OutsideSteps(w: World, e: Event)
    requires e.Submit? || e.ResultMoves? || e.Publish? || e.RolledBack?
    ensures match e
            case Submit(id, q) =>
              Step(w, e) == if id !in w.db.questions && id !in w.db.sidecars && q.status == Received && q.attempt == 0 && q.revision == 1
                               && q.leaseId == None
                            then w.(db := w.db.(questions := w.db.questions[id := q])) else w
            case ResultMoves(id, state) =>
              Step(w, e) == if id in w.db.sidecars && state != InTriage then
                              var s := w.db.sidecars[id];
                              w.(db := w.db.(sidecars := w.db.sidecars[id := Sidecar(s.requestRevision, s.revision + 1, state, s.generation, s.spec,
                                                                                     s.responseDeadline, s.expiresAt, s.clarified)]))
                            else w
            case Publish(snapshotId) => Step(w, e) == w.(db := w.db.(snapshot := Some(snapshotId)))
            case RolledBack(c) => Step(w, e) == w.(calls := w.calls - {c})
  {
  }

  /** A run is its steps, one after the other. */
  lemma RunsInOrder(w: World, events: seq<Event>, e: Event)
    ensures Run(w, []) == w && Run(w, events + [e]) == Step(Run(w, events), e)
  {
    assert (events + [e])[..|events + [e]| - 1] == events;
  }
}
