/** Triage under interleaving. A call reads a question, decides, and hands its batch to
    the store later; claims, acknowledgements, sweeps, clarifications and the result
    service run in between. A batch may also be rolled back by a constraint. */
module TriageRuns {
  import opened Options
  import opened Triage

  // ---------------------------------------------------------------- what a caller decides

  predicate Eligible(protocol: Protocol, row: Row, now: int) {
    match protocol
    case V1 => row.sidecar.None? && !SecondLease(row.q)
    case V2 =>
      && (row.q.status == Triaging ==> SecondLease(row.q))
      && row.q.expiresAt > now
      && (row.sidecar.Some? ==>
            var s := row.sidecar.value;
            1 <= s.generation <= 3 && s.state == InTriage && s.clarified && s.responseDeadline > now)
  }

  function ReadRow(db: Db, id: string): Row
    requires id in db.questions
  {
    Row(id, db.questions[id], if id in db.sidecars then Some(db.sidecars[id]) else None)
  }

  datatype Call =
    | Claiming(protocol: Protocol, read: Row, next: Question, op: Operation)
    | Acking(p: Plan, outcome: Outcome)
    | Settling(protocol: Protocol, read: Row, next: Question, now: int)

  function ReadOf(call: Call): Row {
    if call.Acking? then call.p.row else call.read
  }

  function LeaseFor(protocol: Protocol, random: string): string {
    if protocol == V2 then "q2:" + random else random
  }

  function PlannedBy(call: Call): Question {
    if call.Acking? then call.p.next else call.next
  }

  function MakeReceipt(row: Row, applied: int, lease: string, digest: string, snapshotId: string): Receipt {
    Receipt(row.id, row.Generation(), row.q.revision, applied, lease, digest, snapshotId)
  }

  function DecideClaim(protocol: Protocol, row: Row, service: string, operationId: string, body: string,
                       digest: string, snapshotId: string, lease: string, now: int): Option<Call> {
    if !Eligible(protocol, row, now) || row.q.status != Received || row.q.attempt >= 3
       || (row.q.retryAfter.Some? && row.q.retryAfter.value > now) || row.q.leaseId == Some(lease)
    then None
    else
      var next := row.q.(status := Triaging, attempt := row.q.attempt + 1, leaseId := Some(lease), leaseOwner := Some(service),
                         leaseExpiresAt := Some(now + LEASE_MS), claimedAt := Some(now), retryAfter := None,
                         revision := row.q.revision + 1);
      var receipt := if protocol == V2 then Some(MakeReceipt(row, next.revision, lease, digest, snapshotId)) else None;
      Some(Claiming(protocol, row, next, Operation(OpKey(service, ClaimOp, operationId), body, Triaging, lease, receipt, 0)))
  }

  function DecideAck(protocol: Protocol, row: Row, service: string, operationId: string, body: string,
                     digest: string, snapshotId: string, lease: string, outcome: Outcome, now: int): Option<Call> {
    if !Eligible(protocol, row, now) || !Answerable(protocol, outcome) || row.q.status != Triaging || row.q.leaseId != Some(lease)
       || row.q.leaseOwner != Some(service) || row.q.leaseExpiresAt.None? || row.q.leaseExpiresAt.value <= now
    then None
    else
      var next := NextQuestion(protocol, row, outcome, now);
      var receipt := if protocol == V2 then Some(MakeReceipt(row, next.revision, lease, digest, snapshotId)) else None;
      var op := Operation(OpKey(service, AckOp, operationId), body, next.status, lease, receipt, 0);
      Some(Acking(PlanFor(protocol, row, outcome, op, now), outcome))
  }

  datatype Sweep = ExpiredLease | LeftTriaged(total: nat, available: nat) | QueuedAnswered(answer: Status)

  function DecideSettle(protocol: Protocol, row: Row, sweep: Sweep, now: int): Option<Call> {
    var listed :=
      match sweep
      case ExpiredLease => row.q.status == Triaging && row.q.leaseExpiresAt.Some? && row.q.leaseExpiresAt.value <= now
      case LeftTriaged(_, _) => protocol == V1 && row.q.status == Triaged
      case QueuedAnswered(answer) => protocol == V1 && row.q.status == Queued && answer in {Filled, Partial, NoData};
    var cleanup := sweep.ExpiredLease? && ReadExpired(protocol, row) && SecondLease(row.q)
                   && 1 <= row.sidecar.value.generation <= 3 && row.sidecar.value.clarified;
    if !listed || !(Eligible(protocol, row, now) || cleanup) then None
    else
      Some(Settling(protocol, row,
                    match sweep
                    case ExpiredLease => FailedQuestion(row.q, now)
                    case LeftTriaged(total, available) =>
                      row.q.(status := CellStatus(total, available), revision := row.q.revision + 1)
                    case QueuedAnswered(answer) => row.q.(status := answer, revision := row.q.revision + 1),
                    now))
  }

  // ---------------------------------------------------------------- the machine

  /** One batch that changed a question: what its caller had read, what was stored, what
      the caller planned, what is stored now, and the operation recorded with it. */
  datatype Transition = Transition(read: Row, pre: Row, planned: Question, post: Question, claim: bool, op: Option<Operation>)

  datatype World = World(db: Db, calls: map<nat, Call>, log: seq<Transition>)

  datatype Event =
    | Submit(id: string, q: Question)
    | BeginClaim(c: nat, protocol: Protocol, id: string, service: string, operationId: string, body: string,
                 digest: string, snapshotId: string, random: string, now: int)
    | BeginAck(c: nat, protocol: Protocol, id: string, service: string, operationId: string, body: string,
               digest: string, snapshotId: string, lease: string, outcome: Outcome, now: int)
    | BeginSettle(c: nat, protocol: Protocol, id: string, sweep: Sweep, now: int)
    | RunBatch(c: nat, t1: int, t2: int)
    | RolledBack(c: nat)
    | Clarify(id: string, now: int, t: int)
    | ResultMoves(id: string, state: ResultState)
    | Publish(snapshotId: string)

  function Begin(w: World, c: nat, call: Option<Call>): World {
    if call.Some? then w.(calls := w.calls[c := call.value]) else w
  }

  function BatchDone(db: Db, call: Call, t1: int, t2: int): Done
    requires call.Claiming? ==> call.next.claimedAt.Some? && call.next.leaseExpiresAt.Some?
  {
    match call
    case Claiming(protocol, read, next, op) => ClaimBatch(protocol, read, next, op, db, t1)
    case Acking(p, _) => AckBatch(p, db, t1, t2)
    case Settling(protocol, read, next, now) => SettleBatch(protocol, read, next, now, db, t1)
  }

  function Recorded(db: Db, after: Db, call: Call): Option<Operation> {
    match call
    case Claiming(_, _, _, op) => if op.key in after.operations then Some(after.operations[op.key]) else None
    case Acking(p, _) =>
      if p.op.key in after.operations && p.op.key !in db.operations then Some(after.operations[p.op.key]) else None
    case Settling(_, _, _, _) => None
  }

  function RunBatchStep(w: World, c: nat, t1: int, t2: int): World {
    if c !in w.calls then w
    else
      var call := w.calls[c];
      var id := ReadOf(call).id;
      if id !in w.db.questions || (call.Claiming? && (call.next.claimedAt.None? || call.next.leaseExpiresAt.None?)) then w
      else
        var done := BatchDone(w.db, call, t1, t2);
        var rest := w.calls - {c};
        if done.accepted == Some(true) && id in done.db.questions then
          World(done.db, rest, w.log + [Transition(ReadOf(call), ReadRow(w.db, id), PlannedBy(call), done.db.questions[id],
                                                   call.Claiming?, Recorded(w.db, done.db, call))])
        else World(done.db, rest, w.log)
  }

  predicate CanClarify(db: Db, id: string, t: int) {
    && id in db.questions && id in db.sidecars
    && db.questions[id].status in {Filled, Partial, NoData} && db.questions[id].expiresAt > t
    && db.sidecars[id].requestRevision == db.questions[id].revision
    && db.sidecars[id].state == ClarificationRequired && db.sidecars[id].generation < 3
    && db.sidecars[id].responseDeadline > t
  }

  function Clarified(db: Db, id: string, now: int): Db
    requires id in db.questions && id in db.sidecars
  {
    var q := db.questions[id];
    var s := db.sidecars[id];
    db.(questions := db.questions[id := q.(
          status := Received, attempt := 0, verdict := None, explorationId := None, leaseId := None, leaseOwner := None,
          leaseExpiresAt := None, claimedAt := None, retryAfter := None, revision := q.revision + 1)],
        sidecars := db.sidecars[id := s.(
          state := InTriage, requestRevision := q.revision + 1, generation := s.generation + 1, spec := None,
          responseDeadline := Min(s.expiresAt, now + DAY_MS), revision := s.revision + 1, clarified := true)])
  }

  /** Another service moves the result on; only a clarification reopens it for triage. */
  function ResultMoved(db: Db, id: string, state: ResultState): Db
    requires id in db.sidecars
  {
    db.(sidecars := db.sidecars[id := db.sidecars[id].(state := state, revision := db.sidecars[id].revision + 1)])
  }

  function Step(w: World, e: Event): World {
    match e
    case Submit(id, q) =>
      if id in w.db.questions || id in w.db.sidecars || q.status != Received || q.attempt != 0 || q.revision != 1 || q.leaseId.Some? then w
      else w.(db := PutQuestion(w.db, id, q))
    case BeginClaim(c, protocol, id, service, operationId, body, digest, snapshotId, random, now) =>
      if id !in w.db.questions then w
      else Begin(w, c, DecideClaim(protocol, ReadRow(w.db, id), service, operationId, body, digest, snapshotId,
                                   LeaseFor(protocol, random), now))
    case BeginAck(c, protocol, id, service, operationId, body, digest, snapshotId, lease, outcome, now) =>
      if id !in w.db.questions then w
      else Begin(w, c, DecideAck(protocol, ReadRow(w.db, id), service, operationId, body, digest, snapshotId, lease, outcome, now))
    case BeginSettle(c, protocol, id, sweep, now) =>
      if id !in w.db.questions then w else Begin(w, c, DecideSettle(protocol, ReadRow(w.db, id), sweep, now))
    case RunBatch(c, t1, t2) => RunBatchStep(w, c, t1, t2)
    case RolledBack(c) => w.(calls := w.calls - {c})
    case Clarify(id, now, t) => if CanClarify(w.db, id, t) then w.(db := Clarified(w.db, id, now)) else w
    case ResultMoves(id, state) =>
      if id !in w.db.sidecars || state == InTriage then w else w.(db := ResultMoved(w.db, id, state))
    case Publish(snapshotId) => w.(db := w.db.(snapshot := Some(snapshotId)))
  }

  function Run(w: World, events: seq<Event>): World {
    if events == [] then w else Step(Run(w, events[..|events| - 1]), events[|events| - 1])
  }

  const EMPTY := World(Db(map[], map[], map[], None, {}, {}, {}), map[], [])
}
