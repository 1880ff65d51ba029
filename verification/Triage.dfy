/** The question triage store: a claim or an acknowledgement is a batch of SQL statements
    in one transaction, each later statement guarded by the row count of the one before.
    Times are whole seconds in milliseconds. A body stands for its digest. */
module Triage {
  import opened Options

  datatype Status = Received | Triaging | Triaged | Queued | Filled | Partial | NoData | Junk | TriageFailed

  datatype Question = Question(
    status: Status, attempt: int, leaseId: Option<string>, leaseOwner: Option<string>,
    leaseExpiresAt: Option<int>, retryAfter: Option<int>, claimedAt: Option<int>,
    revision: int, verdict: Option<string>, explorationId: Option<string>,
    accountSub: string, expiresAt: int)

  datatype ResultState =
    | InTriage | ClarificationRequired | ConfirmationRequired | Building | InReview
    | Released | Unsupported | Unavailable | ResultFailed | Expired | Stale

  /** The managed result of a question, joined with its latest clarification:
      `clarified` says that the clarification names this generation and parent revision. */
  datatype Sidecar = Sidecar(
    requestRevision: int, revision: int, state: ResultState, generation: int, spec: Option<string>,
    responseDeadline: int, expiresAt: int, clarified: bool)

  datatype OpType = ClaimOp | AckOp
  datatype OpKey = OpKey(service: string, kind: OpType, operationId: string)
  datatype Receipt = Receipt(
    requestId: string, generation: int, inputRevision: int, appliedRevision: int,
    leaseId: string, catalogDigest: string, snapshotId: string)
  datatype Operation = Operation(
    key: OpKey, body: string, status: Status, leaseId: string, receipt: Option<Receipt>, expiresAt: int)

  datatype Db = Db(
    questions: map<string, Question>, sidecars: map<string, Sidecar>, operations: map<OpKey, Operation>,
    snapshot: Option<string>,
    requests: set<string>, links: set<(string, string)>, jobs: set<string>)

  /** A question as the store reads it: the row and its result, if it has one. */
  datatype Row = Row(id: string, q: Question, sidecar: Option<Sidecar>) {
    function Generation(): int { if sidecar.Some? then sidecar.value.generation else 0 }
    function ResultRevision(): int { if sidecar.Some? then sidecar.value.revision else 0 }
  }

  datatype Protocol = V1 | V2

  const LEASE_MS := 900_000
  const DAY_MS := 86_400_000
  const OPERATION_MS := 2_592_000_000

  // ---------------------------------------------------------------- scopes and fences

  predicate SecondLease(q: Question) {
    q.leaseId.Some? && |q.leaseId.value| >= 3 && q.leaseId.value[..3] == "q2:"
  }

  /** A sidecar that a second-protocol batch may work under, at database time `t`. */
  predicate Active(s: Sidecar, q: Question, t: int) {
    && s.state == InTriage && 1 <= s.generation <= 3 && s.clarified
    && q.revision >= s.requestRevision && s.responseDeadline > t
  }

  predicate InScope(protocol: Protocol, db: Db, id: string, q: Question, t: int) {
    match protocol
    case V1 => id !in db.sidecars && !SecondLease(q)
    case V2 =>
      && (q.status != Triaging || SecondLease(q))
      && (id in db.sidecars ==> Active(db.sidecars[id], q, t))
  }

  function Generation(db: Db, id: string): int {
    if id in db.sidecars then db.sidecars[id].generation else 0
  }

  function ResultRevision(db: Db, id: string): int {
    if id in db.sidecars then db.sidecars[id].revision else 0
  }

  predicate Fence(protocol: Protocol, db: Db, row: Row, q: Question, t: int) {
    && InScope(protocol, db, row.id, q, t)
    && (protocol == V2 ==> Generation(db, row.id) == row.Generation() && ResultRevision(db, row.id) == row.ResultRevision())
  }

  // ---------------------------------------------------------------- the acknowledgement's plan

  /** The states an answer may map a question to. */
  type AnswerState = s: ResultState
    | s in {ConfirmationRequired, ClarificationRequired, Unsupported, Unavailable, ResultFailed} witness Unsupported

  datatype Draft = Draft(state: AnswerState, spec: Option<string>, snapshotId: Option<string>)
  datatype Admission = Admission(requestId: string, jobId: string, accountSub: string)
  /** Everything the handler hands to the store. `now` is the worker's clock. */
  datatype Plan = Plan(
    protocol: Protocol, row: Row, next: Question, op: Operation,
    admission: Option<Admission>, draft: Option<Draft>, now: int)

  /** Statuses that settle through an intermediate `triaged` update. */
  predicate ViaTriaged(status: Status) {
    status in {Queued, Filled, Partial, NoData}
  }

  datatype Outcome =
    | Fails
    | Irrelevant(verdict: string)
    | Mapped(verdict: string, draft: Draft)
    | Arrivals(verdict: string, requestId: string)
    | Cells(verdict: string, total: nat, available: nat)

  /** The second protocol always maps a relevant verdict to an answer. */
  predicate Answerable(protocol: Protocol, outcome: Outcome) {
    protocol == V2 ==> !outcome.Arrivals? && !outcome.Cells?
  }

  /** A request's one job: its name is the digest of the request's with a fixed suffix. */
  function JobFor(requestId: string): string {
    requestId + "\njob"
  }

  function RetryDelayMs(attempt: int): int {
    if attempt == 1 then 300_000 else 1_800_000
  }

  function Min(a: int, b: int): int {
    if a <= b then a else b
  }

  function FailedQuestion(q: Question, now: int): Question {
    if q.attempt >= 3 then q.(status := TriageFailed, retryAfter := None, leaseExpiresAt := None, revision := q.revision + 1)
    else
      var retry := now + RetryDelayMs(q.attempt);
      q.(status := Received, leaseExpiresAt := None, revision := q.revision + 1,
         retryAfter := Some(if q.claimedAt.Some? then Min(retry, q.claimedAt.value + DAY_MS) else retry))
  }

  function CellStatus(total: nat, available: nat): Status {
    if total == 0 || available == 0 then NoData else if available == total then Filled else Partial
  }

  function Settled(q: Question, status: Status, verdict: string, steps: int): Question {
    q.(status := status, verdict := Some(verdict), leaseExpiresAt := None, retryAfter := None,
       revision := q.revision + steps)
  }

  function NextQuestion(protocol: Protocol, row: Row, outcome: Outcome, now: int): Question {
    match outcome
    case Fails => FailedQuestion(row.q, now)
    case Irrelevant(v) => Settled(row.q, Junk, v, 1)
    case Mapped(v, _) =>
      var draft := DraftFor(protocol, row, outcome, now).value;
      Settled(row.q, if draft.state == ConfirmationRequired then Filled else NoData, v, 2).(explorationId := None)
    case Arrivals(v, requestId) => Settled(row.q, Queued, v, 2).(explorationId := Some(requestId))
    case Cells(v, total, available) => Settled(row.q, CellStatus(total, available), v, 2)
  }

  function DraftFor(protocol: Protocol, row: Row, outcome: Outcome, now: int): (d: Option<Draft>)
    ensures outcome.Mapped? ==> d.Some?
  {
    var managed := protocol == V2 && row.sidecar.Some?;
    match outcome
    case Fails =>
      if managed && FailedQuestion(row.q, now).status == TriageFailed then Some(Draft(ResultFailed, None, None)) else None
    case Irrelevant(_) => if managed then Some(Draft(Unsupported, None, None)) else None
    case Mapped(_, draft) =>
      if protocol == V2 && row.Generation() >= 3 && draft.state == ClarificationRequired
      then Some(Draft(Unsupported, None, None)) else Some(draft)
    case Arrivals(_, _) => None
    case Cells(_, _, _) => None
  }

  function PlanFor(protocol: Protocol, row: Row, outcome: Outcome, op: Operation, now: int): Plan {
    Plan(protocol, row, NextQuestion(protocol, row, outcome, now), op,
         match outcome
         case Arrivals(_, requestId) => Some(Admission(requestId, JobFor(requestId), row.q.accountSub))
         case Fails => None case Irrelevant(_) => None case Mapped(_, _) => None case Cells(_, _, _) => None,
         DraftFor(protocol, row, outcome, now), now)
  }

  // ---------------------------------------------------------------- the statements

  /** A transaction in progress: the database and changes() of the last statement. */
  datatype Tx = Tx(db: Db, changes: nat)

  function PutQuestion(db: Db, id: string, q: Question): Db {
    db.(questions := db.questions[id := q])
  }

  /** The claim receipt that a second-protocol acknowledgement must find. */
  predicate ClaimContext(db: Db, q: Question, id: string, r: Receipt, t: int) {
    exists k | k in db.operations ::
      var c := db.operations[k];
      && k.kind == ClaimOp && q.leaseOwner == Some(k.service) && q.leaseId == Some(c.leaseId) && c.expiresAt > t
      && c.receipt.Some? && c.receipt.value.requestId == id && c.receipt.value.appliedRevision == q.revision
      && c.receipt.value.catalogDigest == r.catalogDigest && c.receipt.value.snapshotId == r.snapshotId
  }

  predicate ContextHolds(p: Plan, db: Db, q: Question, t: int) {
    match p.protocol
    case V2 => p.op.receipt.Some? && db.snapshot == Some(p.op.receipt.value.snapshotId)
               && ClaimContext(db, q, p.row.id, p.op.receipt.value, t)
    case V1 => p.draft.Some? && p.draft.value.snapshotId.Some? ==> db.snapshot == p.draft.value.snapshotId
  }

  /** WHERE of the first UPDATE, at database time `t`. */
  predicate FirstGuard(p: Plan, db: Db, t: int) {
    && p.row.id in db.questions
    && var q := db.questions[p.row.id];
    && q.status == Triaging && q.revision == p.row.q.revision && q.attempt == p.row.q.attempt
    && q.leaseId.Some? && q.leaseId == p.row.q.leaseId && q.leaseOwner.Some? && q.leaseOwner == p.row.q.leaseOwner
    && q.leaseExpiresAt.Some? && q.leaseExpiresAt.value > p.now && q.leaseExpiresAt.value > t
    && q.expiresAt > t
    && OpKey(p.op.key.service, AckOp, p.op.key.operationId) !in db.operations
    && Fence(p.protocol, db, p.row, q, t)
    && ContextHolds(p, db, q, t)
  }

  function MarkTriaged(p: Plan, tx: Tx, t: int): Tx {
    if !FirstGuard(p, tx.db, t) then tx.(changes := 0)
    else
      var q := tx.db.questions[p.row.id];
      Tx(PutQuestion(tx.db, p.row.id,
                     q.(status := Triaged, verdict := p.next.verdict, leaseExpiresAt := None, retryAfter := None,
                        revision := p.row.q.revision + 1)), 1)
  }

  predicate FinishGuard(p: Plan, tx: Tx, t: int) {
    && tx.changes == 1
    && p.row.id in tx.db.questions
    && var q := tx.db.questions[p.row.id];
    && q.status == Triaged && q.revision == p.row.q.revision + 1 && q.attempt == p.row.q.attempt
    && q.leaseId.Some? && q.leaseId == p.row.q.leaseId && q.leaseOwner.Some? && q.leaseOwner == p.row.q.leaseOwner
    && Fence(p.protocol, tx.db, p.row, q, t)
  }

  function FinishTriaged(p: Plan, tx: Tx, t: int): Tx {
    if !FinishGuard(p, tx, t) then tx.(changes := 0)
    else
      var q := tx.db.questions[p.row.id];
      Tx(PutQuestion(tx.db, p.row.id,
                     q.(status := p.next.status, explorationId := p.next.explorationId, revision := p.next.revision)), 1)
  }

  function SettleDirectly(p: Plan, tx: Tx, t: int): Tx {
    if !FirstGuard(p, tx.db, t) then tx.(changes := 0)
    else
      var q := tx.db.questions[p.row.id];
      Tx(PutQuestion(tx.db, p.row.id,
                     q.(status := p.next.status, verdict := p.next.verdict, explorationId := p.next.explorationId,
                        leaseExpiresAt := None, retryAfter := p.next.retryAfter, revision := p.next.revision)), 1)
  }

  /** The question is in the state the batch has just given it. */
  predicate ParentSettled(id: string, next: Question, db: Db) {
    id in db.questions && db.questions[id].revision == next.revision && db.questions[id].status == next.status
  }

  function RemappedSidecar(next: Question, draft: Draft, now: int, s: Sidecar): Sidecar {
    s.(requestRevision := next.revision, state := draft.state, spec := draft.spec,
       responseDeadline := Min(s.expiresAt, now + DAY_MS), revision := s.revision + 1,
       clarified := s.clarified && next.revision == s.requestRevision)
  }

  function NewSidecar(q: Question, draft: Draft, now: int): Sidecar {
    Sidecar(q.revision, 1, draft.state, 0, draft.spec, Min(q.expiresAt, now + DAY_MS), q.expiresAt, false)
  }

  /** Update the managed result, or insert the first one; an existing one is never replaced. */
  function Remap(row: Row, next: Question, draft: Draft, now: int, tx: Tx): Tx {
    var id := row.id;
    if row.sidecar.Some? then
      if tx.changes == 1 && id in tx.db.sidecars && tx.db.sidecars[id].revision == row.ResultRevision()
         && tx.db.sidecars[id].generation == row.Generation() && tx.db.sidecars[id].state == InTriage
         && ParentSettled(id, next, tx.db)
      then Tx(tx.db.(sidecars := tx.db.sidecars[id := RemappedSidecar(next, draft, now, tx.db.sidecars[id])]), 1)
      else tx.(changes := 0)
    else
      if tx.changes == 1 && ParentSettled(id, next, tx.db) && id !in tx.db.sidecars
      then Tx(tx.db.(sidecars := tx.db.sidecars[id := NewSidecar(tx.db.questions[id], draft, now)]), 1)
      else tx.(changes := 0)
  }

  function InsertReceipt(op: Operation, tx: Tx, t: int): Tx {
    if tx.changes == 1 then Tx(tx.db.(operations := tx.db.operations[op.key := op.(expiresAt := t + OPERATION_MS)]), 1)
    else tx.(changes := 0)
  }

  predicate QueuedFor(db: Db, id: string, requestId: string) {
    id in db.questions && db.questions[id].status == Queued && db.questions[id].explorationId == Some(requestId)
  }

  /** The admission tail: only its first insert depends on the batch having changed
      anything. A link without its shared request is a foreign-key abort. */
  function Admit(p: Plan, a: Admission, tx: Tx): Option<Db> {
    var requests := if tx.changes == 1 then tx.db.requests + {a.requestId} else tx.db.requests;
    var linkDue := QueuedFor(tx.db, p.row.id, a.requestId);
    var link := (a.requestId, a.accountSub);
    if linkDue && link !in tx.db.links && a.requestId !in requests then None
    else
      var links := if linkDue then tx.db.links + {link} else tx.db.links;
      Some(tx.db.(requests := requests, links := links,
                  jobs := if link in links then tx.db.jobs + {a.jobId} else tx.db.jobs))
  }

  /** What an acknowledgement's batch does: `accepted` is what the handler is told,
      `None` is a storage error with everything rolled back. Statement i reads the
      database clock as clocks[i]. */
  datatype Done = Done(db: Db, accepted: Option<bool>)

  function SettleStatements(p: Plan, db: Db, t1: int, t2: int): Tx {
    if ViaTriaged(p.next.status) then FinishTriaged(p, MarkTriaged(p, Tx(db, 0), t1), t2)
    else SettleDirectly(p, Tx(db, 0), t1)
  }

  function AckBatch(p: Plan, db: Db, t1: int, t2: int): Done {
    if p.protocol == V2 && p.op.receipt.None? then Done(db, Some(false))
    else
      var settled := SettleStatements(p, db, t1, t2);
      var mapped := if p.draft.Some? then Remap(p.row, p.next, p.draft.value, p.now, settled) else settled;
      var receipted := InsertReceipt(p.op, mapped, t2);
      if p.admission.None? then Done(receipted.db, Some(FirstGuard(p, db, t1)))
      else
        var admitted := Admit(p, p.admission.value, receipted);
        if admitted.None? then Done(db, None) else Done(admitted.value, Some(FirstGuard(p, db, t1)))
  }

  // ---------------------------------------------------------------- claims

  predicate ClaimGuard(protocol: Protocol, row: Row, next: Question, op: Operation, db: Db, t: int)
    requires next.claimedAt.Some? && next.leaseExpiresAt.Some?
  {
    && row.id in db.questions
    && var q := db.questions[row.id];
    && q.status == row.q.status && q.revision == row.q.revision && q.attempt == row.q.attempt
    && q.expiresAt > t
    && (q.retryAfter.Some? ==> q.retryAfter.value <= next.claimedAt.value)
    && t < next.leaseExpiresAt.value <= t + LEASE_MS
    && OpKey(op.key.service, ClaimOp, op.key.operationId) !in db.operations
    && Fence(protocol, db, row, q, t)
    && (protocol == V2 ==> op.receipt.Some? && db.snapshot == Some(op.receipt.value.snapshotId))
  }

  function ClaimedQuestion(q: Question, next: Question): Question {
    q.(status := next.status, attempt := next.attempt, leaseId := next.leaseId, leaseOwner := next.leaseOwner,
       leaseExpiresAt := next.leaseExpiresAt, claimedAt := next.claimedAt, retryAfter := None, revision := next.revision)
  }

  function ClaimBatch(protocol: Protocol, row: Row, next: Question, op: Operation, db: Db, t: int): Done
    requires next.claimedAt.Some? && next.leaseExpiresAt.Some?
  {
    if protocol == V2 && op.receipt.None? then Done(db, Some(false))
    else if !ClaimGuard(protocol, row, next, op, db, t) then Done(db, Some(false))
    else
      var updated := Tx(PutQuestion(db, row.id, ClaimedQuestion(db.questions[row.id], next)), 1);
      Done(InsertReceipt(op, updated, t).db, Some(true))
  }

  // ---------------------------------------------------------------- sweeps

  /** A lease whose managed result has already expired may still be cleaned up. */
  predicate ExpiredManaged(db: Db, id: string, q: Question) {
    && q.status == Triaging && SecondLease(q) && id in db.sidecars
    && var s := db.sidecars[id];
    && s.state == Expired && 1 <= s.generation <= 3 && s.clarified
    && q.revision >= s.requestRevision && s.expiresAt == q.expiresAt
  }

  predicate ReadExpired(protocol: Protocol, row: Row) {
    protocol == V2 && row.sidecar.Some? && row.sidecar.value.state == Expired
  }

  predicate SettleFence(protocol: Protocol, db: Db, row: Row, q: Question, t: int) {
    if ReadExpired(protocol, row) then
      && ExpiredManaged(db, row.id, q)
      && Generation(db, row.id) == row.Generation() && ResultRevision(db, row.id) == row.ResultRevision()
    else Fence(protocol, db, row, q, t)
  }

  predicate SettleGuard(protocol: Protocol, row: Row, db: Db, t: int) {
    && row.id in db.questions
    && var q := db.questions[row.id];
    && q.status == row.q.status && q.revision == row.q.revision && q.leaseId == row.q.leaseId
    && q.leaseOwner == row.q.leaseOwner && q.accountSub == row.q.accountSub && q.attempt == row.q.attempt
    && (q.status == Triaging ==> q.leaseExpiresAt.Some? && q.leaseExpiresAt.value <= t)
    && SettleFence(protocol, db, row, q, t)
  }

  function SweptQuestion(q: Question, next: Question): Question {
    q.(status := next.status, leaseExpiresAt := next.leaseExpiresAt, retryAfter := next.retryAfter, revision := next.revision)
  }

  const FAILED_DRAFT := Draft(ResultFailed, None, None)

  /** A managed question out of attempts also fails its result, in the same batch. */
  function SettleBatch(protocol: Protocol, row: Row, next: Question, now: int, db: Db, t: int): Done {
    if !SettleGuard(protocol, row, db, t) then Done(db, Some(false))
    else
      var updated := Tx(PutQuestion(db, row.id, SweptQuestion(db.questions[row.id], next)), 1);
      if protocol == V2 && row.sidecar.Some? && next.status == TriageFailed && !ReadExpired(protocol, row) then
        Done(Remap(row, next, FAILED_DRAFT, now, updated).db, Some(true))
      else Done(updated.db, Some(true))
  }
}
