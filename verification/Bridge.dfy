/** The arrival-manager job bridge: jobs move queued -> running -> failed or published
    behind a compare-and-set store. Times are milliseconds. A request body stands for
    its SHA-256 digest, which is taken to be injective. */
module Bridge {
  import opened Options

  const MAX_ATTEMPTS := 3
  const LEASE_MS := 900_000
  const RETRY_WINDOW_MS := 86_400_000

  datatype Status = Queued | Running | Failed | Published
  datatype AckReason = SourceUnavailable | ValidationFailed | PublicationFailed
  datatype Failure = Reported(reason: AckReason) | LeaseExpired | AttemptsExhausted
  datatype Publication = Publication(references: seq<string>, loadedAt: int)

  datatype Job = Job(
    jobId: string, request: string, status: Status, attempt: int,
    leaseId: Option<string>, leaseExpiresAt: Option<int>, retryAfter: Option<int>,
    failure: Option<Failure>, publication: Option<Publication>)
  /** The store's record: the wire job and the fields that never leave the server. */
  datatype StoredJob = StoredJob(job: Job, admittedAt: int, leaseOwner: Option<string>, revision: int)

  datatype ClaimBody = ClaimBody(jobId: string, expectedAttempt: int, operationId: string)
  datatype AckOutcome = AckFailed(reason: AckReason) | AckPublished(publication: Publication)
  datatype AckBody = AckBody(jobId: string, attempt: int, leaseId: string, operationId: string, outcome: AckOutcome)
  datatype Body = ClaimPayload(claim: ClaimBody) | AckPayload(ack: AckBody) {
    function Key(service: string): OpKey {
      match this
      case ClaimPayload(p) => OpKey(service, ClaimOp, p.operationId)
      case AckPayload(p) => OpKey(service, AckOp, p.operationId)
    }

    function JobId(): string {
      match this
      case ClaimPayload(p) => p.jobId
      case AckPayload(p) => p.jobId
    }

    /** The ranges the parser accepts; anything else is answered `malformed`. */
    predicate InRange() {
      match this
      case ClaimPayload(p) => 0 <= p.expectedAttempt <= 2
      case AckPayload(p) => 1 <= p.attempt <= MAX_ATTEMPTS
    }
  }

  datatype OpType = ClaimOp | AckOp
  datatype OpKey = OpKey(service: string, kind: OpType, operationId: string)
  datatype Reply =
    | Malformed | Conflict | NotFound | Exhausted | Accepted | Replayed
    | Claimed(job: Job)
  datatype OperationRecord = OperationRecord(key: OpKey, body: Body, response: Reply, leaseId: string)

  datatype Store = Store(jobs: map<string, StoredJob>, ops: map<OpKey, OperationRecord>) {
    function Get(jobId: string): Option<StoredJob> {
      if jobId in jobs then Some(jobs[jobId]) else None
    }

    function GetOperation(key: OpKey): Option<OperationRecord> {
      if key in ops then Some(ops[key]) else None
    }
  }

  // ---------------------------------------------------------------- the store port

  /** The port's compare-and-set applies exactly under this condition. */
  predicate CanCommit(s: Store, expected: int, next: StoredJob, op: Option<OperationRecord>) {
    && next.job.jobId in s.jobs
    && s.jobs[next.job.jobId].revision == expected
    && (op.Some? ==> op.value.key !in s.ops)
  }

  function Commit(s: Store, expected: int, next: StoredJob, op: Option<OperationRecord>): Store {
    if CanCommit(s, expected, next, op)
    then Store(s.jobs[next.job.jobId := next],
               if op.Some? then s.ops[op.value.key := op.value] else s.ops)
    else s
  }

  // ---------------------------------------------------------------- pure transitions

  function WholeSecond(ms: int): int {
    ms / 1000 * 1000
  }

  function RetryDelayMs(attempt: int): int {
    if attempt == 1 then 300_000 else 1_800_000
  }

  function Min(a: int, b: int): int {
    if a <= b then a else b
  }

  function ClaimedAt(j: Job): Option<int> {
    if j.leaseExpiresAt.None? then None else Some(j.leaseExpiresAt.value - LEASE_MS)
  }

  /** The failure transition that a failed ack and an expired lease share. */
  function FailedJob(j: Job, reason: Failure, now: int): Job {
    var terminal := j.attempt >= MAX_ATTEMPTS;
    var proposed := now + RetryDelayMs(j.attempt);
    var retryAt := if ClaimedAt(j).None? then proposed else Min(proposed, ClaimedAt(j).value + RETRY_WINDOW_MS);
    j.(status := Failed, leaseId := None, leaseExpiresAt := None, publication := None,
       failure := Some(if terminal then AttemptsExhausted else reason),
       retryAfter := if terminal then None else Some(retryAt))
  }

  function RunningJob(j: Job, lease: string, now: int): Job {
    j.(status := Running, attempt := j.attempt + 1, leaseId := Some(lease), leaseExpiresAt := Some(now + LEASE_MS),
       retryAfter := None, failure := None, publication := None)
  }

  function PublishedJob(j: Job, publication: Publication): Job {
    j.(status := Published, leaseId := None, leaseExpiresAt := None, retryAfter := None,
       failure := None, publication := Some(publication))
  }

  function RequeuedJob(j: Job): Job {
    j.(status := Queued, retryAfter := None, leaseId := None, leaseExpiresAt := None, failure := None)
  }

  function Next(read: StoredJob, job: Job, owner: Option<string>): StoredJob {
    read.(job := job, leaseOwner := owner, revision := read.revision + 1)
  }

  predicate LiveLease(s: StoredJob, service: string, lease: string, now: int) {
    && s.job.status == Running
    && s.job.leaseId == Some(lease)
    && s.leaseOwner == Some(service)
    && s.job.leaseExpiresAt.Some?
    && s.job.leaseExpiresAt.value > now
  }

  predicate ExpiredLease(s: StoredJob, now: int) {
    s.job.status == Running && s.job.leaseExpiresAt.Some? && s.job.leaseExpiresAt.value <= now
  }

  predicate RetryDue(s: StoredJob, now: int) {
    && s.job.status == Failed
    && s.job.failure != Some(AttemptsExhausted)
    && s.job.retryAfter.Some?
    && s.job.retryAfter.value <= now
  }

  /** What a handler does once it has read the operation record and the job: answer at
      once, or ask the store to replace what it read. */
  datatype Decision =
    | Answer(reply: Reply)
    | Propose(read: StoredJob, next: StoredJob, op: Option<OperationRecord>)

  function DecideClaim(service: string, p: ClaimBody, now: int,
                       prior: Option<OperationRecord>, cur: Option<StoredJob>, lease: string): Decision
  {
    var body := ClaimPayload(p);
    if !body.InRange() then Answer(Malformed)
    else if prior.Some? then
      if prior.value.body != body || cur.None? || !LiveLease(cur.value, service, prior.value.leaseId, now)
      then Answer(Conflict)
      else Answer(prior.value.response)
    else if cur.None? then Answer(NotFound)
    else
      var j := cur.value.job;
      if j.status == Failed && j.failure == Some(AttemptsExhausted) then Answer(Exhausted)
      else if j.status != Queued || j.attempt != p.expectedAttempt || j.attempt >= MAX_ATTEMPTS then Answer(Conflict)
      else if j.retryAfter.Some? && j.retryAfter.value > now then Answer(Conflict)
      else
        var running := RunningJob(j, lease, now);
        Propose(cur.value, Next(cur.value, running, Some(service)),
                Some(OperationRecord(body.Key(service), body, Claimed(running), lease)))
  }

  /** `verified` is what the publication verifier answers when it is asked. */
  function DecideAck(service: string, p: AckBody, now: int,
                     prior: Option<OperationRecord>, cur: Option<StoredJob>, verified: bool): Decision
  {
    var body := AckPayload(p);
    if !body.InRange() then Answer(Malformed)
    else if prior.Some? then Answer(if prior.value.body == body then Replayed else Conflict)
    else if cur.None? then Answer(NotFound)
    else if cur.value.job.attempt != p.attempt || !LiveLease(cur.value, service, p.leaseId, now) then Answer(Conflict)
    else
      var j := cur.value.job;
      var op := OperationRecord(body.Key(service), body, Accepted, p.leaseId);
      match p.outcome
      case AckFailed(reason) =>
        Propose(cur.value, Next(cur.value, FailedJob(j, Reported(reason), now), None), Some(op))
      case AckPublished(publication) =>
        if publication.loadedAt > now || !verified then Answer(Conflict)
        else Propose(cur.value, Next(cur.value, PublishedJob(j, publication), None), Some(op))
  }

  function Decide(service: string, body: Body, now: int, prior: Option<OperationRecord>,
                  cur: Option<StoredJob>, lease: string, verified: bool): Decision
  {
    match body
    case ClaimPayload(p) => DecideClaim(service, p, now, prior, cur, lease)
    case AckPayload(p) => DecideAck(service, p, now, prior, cur, verified)
  }

  datatype SweepKind = Expiry | Due

  /** One row of a sweep: skipped unless it still looks expired, or due. */
  function DecideSweep(kind: SweepKind, row: StoredJob, now: int): Option<StoredJob> {
    match kind
    case Expiry =>
      if ExpiredLease(row, now) then Some(Next(row, FailedJob(row.job, LeaseExpired, now), None)) else None
    case Due =>
      if RetryDue(row, now) then Some(Next(row, RequeuedJob(row.job), None)) else None
  }
}
