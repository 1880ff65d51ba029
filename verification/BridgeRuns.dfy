/** Every interleaving of claims, acknowledgements and both sweeps over one job store.
    A handler is three separate steps (read the operation, read the job, commit), and
    any step of any other call may run in between. A storage error ends a call. Worker clocks are unrelated: each
    call brings its own reading. */
module BridgeRuns {
  import opened Options
  import opened Bridge

  datatype Call =
    | Started(service: string, body: Body, now: int)
    | Looked(service: string, body: Body, now: int, prior: Option<OperationRecord>)
    | Pending(read: StoredJob, next: StoredJob, op: Option<OperationRecord>, now: int)

  /** One successful commit: what its caller had read, what it replaced, what it wrote,
      and the clock reading the caller decided with. */
  datatype Transition = Transition(
    read: StoredJob, pre: StoredJob, post: StoredJob, op: Option<OperationRecord>, now: int)

  datatype World = World(
    store: Store, calls: map<nat, Call>, leases: set<string>,
    admitted: map<string, int>, log: seq<Transition>)

  datatype Event =
    | Admit(jobId: string, request: string, admittedAt: int, revision: int)
    | Begin(call: nat, service: string, body: Body, clock: int)
    | ReadOperation(call: nat)
    | ReadJob(call: nat, lease: string, verified: bool)
    | SweepRead(call: nat, kind: SweepKind, jobId: string, clock: int)
    | TryCommit(call: nat)
    | CallFails(call: nat)

  const Empty := World(Store(map[], map[]), map[], {}, map[], [])

  function NewJob(jobId: string, request: string, admittedAt: int, revision: int): StoredJob {
    StoredJob(Job(jobId, request, Queued, 0, None, None, None, None, None), admittedAt, None, revision)
  }

  function SetCall(w: World, c: nat, call: Call): World {
    w.(calls := w.calls[c := call])
  }

  function DropCall(w: World, c: nat): World {
    w.(calls := w.calls - {c})
  }

  function CommitCall(w: World, c: nat): World
    requires c in w.calls && w.calls[c].Pending?
  {
    var p := w.calls[c];
    if CanCommit(w.store, p.read.revision, p.next, p.op)
    then World(Commit(w.store, p.read.revision, p.next, p.op), w.calls - {c}, w.leases, w.admitted,
               w.log + [Transition(p.read, w.store.jobs[p.next.job.jobId], p.next, p.op, p.now)])
    else DropCall(w, c)
  }

  /** A lease id is drawn only if it was never drawn before. */
  function ReadJobCall(w: World, c: nat, lease: string, verified: bool): World
    requires c in w.calls && w.calls[c].Looked?
  {
    var call := w.calls[c];
    match Decide(call.service, call.body, call.now, call.prior, w.store.Get(call.body.JobId()), lease, verified)
    case Answer(_) => DropCall(w, c)
    case Propose(read, next, op) => SetCall(w, c, Pending(read, next, op, call.now)).(leases := w.leases + {lease})
  }

  /** An event that does not apply leaves the world as it is. */
  function Step(w: World, e: Event): World {
    match e
    case Admit(id, request, admittedAt, revision) =>
      if id in w.store.jobs || revision < 1 then w
      else w.(store := w.store.(jobs := w.store.jobs[id := NewJob(id, request, WholeSecond(admittedAt), revision)]),
              admitted := w.admitted[id := revision])
    case Begin(c, service, body, clock) =>
      if c in w.calls then w else SetCall(w, c, Started(service, body, WholeSecond(clock)))
    case ReadOperation(c) =>
      if c !in w.calls || !w.calls[c].Started? then w
      else
        var call := w.calls[c];
        SetCall(w, c, Looked(call.service, call.body, call.now, w.store.GetOperation(call.body.Key(call.service))))
    case ReadJob(c, lease, verified) =>
      if c !in w.calls || !w.calls[c].Looked? || lease in w.leases then w
      else ReadJobCall(w, c, lease, verified)
    case SweepRead(c, kind, id, clock) =>
      if c in w.calls || id !in w.store.jobs then w
      else
        var next := DecideSweep(kind, w.store.jobs[id], WholeSecond(clock));
        if next.None? then w else SetCall(w, c, Pending(w.store.jobs[id], next.value, None, WholeSecond(clock)))
    case TryCommit(c) =>
      if c !in w.calls || !w.calls[c].Pending? then w
      else CommitCall(w, c)
    case CallFails(c) => DropCall(w, c)
  }

  function Run(w: World, events: seq<Event>): World
    decreases |events|
  {
    if events == [] then w else Run(Step(w, events[0]), events[1..])
  }

  // ---------------------------------------------------------------- what a commit may do

  predicate IsClaim(op: Option<OperationRecord>) {
    op.Some? && op.value.body.ClaimPayload?
  }

  predicate ClaimMoves(read: StoredJob, next: StoredJob, op: Option<OperationRecord>, now: int) {
    && IsClaim(op)
    && read.job.status == Queued
    && read.job.attempt < MAX_ATTEMPTS
    && next.job == RunningJob(read.job, op.value.leaseId, now)
    && op.value.response == Claimed(next.job)
    && op.value.body.JobId() == read.job.jobId
    && op.value.body.claim.expectedAttempt == read.job.attempt
    && next.leaseOwner.Some?
    && op.value.key == op.value.body.Key(next.leaseOwner.value)
  }

  predicate AckMoves(read: StoredJob, next: StoredJob, op: Option<OperationRecord>, now: int) {
    && op.Some?
    && op.value.body.AckPayload?
    && var p := op.value.body.ack;
    && read.leaseOwner.Some?
    && LiveLease(read, read.leaseOwner.value, p.leaseId, now)
    && op.value.response == Accepted
    && p.jobId == read.job.jobId
    && p.attempt == read.job.attempt
    && op.value.key == op.value.body.Key(read.leaseOwner.value)
    && next.leaseOwner.None?
    && (p.outcome.AckPublished? ==> p.outcome.publication.loadedAt <= now)
    && next.job == match p.outcome
                   case AckFailed(reason) => FailedJob(read.job, Reported(reason), now)
                   case AckPublished(publication) => PublishedJob(read.job, publication)
  }

  predicate SweepMoves(read: StoredJob, next: StoredJob, op: Option<OperationRecord>, now: int) {
    && op.None?
    && next.leaseOwner.None?
    && (|| (ExpiredLease(read, now) && next.job == FailedJob(read.job, LeaseExpired, now))
        || (RetryDue(read, now) && next.job == RequeuedJob(read.job)))
  }

  predicate Moves(read: StoredJob, next: StoredJob, op: Option<OperationRecord>, now: int) {
    && now % 1000 == 0
    && next.revision == read.revision + 1
    && next.admittedAt == read.admittedAt
    && (|| ClaimMoves(read, next, op, now)
        || AckMoves(read, next, op, now)
        || SweepMoves(read, next, op, now))
  }

  lemma DecisionsMove(service: string, body: Body, now: int, prior: Option<OperationRecord>,
                      cur: Option<StoredJob>, lease: string, verified: bool)
    requires now % 1000 == 0
    requires cur.Some? ==> cur.value.job.jobId == body.JobId()
    ensures var d := Decide(service, body, now, prior, cur, lease, verified);
            d.Propose? ==>
              && prior.None? && cur == Some(d.read) && Moves(d.read, d.next, d.op, now)
              && d.op.Some? && d.op.value.key == body.Key(service) && d.op.value.body == body
              && (body.ClaimPayload? ==> d.op.value.leaseId == lease)
  {
  }

  // ---------------------------------------------------------------- the invariant

  /** Status fixes which columns are filled, and the attempt fixes the revision. */
  predicate JobShape(s: StoredJob, r0: int) {
    var j, a := s.job, s.job.attempt;
    match j.status
    case Queued =>
      && 0 <= a < MAX_ATTEMPTS && s.revision == r0 + 3 * a
      && s.leaseOwner.None? && j.leaseId.None? && j.leaseExpiresAt.None?
      && j.retryAfter.None? && j.failure.None? && j.publication.None?
    case Running =>
      && 1 <= a <= MAX_ATTEMPTS && s.revision == r0 + 3 * a - 2
      && s.leaseOwner.Some? && j.leaseId.Some? && j.leaseExpiresAt.Some?
      && j.retryAfter.None? && j.failure.None? && j.publication.None?
    case Failed =>
      && 1 <= a <= MAX_ATTEMPTS && s.revision == r0 + 3 * a - 1
      && s.leaseOwner.None? && j.leaseId.None? && j.leaseExpiresAt.None?
      && j.failure.Some? && j.publication.None?
      && (j.failure.value == AttemptsExhausted <==> a == MAX_ATTEMPTS)
      && (j.retryAfter.None? <==> a == MAX_ATTEMPTS)
    case Published =>
      && 1 <= a <= MAX_ATTEMPTS && s.revision == r0 + 3 * a - 1
      && s.leaseOwner.None? && j.leaseId.None? && j.leaseExpiresAt.None?
      && j.retryAfter.None? && j.failure.None? && j.publication.Some?
  }

  lemma MovesKeepShape(read: StoredJob, next: StoredJob, op: Option<OperationRecord>, now: int, r0: int)
    requires Moves(read, next, op, now) && JobShape(read, r0)
    ensures JobShape(next, r0) && next.job.jobId == read.job.jobId && next.job.request == read.job.request
    ensures next.revision == read.revision + 1 && next.admittedAt == read.admittedAt
    ensures read.job.status != Published
    ensures next.job.attempt == read.job.attempt + if IsClaim(op) then 1 else 0
    ensures IsClaim(op) <==> next.job.status == Running
  {
  }

  lemma ShapeBoundsRevision(s: StoredJob, r0: int)
    requires JobShape(s, r0)
    ensures r0 <= s.revision <= r0 + 8
  {
  }
}
