/** Results under interleaving: every operation in separate steps, with other operations,
    publications, parent generations and maintenance running in between. */
module ResultRuns {
  import opened Options
  import opened Results

  datatype Kind = Propose | Confirm | Claim | Complete | Recover

  /** A response a completing call submitted, and which execution gave it, if one did. */
  datatype Submitted = Submitted(response: Response, execution: Option<nat>)

  /** A call in progress. `entry` is the log position of the claim a call has won. */
  datatype Call =
    | Confirming(read: Result)
    | Selected(id: string, revision: int, service: string)
    | Won(id: string, revision: int, service: string, entry: nat)
    | Leased(read: Result, service: string, entry: nat)
    | Executed(id: string, revision: int, service: string, leaseId: string, response: Response, execution: nat)
    | Completing(read: Result, submitted: Submitted)
    | Verified(read: Result, submitted: Submitted, binding: Binding)
    | Writing(kind: Kind, before: Option<Result>, next: Result, execute: bool, submission: Option<Submitted>)

  /** A committed write, with the facts of the database at that moment and the response
      its call had submitted. */
  datatype Transition = Transition(
    kind: Kind, read: Option<Result>, pre: Option<Result>, post: Result,
    parent: Option<Parent>, snapshot: Option<string>, digest: string, dbNow: int, submission: Option<Submitted>)

  /** One call of the executor, for the claim committed at log position `entry`. */
  datatype Execution = Execution(id: string, revision: int, attempt: int, entry: nat, response: Response)

  /** `proposedAt` is the revision at which each row asked for confirmation. */
  datatype World = World(
    db: Db, proposedAt: map<string, int>, calls: map<nat, Call>, log: seq<Transition>, executions: seq<Execution>)

  datatype Event =
    | Question(id: string, q: Parent)
    | NextGeneration(id: string, revision: int)
    | Publish(snapshotId: string)
    | Maintenance(id: string, digest: string, t: int)
    | Mapped(row: Result)
    | BeginPropose(c: nat, current: Binding, accountSub: string, spec: Spec, parentExpiresAt: int, now: int)
    | BeginConfirm(c: nat, id: string, revision: int, accountSub: string, now: int)
    | ConfirmBinding(c: nat, current: Binding, finished: int)
    | BeginExecute(c: nat, id: string, revision: int, service: string)
    | BeginClaim(c: nat, id: string, revision: int, service: string, lease: string, now: int)
    | Reread(c: nat)
    | RunExecutor(c: nat, current: Binding, now: int, response: Response)
    | BeginComplete(c: nat, id: string, revision: int, service: string, leaseId: string, response: Response, now: int)
    | Verify(c: nat, current: Binding, digest: string, attribution: string)
    | Recheck(c: nat, current: Binding, finished: int)
    | BeginRecover(c: nat, id: string, revision: int, now: int)
    | Write(c: nat, digest: string, t: int)
    | Failure(c: nat)

  function SetCall(w: World, c: nat, call: Call): World {
    w.(calls := w.calls[c := call])
  }

  function DropCall(w: World, c: nat): World {
    w.(calls := w.calls - {c})
  }

  function Prepare(w: World, c: nat, kind: Kind, before: Option<Result>, next: Option<Result>, execute: bool,
                   submitted: Option<Submitted>): World {
    if next.None? then DropCall(w, c) else SetCall(w, c, Writing(kind, before, next.value, execute, submitted))
  }

  function EntryOf(w: World, call: Call, pre: Option<Result>, post: Result, digest: string, t: int): Transition
    requires call.Writing?
  {
    var id := call.next.requestId;
    Transition(call.kind, call.before, pre, post, if id in w.db.parents then Some(w.db.parents[id]) else None,
               w.db.snapshot, digest, t, call.submission)
  }

  function WonBy(w: World, call: Call): Option<Call>
    requires call.Writing?
  {
    if call.execute && call.next.leaseOwner.Some?
    then Some(Won(call.next.requestId, call.next.revision - 1, call.next.leaseOwner.value, |w.log|)) else None
  }

  /** The world once a write has stored `post` over `pre`. */
  function Committed(w: World, c: nat, call: Call, pre: Option<Result>, post: Result, digest: string, t: int): World
    requires call.Writing?
  {
    var id := call.next.requestId;
    var won := WonBy(w, call);
    World(w.db.(rows := w.db.rows[id := post]),
          if call.before.None? then w.proposedAt[id := call.next.revision] else w.proposedAt,
          if won.Some? then w.calls[c := won.value] else w.calls - {c},
          w.log + [EntryOf(w, call, pre, post, digest, t)], w.executions)
  }

  function WriteStep(w: World, c: nat, digest: string, t: int): World {
    if c !in w.calls || !w.calls[c].Writing? then w
    else
      var call := w.calls[c];
      if !CanWrite(w.db, call.before, call.next, digest, t) then DropCall(w, c)
      else Committed(w, c, call, Stored(w.db, call.next.requestId), Written(w.db, call.before, call.next), digest, t)
  }

  /** The claimed row as the executor's caller reads it back. */
  predicate IsLeased(row: Option<Result>, revision: int, service: string) {
    && row.Some? && row.value.state == InReview && row.value.revision == revision + 1
    && row.value.leaseOwner == Some(service) && row.value.leaseId.Some?
  }

  predicate MayExecute(current: Binding, row: Result, now: int) {
    && current == Binding(row.requestRevision, Some(row.spec.snapshotId))
    && row.leaseExpiresAt.Some? && row.leaseExpiresAt.value > now && row.expiresAt > now
  }

  function ExecuteStep(w: World, c: nat, e: Event): World
    requires e.BeginExecute? || e.BeginClaim? || e.Reread? || e.RunExecutor?
  {
    match e
    case BeginExecute(_, id, revision, service) =>
      var row := Get(w.db, id);
      if c in w.calls || row.None? || row.value.revision != revision || row.value.state != Building then w
      else SetCall(w, c, Selected(id, revision, service))
    case BeginClaim(_, id, revision, service, lease, now) =>
      var execute := c in w.calls && w.calls[c] == Selected(id, revision, service);
      var row := Get(w.db, id);
      if (c in w.calls && !execute) || row.None? then w
      else Prepare(w, c, Claim, row, DecideClaim(row.value, revision, service, lease, now), execute, None)
    case Reread(_) =>
      if c !in w.calls || !w.calls[c].Won? then w
      else
        var call := w.calls[c];
        var row := Get(w.db, call.id);
        if !IsLeased(row, call.revision, call.service) then DropCall(w, c)
        else SetCall(w, c, Leased(row.value, call.service, call.entry))
    case RunExecutor(_, current, now, response) =>
      if c !in w.calls || !w.calls[c].Leased? then w
      else
        var call := w.calls[c];
        if !MayExecute(current, call.read, now) || call.read.leaseId.None? then DropCall(w, c)
        else
          SetCall(w, c, Executed(call.read.requestId, call.read.revision, call.service, call.read.leaseId.value, response,
                               |w.executions|))
          .(executions := w.executions + [Execution(call.read.requestId, call.read.revision, call.read.attempt, call.entry, response)])
  }

  function CompleteStep(w: World, c: nat, e: Event): World
    requires e.BeginComplete? || e.Verify? || e.Recheck?
  {
    match e
    case BeginComplete(_, id, revision, service, leaseId, response, now) =>
      var row := Get(w.db, id);
      if c in w.calls && !(w.calls[c].Executed? && w.calls[c] == Executed(id, revision, service, leaseId, response, w.calls[c].execution))
      then w
      else if row.None? || !Completable(row.value, revision, service, leaseId, now) then DropCall(w, c)
      else SetCall(w, c, Completing(row.value, Submitted(response, if c in w.calls then Some(w.calls[c].execution) else None)))
    case Verify(_, current, digest, attribution) =>
      if c !in w.calls || !w.calls[c].Completing? then w
      else
        var call := w.calls[c];
        if !Verifies(call.read.spec, call.submitted.response, call.read.requestId, current, digest, attribution) then DropCall(w, c)
        else SetCall(w, c, Verified(call.read, call.submitted, current))
    case Recheck(_, current, finished) =>
      if c !in w.calls || !w.calls[c].Verified? then w
      else
        var call := w.calls[c];
        Prepare(w, c, Complete, Some(call.read),
                DecideComplete(current, call.read, call.submitted.response, call.binding, finished), false, Some(call.submitted))
  }

  function Step(w: World, e: Event): World {
    match e
    case Question(id, q) =>
      if id in w.db.parents || q.revision < 1 then w else w.(db := w.db.(parents := w.db.parents[id := q]))
    case NextGeneration(id, revision) =>
      if id !in w.db.parents || revision <= w.db.parents[id].revision then w
      else w.(db := w.db.(parents := w.db.parents[id := w.db.parents[id].(revision := revision)]))
    case Publish(snapshotId) => w.(db := w.db.(snapshot := Some(snapshotId)))
    case Maintenance(id, digest, t) =>
      w.(db := w.db.(rows := MaintainedRows(w.db, id, digest, t)))
    case Mapped(row) =>
      if row.requestId in w.db.rows || !Asking(row) then w
      else w.(db := w.db.(rows := w.db.rows[row.requestId := row]), proposedAt := w.proposedAt[row.requestId := row.revision])
    case BeginPropose(c, current, accountSub, spec, parentExpiresAt, now) =>
      if c in w.calls then w else Prepare(w, c, Propose, None, DecidePropose(current, accountSub, spec, parentExpiresAt, now), false, None)
    case BeginConfirm(c, id, revision, accountSub, now) =>
      var row := Get(w.db, id);
      if c in w.calls || row.None? || row.value.accountSub != accountSub || row.value.revision != revision
         || !Confirmable(row.value, now) then w
      else SetCall(w, c, Confirming(row.value))
    case ConfirmBinding(c, current, finished) =>
      if c !in w.calls || !w.calls[c].Confirming? then w
      else Prepare(w, c, Confirm, Some(w.calls[c].read), DecideConfirm(current, w.calls[c].read, finished), false, None)
    case BeginRecover(c, id, revision, now) =>
      var row := Get(w.db, id);
      if c in w.calls || row.None? then w else Prepare(w, c, Recover, row, DecideRecover(row.value, revision, now), false, None)
    case Write(c, digest, t) => WriteStep(w, c, digest, t)
    case Failure(c) => DropCall(w, c)
    case BeginExecute(c, _, _, _) => ExecuteStep(w, c, e)
    case BeginClaim(c, _, _, _, _, _) => ExecuteStep(w, c, e)
    case Reread(c) => ExecuteStep(w, c, e)
    case RunExecutor(c, _, _, _) => ExecuteStep(w, c, e)
    case BeginComplete(c, _, _, _, _, _, _) => CompleteStep(w, c, e)
    case Verify(c, _, _, _) => CompleteStep(w, c, e)
    case Recheck(c, _, _) => CompleteStep(w, c, e)
  }

  /** A row that triage may create: it asks its owner to confirm, at whatever revision. */
  predicate Asking(row: Result) {
    && row.state == ConfirmationRequired && row.revision >= 1 && row.attempt == 0 && row.leaseExpiresAt.None?
    && row.evidence.None? && row.spec.requestId == row.requestId && row.spec.requestRevision == row.requestRevision
  }

  function Run(w: World, events: seq<Event>): World {
    if events == [] then w else Step(Run(w, events[..|events| - 1]), events[|events| - 1])
  }

  const EMPTY := World(Db(map[], map[], None), map[], map[], [], [])
}
