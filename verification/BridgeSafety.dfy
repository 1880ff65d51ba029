/** What every run of the bridge keeps, and what follows from it. */
module BridgeSafety {
  import opened Options
  import opened Bridge
  import opened BridgeRuns

  // ---------------------------------------------------------------- counting commits

  function Commits(log: seq<Transition>, jobId: string): nat {
    if log == [] then 0
    else Commits(log[..|log| - 1], jobId) + if log[|log| - 1].post.job.jobId == jobId then 1 else 0
  }

  function Claims(log: seq<Transition>, jobId: string): nat {
    if log == [] then 0
    else Claims(log[..|log| - 1], jobId)
         + if log[|log| - 1].post.job.jobId == jobId && IsClaim(log[|log| - 1].op) then 1 else 0
  }

  /** The lease drawn by the most recent claim of the job. */
  function LastLease(log: seq<Transition>, jobId: string): Option<string> {
    if log == [] then None
    else
      var t := log[|log| - 1];
      if t.post.job.jobId == jobId && IsClaim(t.op) then Some(t.op.value.leaseId)
      else LastLease(log[..|log| - 1], jobId)
  }

  // ---------------------------------------------------------------- the invariant

  ghost predicate Shaped(s: Store, admitted: map<string, int>) {
    forall id ::
      && (id in s.jobs <==> id in admitted)
      && (id in s.jobs ==>
            admitted[id] >= 1 && s.jobs[id].job.jobId == id && JobShape(s.jobs[id], admitted[id]))
  }

  /** A read is usable only while it is still the stored record. */
  ghost predicate ReadIsCurrentOrStale(s: Store, read: StoredJob) {
    && read.job.jobId in s.jobs
    && var cur := s.jobs[read.job.jobId];
    && read.revision <= cur.revision
    && (read.revision == cur.revision ==> read == cur)
  }

  ghost predicate CallSound(s: Store, call: Call) {
    match call
    case Started(_, _, now) => now % 1000 == 0
    case Looked(service, body, now, prior) =>
      now % 1000 == 0 && (prior.Some? ==> body.Key(service) in s.ops && s.ops[body.Key(service)] == prior.value)
    case Pending(read, next, op, now) =>
      Moves(read, next, op, now) && next.job.jobId == read.job.jobId && ReadIsCurrentOrStale(s, read)
  }

  ghost predicate CallsSound(s: Store, calls: map<nat, Call>) {
    forall c | c in calls :: CallSound(s, calls[c])
  }

  /** The lease a pending claim wants to write. */
  function Wants(call: Call): Option<string> {
    if call.Pending? && IsClaim(call.op) then Some(call.op.value.leaseId) else None
  }

  /** Every lease in use was drawn; a lease a pending claim wants is in no job, in no
      claim record and wanted by no other call. */
  ghost predicate LeasesDrawn(s: Store, calls: map<nat, Call>, leases: set<string>) {
    && (forall id | id in s.jobs && s.jobs[id].job.leaseId.Some? :: s.jobs[id].job.leaseId.value in leases)
    && (forall k | k in s.ops && k.kind == ClaimOp :: s.ops[k].leaseId in leases)
    && (forall c | c in calls && Wants(calls[c]).Some? :: Wants(calls[c]).value in leases)
  }

  ghost predicate WantedApart(s: Store, calls: map<nat, Call>) {
    && (forall c, id | c in calls && Wants(calls[c]).Some? && id in s.jobs ::
          s.jobs[id].job.leaseId != Wants(calls[c]))
    && (forall c, k | c in calls && Wants(calls[c]).Some? && k in s.ops && k.kind == ClaimOp ::
          s.ops[k].leaseId != Wants(calls[c]).value)
    && (forall c, d | c in calls && d in calls && c != d && Wants(calls[c]).Some? :: Wants(calls[c]) != Wants(calls[d]))
  }

  /** A claim record whose lease is the stored one describes the stored job. */
  ghost predicate ClaimRecordsCurrent(s: Store) {
    && (forall k | k in s.ops :: s.ops[k].key == k && s.ops[k].body.Key(k.service) == k)
    && (forall k, id | k in s.ops && k.kind == ClaimOp && id in s.jobs
                       && s.jobs[id].job.leaseId == Some(s.ops[k].leaseId) ::
          s.ops[k].response == Claimed(s.jobs[id].job))
  }

  ghost predicate Counted(s: Store, admitted: map<string, int>, log: seq<Transition>) {
    forall id ::
      if id in s.jobs && id in admitted then
        && Commits(log, id) == s.jobs[id].revision - admitted[id]
        && Claims(log, id) == s.jobs[id].job.attempt
        && (s.jobs[id].job.leaseId.Some? ==> s.jobs[id].job.leaseId == LastLease(log, id))
      else
        Commits(log, id) == 0 && Claims(log, id) == 0
  }

  /** Operation records and the transitions that carry one correspond one to one. */
  ghost predicate Receipted(s: Store, log: seq<Transition>) {
    && (forall i | 0 <= i < |log| && log[i].op.Some? ::
          log[i].op.value.key in s.ops && s.ops[log[i].op.value.key] == log[i].op.value)
    && (forall k | k in s.ops :: exists i :: 0 <= i < |log| && log[i].op == Some(s.ops[k]))
    && (forall i, j | 0 <= i < j < |log| && log[i].op.Some? && log[j].op.Some? ::
          log[i].op.value.key != log[j].op.value.key)
  }

  /** The pre-state of a commit is exactly what its caller read; an acknowledgement
      carries the lease of the latest claim before it. */
  ghost predicate EntrySound(log: seq<Transition>, i: nat)
    requires i < |log|
  {
    && log[i].read == log[i].pre
    && Moves(log[i].pre, log[i].post, log[i].op, log[i].now)
    && log[i].pre.job.jobId == log[i].post.job.jobId
    && (log[i].op.Some? && log[i].op.value.body.AckPayload? ==>
          LastLease(log[..i], log[i].pre.job.jobId) == Some(log[i].op.value.body.ack.leaseId))
  }

  ghost predicate LogSound(log: seq<Transition>) {
    forall i: nat | i < |log| :: EntrySound(log, i)
  }

  ghost predicate Inv(w: World) {
    && Shaped(w.store, w.admitted)
    && CallsSound(w.store, w.calls)
    && LeasesDrawn(w.store, w.calls, w.leases)
    && WantedApart(w.store, w.calls)
    && ClaimRecordsCurrent(w.store)
    && Counted(w.store, w.admitted, w.log)
    && Receipted(w.store, w.log)
    && LogSound(w.log)
  }

  // ---------------------------------------------------------------- steps that only read

  lemma SetCallKeepsWants(s: Store, calls: map<nat, Call>, leases: set<string>, c: nat, call: Call, drawn: set<string>)
    requires LeasesDrawn(s, calls, leases) && WantedApart(s, calls)
    requires leases <= drawn
    requires Wants(call).Some? ==> Wants(call).value in drawn && Wants(call).value !in leases
    ensures LeasesDrawn(s, calls[c := call], drawn) && WantedApart(s, calls[c := call])
  {
  }

  lemma SetCallKeepsInv(w: World, c: nat, call: Call, drawn: set<string>)
    requires Inv(w) && CallSound(w.store, call) && w.leases <= drawn
    requires Wants(call).Some? ==> Wants(call).value in drawn && Wants(call).value !in w.leases
    ensures Inv(SetCall(w, c, call).(leases := drawn))
  {
    SetCallKeepsWants(w.store, w.calls, w.leases, c, call, drawn);
    var calls := w.calls[c := call];
    forall d | d in calls
      ensures CallSound(w.store, calls[d])
    {
      if d != c { assert CallSound(w.store, w.calls[d]); }
    }
  }

  lemma DropCallKeepsInv(w: World, c: nat)
    requires Inv(w)
    ensures Inv(DropCall(w, c))
  {
    var calls := w.calls - {c};
    forall d | d in calls
      ensures CallSound(w.store, calls[d])
    {
      assert CallSound(w.store, w.calls[d]);
    }
  }

  lemma ReadJobKeepsInv(w: World, c: nat, lease: string, verified: bool)
    requires Inv(w) && c in w.calls && w.calls[c].Looked? && lease !in w.leases
    ensures Inv(ReadJobCall(w, c, lease, verified))
  {
    hide Moves, JobShape, Decide;
    var call := w.calls[c];
    assert CallSound(w.store, call);
    var id := call.body.JobId();
    var cur := w.store.Get(id);
    assert cur.Some? ==> cur.value.job.jobId == id;
    DecisionsMove(call.service, call.body, call.now, call.prior, cur, lease, verified);
    match Decide(call.service, call.body, call.now, call.prior, cur, lease, verified)
    case Answer(_) => DropCallKeepsInv(w, c);
    case Propose(read, next, op) =>
      MovesKeepShape(read, next, op, call.now, w.admitted[id]);
      SetCallKeepsInv(w, c, Pending(read, next, op, call.now), w.leases + {lease});
  }

  lemma SweepReadKeepsInv(w: World, c: nat, kind: SweepKind, id: string, now: int)
    requires Inv(w) && id in w.store.jobs && now % 1000 == 0
    ensures var next := DecideSweep(kind, w.store.jobs[id], now);
            next.Some? ==> Inv(SetCall(w, c, Pending(w.store.jobs[id], next.value, None, now)))
  {
    var row := w.store.jobs[id];
    var next := DecideSweep(kind, row, now);
    if next.Some? {
      assert Moves(row, next.value, None, now);
      MovesKeepShape(row, next.value, None, now, w.admitted[id]);
      SetCallKeepsInv(w, c, Pending(row, next.value, None, now), w.leases);
    }
  }

  // ---------------------------------------------------------------- admission

  lemma AdmitKeepsInv(w: World, id: string, job: StoredJob, r0: int)
    requires Inv(w) && id !in w.store.jobs && r0 >= 1
    requires job.job.jobId == id && job.job.status == Queued && job.job.attempt == 0 && JobShape(job, r0)
    ensures Inv(w.(store := w.store.(jobs := w.store.jobs[id := job]), admitted := w.admitted[id := r0]))
  {
    hide Moves, JobShape, LogSound, CallsSound, LeasesDrawn, WantedApart, ClaimRecordsCurrent;
    var s' := w.store.(jobs := w.store.jobs[id := job]);
    AdmittedShape(job, r0);
    AdmitKeepsCalls(w.store, w.calls, id, job);
    AdmitKeepsLeases(w.store, w.calls, w.leases, id, job);
    assert Receipted(s', w.log);
  }

  lemma AdmitKeepsCalls(s: Store, calls: map<nat, Call>, id: string, job: StoredJob)
    requires CallsSound(s, calls) && id !in s.jobs
    ensures CallsSound(s.(jobs := s.jobs[id := job]), calls)
  {
    hide Moves;
    forall c | c in calls
      ensures CallSound(s.(jobs := s.jobs[id := job]), calls[c])
    {
      assert CallSound(s, calls[c]);
    }
  }

  lemma AdmitKeepsLeases(s: Store, calls: map<nat, Call>, leases: set<string>, id: string, job: StoredJob)
    requires LeasesDrawn(s, calls, leases) && WantedApart(s, calls) && ClaimRecordsCurrent(s)
    requires job.job.leaseId.None?
    ensures var s' := s.(jobs := s.jobs[id := job]);
            LeasesDrawn(s', calls, leases) && WantedApart(s', calls) && ClaimRecordsCurrent(s')
  {
  }

  lemma AdmittedShape(job: StoredJob, r0: int)
    requires job.job.status == Queued && job.job.attempt == 0 && JobShape(job, r0)
    ensures job.job.leaseId.None? && job.revision == r0
  {
  }

  lemma BeginKeepsInv(w: World, c: nat, service: string, body: Body, clock: int)
    requires Inv(w)
    ensures Inv(SetCall(w, c, Started(service, body, WholeSecond(clock))))
  {
    hide Inv;
    SetCallKeepsInv(w, c, Started(service, body, WholeSecond(clock)), w.leases);
  }

  lemma ReadOperationKeepsInv(w: World, c: nat)
    requires Inv(w) && c in w.calls && w.calls[c].Started?
    ensures Inv(Step(w, ReadOperation(c)))
  {
    hide Moves, JobShape, EntrySound;
    var call := w.calls[c];
    assert CallSound(w.store, call);
    SetCallKeepsInv(w, c, Looked(call.service, call.body, call.now,
                                 w.store.GetOperation(call.body.Key(call.service))), w.leases);
  }

  // ---------------------------------------------------------------- the commit step

  lemma CommitsAppend(log: seq<Transition>, t: Transition, id: string)
    ensures Commits(log + [t], id) == Commits(log, id) + if t.post.job.jobId == id then 1 else 0
    ensures Claims(log + [t], id) == Claims(log, id) + if t.post.job.jobId == id && IsClaim(t.op) then 1 else 0
    ensures LastLease(log + [t], id) ==
            if t.post.job.jobId == id && IsClaim(t.op) then Some(t.op.value.leaseId) else LastLease(log, id)
  {
    assert (log + [t])[..|log + [t]| - 1] == log;
  }

  /** A pending call that is about to win. */
  ghost predicate Winning(w: World, c: nat) {
    && c in w.calls && w.calls[c].Pending?
    && CanCommit(w.store, w.calls[c].read.revision, w.calls[c].next, w.calls[c].op)
  }

  ghost predicate Replaces(s: Store, p: Call, r0: int)
    requires p.Pending?
  {
    var id := p.next.job.jobId;
    && id in s.jobs && p.read == s.jobs[id] && p.read.job.jobId == id
    && p.next.revision == p.read.revision + 1
    && JobShape(p.next, r0)
    && p.next.job.attempt == p.read.job.attempt + (if IsClaim(p.op) then 1 else 0)
    && p.next.job.leaseId == Wants(p)
    && (p.op.Some? ==> p.op.value.body.Key(p.op.value.key.service) == p.op.value.key && p.op.value.key !in s.ops)
    && (IsClaim(p.op) ==> p.op.value.response == Claimed(p.next.job))
    && (p.op.Some? && !IsClaim(p.op) ==> p.read.job.leaseId == Some(p.op.value.body.ack.leaseId))
  }

  lemma WinnerReplaces(w: World, c: nat)
    requires Inv(w) && Winning(w, c)
    ensures w.calls[c].next.job.jobId in w.admitted
    ensures Replaces(w.store, w.calls[c], w.admitted[w.calls[c].next.job.jobId])
    ensures Moves(w.calls[c].read, w.calls[c].next, w.calls[c].op, w.calls[c].now)
  {
    var p := w.calls[c];
    assert CallSound(w.store, p);
    MovesKeepShape(p.read, p.next, p.op, p.now, w.admitted[p.read.job.jobId]);
  }

  function After(s: Store, p: Call): Store
    requires p.Pending?
  {
    Store(s.jobs[p.next.job.jobId := p.next],
          if p.op.Some? then s.ops[p.op.value.key := p.op.value] else s.ops)
  }

  lemma CommitKeepsCalls(s: Store, calls: map<nat, Call>, c: nat, r0: int)
    requires CallsSound(s, calls) && c in calls && calls[c].Pending? && Replaces(s, calls[c], r0)
    ensures CallsSound(After(s, calls[c]), calls - {c})
  {
    var s' := After(s, calls[c]);
    forall d | d in calls - {c}
      ensures CallSound(s', calls[d])
    {
      assert CallSound(s, calls[d]);
    }
  }

  lemma CommitKeepsLeases(s: Store, calls: map<nat, Call>, leases: set<string>, c: nat, r0: int)
    requires LeasesDrawn(s, calls, leases) && WantedApart(s, calls) && ClaimRecordsCurrent(s)
    requires c in calls && calls[c].Pending? && Replaces(s, calls[c], r0)
    ensures LeasesDrawn(After(s, calls[c]), calls - {c}, leases)
    ensures WantedApart(After(s, calls[c]), calls - {c})
  {
    hide Moves, JobShape;
    var p := calls[c];
    assert p.op.Some? ==> (p.op.value.key.kind == ClaimOp <==> IsClaim(p.op));
  }

  lemma CommitKeepsRecords(s: Store, calls: map<nat, Call>, c: nat, r0: int)
    requires WantedApart(s, calls) && ClaimRecordsCurrent(s)
    requires c in calls && calls[c].Pending? && Replaces(s, calls[c], r0)
    ensures ClaimRecordsCurrent(After(s, calls[c]))
  {
    hide Moves, JobShape;
    var p := calls[c];
    assert p.op.Some? ==> (p.op.value.key.kind == ClaimOp <==> IsClaim(p.op));
  }

  lemma CommitKeepsCounts(s: Store, admitted: map<string, int>, log: seq<Transition>, p: Call, t: Transition)
    requires Counted(s, admitted, log) && p.Pending? && p.next.job.jobId in admitted
    requires Replaces(s, p, admitted[p.next.job.jobId])
    requires t.post == p.next && t.op == p.op
    ensures Counted(After(s, p), admitted, log + [t])
  {
    var s' := After(s, p);
    forall id
      ensures if id in s'.jobs && id in admitted then
                && Commits(log + [t], id) == s'.jobs[id].revision - admitted[id]
                && Claims(log + [t], id) == s'.jobs[id].job.attempt
                && (s'.jobs[id].job.leaseId.Some? ==> s'.jobs[id].job.leaseId == LastLease(log + [t], id))
              else Commits(log + [t], id) == 0 && Claims(log + [t], id) == 0
    {
      CommitsAppend(log, t, id);
    }
  }

  lemma CommitKeepsReceipts(s: Store, log: seq<Transition>, p: Call, t: Transition)
    requires Receipted(s, log) && p.Pending?
    requires t.op == p.op && (p.op.Some? ==> p.op.value.key !in s.ops)
    ensures Receipted(After(s, p), log + [t])
  {
    var s', log' := After(s, p), log + [t];
    forall k | k in s'.ops
      ensures exists i :: 0 <= i < |log'| && log'[i].op == Some(s'.ops[k])
    {
      if p.op.Some? && k == p.op.value.key {
        assert log'[|log|].op == Some(s'.ops[k]);
      } else {
        var i :| 0 <= i < |log| && log[i].op == Some(s.ops[k]);
        assert log'[i] == log[i];
      }
    }
  }

  lemma CommitKeepsLog(log: seq<Transition>, t: Transition)
    requires LogSound(log) && EntrySound(log + [t], |log|)
    ensures LogSound(log + [t])
  {
    forall i: nat | i < |log + [t]|
      ensures EntrySound(log + [t], i)
    {
      if i < |log| {
        assert EntrySound(log, i);
        assert (log + [t])[..i] == log[..i];
      }
    }
  }

  lemma WinningEntrySound(w: World, c: nat, t: Transition)
    requires Inv(w) && Winning(w, c)
    requires var p := w.calls[c]; t == Transition(p.read, w.store.jobs[p.next.job.jobId], p.next, p.op, p.now)
    ensures EntrySound(w.log + [t], |w.log|)
  {
    WinnerReplaces(w, c);
    assert (w.log + [t])[..|w.log|] == w.log;
  }

  lemma CommitKeepsShape(s: Store, admitted: map<string, int>, p: Call)
    requires Shaped(s, admitted) && p.Pending? && p.next.job.jobId in admitted
    requires Replaces(s, p, admitted[p.next.job.jobId])
    ensures Shaped(After(s, p), admitted)
  {
  }

  lemma CommitKeepsInv(w: World, c: nat)
    requires Inv(w) && Winning(w, c)
    ensures Inv(CommitCall(w, c))
  {
    var p := w.calls[c];
    var id := p.next.job.jobId;
    var t := Transition(p.read, w.store.jobs[id], p.next, p.op, p.now);
    WinnerReplaces(w, c);
    CommitKeepsShape(w.store, w.admitted, p);
    CommitKeepsCalls(w.store, w.calls, c, w.admitted[id]);
    CommitKeepsLeases(w.store, w.calls, w.leases, c, w.admitted[id]);
    CommitKeepsRecords(w.store, w.calls, c, w.admitted[id]);
    CommitKeepsCounts(w.store, w.admitted, w.log, p, t);
    CommitKeepsReceipts(w.store, w.log, p, t);
    WinningEntrySound(w, c, t);
    CommitKeepsLog(w.log, t);
  }

  lemma TryCommitKeepsInv(w: World, c: nat)
    requires Inv(w) && c in w.calls && w.calls[c].Pending?
    ensures Inv(CommitCall(w, c))
  {
    hide Inv;
    if Winning(w, c) { CommitKeepsInv(w, c); } else { DropCallKeepsInv(w, c); }
  }

  // ---------------------------------------------------------------- every step, every run

  lemma StepKeepsInv(w: World, e: Event)
    requires Inv(w)
    ensures Inv(Step(w, e))
  {
    hide Inv, Winning, CallSound, ReadJobCall;
    match e
    case Admit(id, request, admittedAt, revision) =>
      if id !in w.store.jobs && revision >= 1 {
        AdmitKeepsInv(w, id, NewJob(id, request, WholeSecond(admittedAt), revision), revision);
      }
    case Begin(c, service, body, clock) =>
      if c !in w.calls { BeginKeepsInv(w, c, service, body, clock); }
    case ReadOperation(c) =>
      if c in w.calls && w.calls[c].Started? { ReadOperationKeepsInv(w, c); }
    case ReadJob(c, lease, verified) =>
      if c in w.calls && w.calls[c].Looked? && lease !in w.leases { ReadJobKeepsInv(w, c, lease, verified); }
    case SweepRead(c, kind, id, clock) =>
      if c !in w.calls && id in w.store.jobs { SweepReadKeepsInv(w, c, kind, id, WholeSecond(clock)); }
    case TryCommit(c) =>
      if c in w.calls && w.calls[c].Pending? { TryCommitKeepsInv(w, c); }
    case CallFails(c) => DropCallKeepsInv(w, c);
  }

  lemma {:induction false} RunKeepsInv(w: World, events: seq<Event>)
    requires Inv(w)
    ensures Inv(Run(w, events))
    decreases |events|
  {
    if events != [] {
      StepKeepsInv(w, events[0]);
      RunKeepsInv(Step(w, events[0]), events[1..]);
    }
  }

  // ---------------------------------------------------------------- what follows

  ghost predicate Reachable(w: World) {
    exists events :: w == Run(Empty, events)
  }

  lemma ReachableInv(w: World)
    requires Reachable(w)
    ensures Inv(w)
  {
    var events :| w == Run(Empty, events);
    RunKeepsInv(Empty, events);
  }

  /** No lost update and no ABA: what a commit replaced is what its caller had read. */
  lemma CommitsReplaceWhatTheyRead(w: World, i: nat)
    requires Reachable(w) && i < |w.log|
    ensures w.log[i].read == w.log[i].pre
    ensures w.log[i].post.revision == w.log[i].pre.revision + 1
    ensures w.log[i].pre.job.status != Published
  {
    ReachableInv(w);
    assert EntrySound(w.log, i);
  }

  /** The revision is a function of status and attempt, and counts the job's commits. */
  lemma RevisionNamesStage(w: World, id: string)
    requires Reachable(w) && id in w.store.jobs
    ensures id in w.admitted
    ensures var s, a, r0 := w.store.jobs[id], w.store.jobs[id].job.attempt, w.admitted[id];
            && s.revision == (match s.job.status
                              case Queued => r0 + 3 * a
                              case Running => r0 + 3 * a - 2
                              case Failed => r0 + 3 * a - 1
                              case Published => r0 + 3 * a - 1)
            && Commits(w.log, id) == s.revision - r0 <= 8
            && Claims(w.log, id) == a <= 3
  {
    ReachableInv(w);
  }

  /** A job gives up exactly when its third attempt fails; a retry is then never due. */
  lemma ExhaustedExactlyAtThirdAttempt(w: World, id: string)
    requires Reachable(w) && id in w.store.jobs && w.store.jobs[id].job.status == Failed
    ensures var j := w.store.jobs[id].job;
            && (j.failure == Some(AttemptsExhausted) <==> j.attempt == MAX_ATTEMPTS)
            && (j.retryAfter.None? <==> j.attempt == MAX_ATTEMPTS)
  {
    ReachableInv(w);
  }

  predicate Settled(j: Job) {
    j.status == Published || (j.status == Failed && j.failure == Some(AttemptsExhausted))
  }

  lemma SettledCannotMove(read: StoredJob, next: StoredJob, op: Option<OperationRecord>, now: int)
    requires Moves(read, next, op, now)
    ensures !Settled(read.job)
  {
  }

  lemma StepKeepsSettled(w: World, e: Event, id: string)
    requires Inv(w) && id in w.store.jobs && Settled(w.store.jobs[id].job)
    ensures id in Step(w, e).store.jobs && Step(w, e).store.jobs[id] == w.store.jobs[id]
  {
    hide Inv, Moves, JobShape, Settled, Decide, DecideSweep;
    if e.TryCommit? && Winning(w, e.call) {
      WinnerReplaces(w, e.call);
      var p := w.calls[e.call];
      SettledCannotMove(p.read, p.next, p.op, p.now);
    }
  }

  /** A published or exhausted job never changes again, whatever is still in flight. */
  lemma {:induction false} SettledIsForever(w: World, events: seq<Event>, id: string)
    requires Inv(w) && id in w.store.jobs && Settled(w.store.jobs[id].job)
    ensures id in Run(w, events).store.jobs && Run(w, events).store.jobs[id] == w.store.jobs[id]
    decreases |events|
  {
    if events != [] {
      StepKeepsSettled(w, events[0], id);
      StepKeepsInv(w, events[0]);
      SettledIsForever(Step(w, events[0]), events[1..], id);
    }
  }

  /** An operation is recorded exactly when its one transition committed. */
  lemma OperationActsOnce(w: World, key: OpKey)
    requires Reachable(w)
    ensures key in w.store.ops <==> exists i :: 0 <= i < |w.log| && w.log[i].op.Some? && w.log[i].op.value.key == key
    ensures forall i, j | 0 <= i < |w.log| && 0 <= j < |w.log| && w.log[i].op.Some? && w.log[j].op.Some? ::
              w.log[i].op.value.key == key && w.log[j].op.value.key == key ==> i == j
  {
    ReachableInv(w);
    if key in w.store.ops {
      var i :| 0 <= i < |w.log| && w.log[i].op == Some(w.store.ops[key]);
    }
  }

  lemma {:induction false} OperationsAreForever(w: World, events: seq<Event>, key: OpKey)
    requires key in w.store.ops
    ensures key in Run(w, events).store.ops && Run(w, events).store.ops[key] == w.store.ops[key]
    decreases |events|
  {
    if events != [] {
      OperationsAreForever(Step(w, events[0]), events[1..], key);
    }
  }

  /** However much later an acknowledgement is sent again, it is answered from its
      record: `replayed` for the same body, `conflict` for any other. */
  lemma ResentAckIsReplayed(w: World, events: seq<Event>, service: string, p: AckBody, now: int,
                            cur: Option<StoredJob>, verified: bool)
    requires AckPayload(p).InRange()
    requires AckPayload(p).Key(service) in w.store.ops
    ensures var key := AckPayload(p).Key(service);
            DecideAck(service, p, now, Run(w, events).store.GetOperation(key), cur, verified)
            == Answer(if w.store.ops[key].body == AckPayload(p) then Replayed else Conflict)
  {
    OperationsAreForever(w, events, AckPayload(p).Key(service));
  }

  /** A replayed claim answers with the job as it is stored now, or not at all: the
      record may be long old when the job is read, but its lease is still the live one. */
  lemma ReplayedClaimIsCurrent(w: World, c: nat, lease: string)
    requires Reachable(w) && c in w.calls && w.calls[c].Looked?
    requires w.calls[c].body.ClaimPayload? && w.calls[c].body.InRange() && w.calls[c].prior.Some?
    ensures var call := w.calls[c]; var p := call.body.claim;
            var cur := w.store.Get(p.jobId);
            var served := call.prior.value.body == call.body && cur.Some?
                          && LiveLease(cur.value, call.service, call.prior.value.leaseId, call.now);
            DecideClaim(call.service, p, call.now, call.prior, cur, lease)
            == Answer(if served then Claimed(cur.value.job) else Conflict)
  {
    ReachableInv(w);
    assert CallSound(w.store, w.calls[c]);
  }

  /** An accepted acknowledgement carries the lease of the job's latest claim. */
  lemma AckHoldsLatestLease(w: World, i: nat)
    requires Reachable(w) && i < |w.log| && w.log[i].op.Some? && w.log[i].op.value.body.AckPayload?
    ensures LastLease(w.log[..i], w.log[i].post.job.jobId) == Some(w.log[i].op.value.body.ack.leaseId)
    ensures LiveLease(w.log[i].read, w.log[i].op.value.key.service, w.log[i].op.value.body.ack.leaseId, w.log[i].now)
  {
    ReachableInv(w);
    assert EntrySound(w.log, i);
  }

  /** A failed acknowledgement: the one-day cap never binds, and the deadline follows
      the claim exactly when the acknowledging clock is not too far behind it. */
  lemma AckRetryDeadline(s: StoredJob, service: string, lease: string, reason: AckReason, now: int)
    requires LiveLease(s, service, lease, now) && s.job.attempt < MAX_ATTEMPTS
    ensures var retry := FailedJob(s.job, Reported(reason), now).retryAfter;
            var claimed := ClaimedAt(s.job);
            && claimed.Some? && retry == Some(now + RetryDelayMs(s.job.attempt))
            && retry.value < claimed.value + RETRY_WINDOW_MS
            && (claimed.value <= now ==> claimed.value < retry.value)
            && (claimed.value < retry.value <==> claimed.value - now < RetryDelayMs(s.job.attempt))
  {
  }

  /** An expired lease, however late the sweep: after the lease, within a day of the claim. */
  lemma SweepRetryDeadline(s: StoredJob, now: int)
    requires ExpiredLease(s, now) && s.job.attempt < MAX_ATTEMPTS
    ensures var retry := FailedJob(s.job, LeaseExpired, now).retryAfter;
            var claimed := ClaimedAt(s.job);
            && claimed.Some? && retry.Some?
            && claimed.value < s.job.leaseExpiresAt.value < retry.value <= claimed.value + RETRY_WINDOW_MS
  {
  }

  lemma MoveRetryDeadline(read: StoredJob, next: StoredJob, op: Option<OperationRecord>, now: int)
    requires Moves(read, next, op, now) && next.job.status == Failed && next.job.attempt < MAX_ATTEMPTS
    ensures ClaimedAt(read.job).Some? && next.job.retryAfter.Some?
    ensures var claimed, retry := ClaimedAt(read.job).value, next.job.retryAfter.value;
            && retry <= claimed + RETRY_WINDOW_MS
            && (op.None? || claimed <= now ==> claimed < retry)
  {
  }

  /** In every run: a retry deadline lies after the claim and within a day of it, when
      the acknowledging clock has not fallen behind the claim. */
  lemma EveryRetryDeadline(w: World, i: nat)
    requires Reachable(w) && i < |w.log|
    requires w.log[i].post.job.status == Failed && w.log[i].post.job.attempt < MAX_ATTEMPTS
    ensures ClaimedAt(w.log[i].pre.job).Some? && w.log[i].post.job.retryAfter.Some?
    ensures var claimed, retry := ClaimedAt(w.log[i].pre.job).value, w.log[i].post.job.retryAfter.value;
            && retry <= claimed + RETRY_WINDOW_MS
            && (w.log[i].op.None? || claimed <= w.log[i].now ==> claimed < retry)
  {
    hide Moves, JobShape;
    ReachableInv(w);
    assert EntrySound(w.log, i);
    MoveRetryDeadline(w.log[i].pre, w.log[i].post, w.log[i].op, w.log[i].now);
  }

  // ---------------------------------------------------------------- the answers, column by column

  /** A first-time claim of a reachable job: it is proposed exactly when the job is queued
      at the expected attempt. A queued job never carries a deadline, so the handler's
      own deadline test refuses nothing. */
  lemma FirstClaimAnswers(w: World, service: string, p: ClaimBody, now: int, lease: string)
    requires Reachable(w)
    ensures var d := DecideClaim(service, p, now, None, w.store.Get(p.jobId), lease);
            if p.expectedAttempt < 0 || p.expectedAttempt > 2 then d == Answer(Malformed)
            else if p.jobId !in w.store.jobs then d == Answer(NotFound)
            else
              var s := w.store.jobs[p.jobId];
              if s.job.status == Queued && s.job.attempt == p.expectedAttempt then
                var next := StoredJob(Job(p.jobId, s.job.request, Running, s.job.attempt + 1, Some(lease), Some(now + 900_000),
                                          None, None, None), s.admittedAt, Some(service), s.revision + 1);
                d == Propose(s, next, Some(OperationRecord(OpKey(service, ClaimOp, p.operationId), ClaimPayload(p),
                                                           Claimed(next.job), lease)))
              else d == Answer(if s.job.status == Failed && s.job.attempt == 3 then Exhausted else Conflict)
  {
    ReachableInv(w);
  }

  /** A first-time acknowledgement moves the job exactly when its lease is live and the
      outcome is a failure, or a publication the verifier confirmed and already loaded. */
  lemma FirstAckAnswers(w: World, service: string, p: AckBody, now: int, verified: bool)
    requires Reachable(w)
    ensures var d := DecideAck(service, p, now, None, w.store.Get(p.jobId), verified);
            if p.attempt < 1 || p.attempt > 3 then d == Answer(Malformed)
            else if p.jobId !in w.store.jobs then d == Answer(NotFound)
            else
              var s := w.store.jobs[p.jobId];
              var live := && s.job.status == Running && s.job.attempt == p.attempt && s.leaseOwner == Some(service)
                          && s.job.leaseId == Some(p.leaseId)
                          && s.job.leaseExpiresAt.Some? && s.job.leaseExpiresAt.value > now;
              var last := s.job.attempt == 3;
              var delay := if s.job.attempt == 1 then 300_000 else 1_800_000;
              if live && p.outcome.AckFailed? then
                d == Propose(s, StoredJob(Job(p.jobId, s.job.request, Failed, s.job.attempt, None, None,
                                              if last then None else Some(now + delay),
                                              Some(if last then AttemptsExhausted else Reported(p.outcome.reason)), None),
                                          s.admittedAt, None, s.revision + 1), AckRecord(service, p))
              else if live && verified && p.outcome.publication.loadedAt <= now then
                d == Propose(s, StoredJob(Job(p.jobId, s.job.request, Published, s.job.attempt, None, None, None, None,
                                              Some(p.outcome.publication)),
                                          s.admittedAt, None, s.revision + 1), AckRecord(service, p))
              else d == Answer(Conflict)
  {
    ReachableInv(w);
  }

  /** The record of an accepted acknowledgement. */
  function AckRecord(service: string, p: AckBody): Option<OperationRecord> {
    Some(OperationRecord(OpKey(service, AckOp, p.operationId), AckPayload(p), Accepted, p.leaseId))
  }

  /** A repeated operation: a claim is answered as recorded while the same body finds its
      lease live, an acknowledgement is recognised by its body alone. */
  lemma RepeatAnswers(service: string, body: Body, now: int, prior: OperationRecord, cur: Option<StoredJob>, lease: string, verified: bool)
    requires body.ClaimPayload? ==> 0 <= body.claim.expectedAttempt <= 2
    requires body.AckPayload? ==> 1 <= body.ack.attempt <= 3
    ensures var d := Decide(service, body, now, Some(prior), cur, lease, verified);
            match body
            case AckPayload(_) => d == Answer(if prior.body == body then Replayed else Conflict)
            case ClaimPayload(_) =>
              d == Answer(if prior.body == body && cur.Some? && cur.value.job.status == Running && cur.value.leaseOwner == Some(service)
                             && cur.value.job.leaseId == Some(prior.leaseId) && cur.value.job.leaseExpiresAt.Some?
                             && now < cur.value.job.leaseExpiresAt.value
                          then prior.response else Conflict)
  {
  }
}
