/** What each operation on a result leaves behind, written out column by column, and what
    a released result shows: the answer that its own completing call submitted. */
module ResultAnswers {
  import opened Options
  import opened Results
  import opened ResultRuns
  import opened ResultSafety

  function Earlier(a: int, b: int): int {
    if a < b then a else b
  }

  // ---------------------------------------------------------------- when, and what

  /** A proposal asks for confirmation within a day and before the question ends. */
  lemma ProposeAnswer(current: Binding, accountSub: string, spec: Spec, parentExpiresAt: int, now: int)
    ensures DecidePropose(current, accountSub, spec, parentExpiresAt, now)
            == if spec.requestRevision >= 1 && now < parentExpiresAt && current.revision == spec.requestRevision
                  && current.snapshotId == Some(spec.snapshotId)
               then Some(Result(spec.requestId, accountSub, spec.requestRevision, 1, ConfirmationRequired, spec, 0, None, None, None,
                                None, now, now, Earlier(now + 86_400_000, parentExpiresAt), parentExpiresAt))
               else None
  {
  }

  /** A confirmation is prepared for a row that waits for it, in time, under the binding it
      was proposed for. */
  lemma ConfirmAnswer(current: Binding, r: Result, finished: int)
    ensures DecideConfirm(current, r, finished)
            == if r.state == ConfirmationRequired && finished < r.responseDeadline && finished < r.expiresAt && r.updatedAt <= finished
                  && current.revision == r.requestRevision && current.snapshotId == Some(r.spec.snapshotId)
               then Some(Result(r.requestId, r.accountSub, r.requestRevision, r.revision + 1, Building, r.spec, r.attempt, r.leaseId,
                                r.leaseOwner, r.leaseExpiresAt, r.evidence, r.createdAt, finished, r.responseDeadline, r.expiresAt))
               else None
  {
  }

  /** A claim takes a building row under a lease of at most 900 seconds, three times at the
      most. */
  lemma ClaimAnswer(r: Result, revision: int, service: string, lease: string, now: int)
    ensures DecideClaim(r, revision, service, lease, now)
            == if r.revision == revision && r.state == Building && r.attempt < 3 && now < r.expiresAt && r.updatedAt <= now
                  && r.leaseId != Some(lease)
               then Some(Result(r.requestId, r.accountSub, r.requestRevision, r.revision + 1, InReview, r.spec, r.attempt + 1,
                                Some(lease), Some(service), Some(Earlier(now + 900_000, r.expiresAt)), r.evidence, r.createdAt, now,
                                r.responseDeadline, r.expiresAt))
               else None
  {
  }

  /** A completion is considered for the holder of the live lease only. */
  lemma CompletableExactly(r: Result, revision: int, service: string, lease: string, now: int)
    ensures Completable(r, revision, service, lease, now) <==>
              && r.state == InReview && r.revision == revision && r.leaseId == Some(lease) && r.leaseOwner == Some(service)
              && r.leaseExpiresAt.Some? && now < r.leaseExpiresAt.value && now < r.expiresAt
  {
  }

  /** Verification: the response answers the accepted spec, which is still the bound one. */
  lemma VerifiesExactly(spec: Spec, r: Response, id: string, current: Binding, digest: string, attribution: string)
    ensures Verifies(spec, r, id, current, digest, attribution) <==>
              && Spec(id, current.revision, r.entityId, r.snapshotId, digest, r.artifactKey) == spec
              && current.snapshotId == Some(r.snapshotId) && r.attribution == attribution && |r.attribution| > 0
  {
  }

  /** A completion releases the row with the response's own value and attribution, if the
      binding has not moved since verification and the lease is still live. */
  lemma CompleteAnswer(current: Binding, r: Result, response: Response, verified: Binding, finished: int)
    ensures DecideComplete(current, r, response, verified, finished)
            == if current == verified && r.leaseExpiresAt.Some? && finished < r.leaseExpiresAt.value && finished < r.expiresAt
                  && r.updatedAt <= finished
               then Some(Result(r.requestId, r.accountSub, r.requestRevision, r.revision + 1, Released, r.spec, r.attempt, r.leaseId,
                                r.leaseOwner, None,
                                Some(Evidence(r.spec.artifactKey, r.spec.snapshotId, r.spec.entityId, response.value,
                                              response.attribution, finished)),
                                r.createdAt, finished, r.responseDeadline, r.expiresAt))
               else None
  {
  }

  /** Recovery: a row past its time expires, a row whose lease ran out goes back to building
      or fails at the third attempt; any other row is left alone. */
  lemma RecoverAnswer(r: Result, revision: int, now: int)
    requires r.state != Stale
    ensures DecideRecover(r, revision, now)
            == if r.revision == revision && r.updatedAt <= now && r.state in {ConfirmationRequired, Building, InReview} then
                 var late := r.expiresAt <= now || (r.state == ConfirmationRequired && r.responseDeadline <= now);
                 if late || (r.state == InReview && r.leaseExpiresAt.Some? && r.leaseExpiresAt.value <= now) then
                   Some(Result(r.requestId, r.accountSub, r.requestRevision, r.revision + 1,
                               if late then Expired else if r.attempt < 3 then Building else Failed, r.spec, r.attempt, r.leaseId,
                               r.leaseOwner, None, r.evidence, r.createdAt, now, r.responseDeadline, r.expiresAt))
                 else None
               else None
  {
  }

  /** What the store's statement asks of the database at its own time. */
  lemma WritesExactly(db: Db, before: Option<Result>, next: Result, digest: string, t: int)
    ensures CanWrite(db, before, next, digest, t) <==>
              && next.spec.requestId == next.requestId && next.spec.requestRevision == next.requestRevision
              && next.requestId in db.parents
              && var q, closing := db.parents[next.requestId], next.state == Expired || next.state == Failed;
              && q.accountSub == next.accountSub && q.revision == next.requestRevision && q.expiresAt == next.expiresAt
              && (!closing ==> next.spec.catalogDigest == digest)
              && if before.None? then
                   next.requestId !in db.rows && t < q.expiresAt && db.snapshot == Some(next.spec.snapshotId)
                 else
                   && before.value == before.value.(requestId := next.requestId, accountSub := next.accountSub,
                                                    requestRevision := next.requestRevision, revision := next.revision - 1, spec := next.spec)
                   && next.requestId in db.rows
                   && var r := db.rows[next.requestId];
                   && r.revision == next.revision - 1 && r.requestRevision == next.requestRevision && r.spec == next.spec
                   && (closing || (t < q.expiresAt && db.snapshot == Some(next.spec.snapshotId)))
                   && (r.state == ConfirmationRequired && next.state == Building ==> t < r.responseDeadline)
                   && (next.state == Released ==> r.leaseExpiresAt.Some? && t < r.leaseExpiresAt.value)
  {
  }

  /** And what it stores over the row that was read. */
  lemma StoresThePrepared(db: Db, before: Result, next: Result)
    requires next.requestId in db.rows && db.rows[next.requestId] == before && SameIdentity(before, next)
    ensures Written(db, Some(before), next) == next && Written(db, None, next) == next
  {
  }

  /** Stale rows are not served, all others are. */
  lemma ServedExactly(db: Db, id: string)
    ensures Get(db, id) == if id in db.rows && db.rows[id].state in {ConfirmationRequired, Building, InReview, Released, Failed, Expired}
                           then Some(db.rows[id]) else None
  {
  }

  // ---------------------------------------------------------------- the response behind a release

  /** The submission came from this execution, of the same claim. */
  ghost predicate GivenBy(executions: seq<Execution>, s: Submitted, id: string, revision: int) {
    s.execution.Some? ==>
      && s.execution.value < |executions|
      && var x := executions[s.execution.value];
      && x.response == s.response && x.id == id && x.revision == revision
  }

  /** The response answers the spec. */
  predicate AnswersSpec(r: Response, spec: Spec) {
    r.artifactKey == spec.artifactKey && r.snapshotId == spec.snapshotId && r.entityId == spec.entityId && r.attribution != ""
  }

  /** The row shows the response, as of its last change. */
  predicate Shows(row: Result, r: Response) {
    row.evidence == Some(Evidence(r.artifactKey, r.snapshotId, r.entityId, r.value, r.attribution, row.updatedAt))
  }

  ghost predicate ReleasesAnswer(executions: seq<Execution>, read: Option<Result>, next: Result, s: Option<Submitted>) {
    && read.Some? && s.Some? && next.requestId == read.value.requestId && next.spec == read.value.spec
    && AnswersSpec(s.value.response, next.spec) && Shows(next, s.value.response)
    && GivenBy(executions, s.value, next.requestId, read.value.revision)
  }

  ghost predicate CallKept(executions: seq<Execution>, call: Call) {
    match call
    case Executed(id, revision, _, _, response, x) =>
      x < |executions| && executions[x].response == response && executions[x].id == id && executions[x].revision == revision
    case Completing(read, s) => GivenBy(executions, s, read.requestId, read.revision)
    case Verified(read, s, _) => GivenBy(executions, s, read.requestId, read.revision) && AnswersSpec(s.response, read.spec)
    case Writing(kind, before, next, _, s) => kind == Complete ==> ReleasesAnswer(executions, before, next, s)
    case _ => true
  }

  ghost predicate EntryKept(executions: seq<Execution>, t: Transition) {
    t.kind == Complete ==> ReleasesAnswer(executions, t.read, t.post, t.submission)
  }

  ghost predicate Kept(w: World) {
    && (forall c | c in w.calls :: CallKept(w.executions, w.calls[c]))
    && (forall i | 0 <= i < |w.log| :: EntryKept(w.executions, w.log[i]))
  }

  lemma SetCallStaysKept(w: World, c: nat, call: Call)
    requires Kept(w) && CallKept(w.executions, call)
    ensures Kept(SetCall(w, c, call))
  {
    hide CallKept, EntryKept;
  }

  lemma DropStaysKept(w: World, c: nat)
    requires Kept(w)
    ensures Kept(DropCall(w, c))
  {
    hide CallKept, EntryKept;
  }

  lemma PrepareStaysKept(w: World, c: nat, kind: Kind, before: Option<Result>, next: Option<Result>, execute: bool, s: Option<Submitted>)
    requires Kept(w)
    requires kind == Complete && next.Some? ==> ReleasesAnswer(w.executions, before, next.value, s)
    ensures Kept(Prepare(w, c, kind, before, next, execute, s))
  {
    hide EntryKept, ReleasesAnswer, GivenBy;
    if next.Some? {
      hide Kept;
      SetCallStaysKept(w, c, Writing(kind, before, next.value, execute, s));
    }
  }

  lemma ExecuteStaysKept(w: World, c: nat, e: Event)
    requires Kept(w) && (e.BeginExecute? || e.BeginClaim? || e.Reread? || e.RunExecutor?)
    ensures Kept(ExecuteStep(w, c, e))
  {
    hide DecideClaim, ReleasesAnswer, AnswersSpec, EntryKept;
    match e
    case BeginClaim(_, id, revision, service, lease, now) =>
      hide Kept;
      if Get(w.db, id).Some? {
        PrepareStaysKept(w, c, Claim, Get(w.db, id), DecideClaim(Get(w.db, id).value, revision, service, lease, now),
                         c in w.calls && w.calls[c] == Selected(id, revision, service), None);
      }
    case RunExecutor(_, current, now, response) =>
      hide MayExecute;
      if ExecuteStep(w, c, e).executions != w.executions { MoreExecutions(w, c, e); }
    case _ => hide IsLeased;
  }

  /** What was said of the executions so far stays true of more. */
  lemma MoreExecutions(w: World, c: nat, e: Event)
    requires Kept(w) && e.RunExecutor? && c in w.calls && w.calls[c].Leased?
    requires MayExecute(e.current, w.calls[c].read, e.now) && w.calls[c].read.leaseId.Some?
    ensures Kept(ExecuteStep(w, c, e))
  {
    hide MayExecute;
    var w' := ExecuteStep(w, c, e);
    forall d | d in w'.calls
      ensures CallKept(w'.executions, w'.calls[d])
    {
      if d != c { assert CallKept(w.executions, w.calls[d]); }
    }
    forall i | 0 <= i < |w'.log|
      ensures EntryKept(w'.executions, w'.log[i])
    {
      assert EntryKept(w.executions, w.log[i]);
    }
  }

  lemma CompleteStaysKept(w: World, c: nat, e: Event)
    requires Inv(w) && Kept(w) && (e.BeginComplete? || e.Verify? || e.Recheck?)
    ensures Kept(CompleteStep(w, c, e))
  {
    if c in w.calls { assert CallKept(w.executions, w.calls[c]); }
    hide Inv, Kept, EntryKept;
    match e
    case BeginComplete(_, id, revision, service, leaseId, response, now) =>
      hide ReleasesAnswer, AnswersSpec;
      DropStaysKept(w, c);
      if CompleteStep(w, c, e) != w && Get(w.db, id).Some? && Completable(Get(w.db, id).value, revision, service, leaseId, now) {
        StoredIsFresh(w, id);
        SetCallStaysKept(w, c, CompleteStep(w, c, e).calls[c]);
      }
    case Verify(_, current, digest, attribution) =>
      hide ReleasesAnswer, GivenBy;
      DropStaysKept(w, c);
      if c in w.calls && w.calls[c].Completing? {
        var call := w.calls[c];
        if Verifies(call.read.spec, call.submitted.response, call.read.requestId, current, digest, attribution) {
          SetCallStaysKept(w, c, Verified(call.read, call.submitted, current));
        }
      }
    case Recheck(_, current, finished) =>
      hide GivenBy;
      DropStaysKept(w, c);
      if c in w.calls && w.calls[c].Verified? {
        var call := w.calls[c];
        CompleteAnswer(current, call.read, call.submitted.response, call.binding, finished);
        hide DecideComplete;
        PrepareStaysKept(w, c, Complete, Some(call.read),
                         DecideComplete(current, call.read, call.submitted.response, call.binding, finished), false, Some(call.submitted));
      }
  }

  lemma WriteStaysKept(w: World, c: nat, digest: string, t: int)
    requires Inv(w) && Kept(w)
    ensures Kept(WriteStep(w, c, digest, t))
  {
    if c in w.calls && w.calls[c].Writing? {
      var call := w.calls[c];
      assert CallSound(w.db.rows, w.log, call) && CallKept(w.executions, call);
      hide Inv, CallSound, CanWrite, Written, ReleasesAnswer;
      if CanWrite(w.db, call.before, call.next, digest, t) {
        WinnerReplaces(w, call, digest, t);
        var entry := EntryOf(w, call, call.before, call.next, digest, t);
        assert EntryKept(w.executions, entry);
        hide EntryKept;
        var w' := WriteStep(w, c, digest, t);
        assert w'.executions == w.executions && w'.log == w.log + [entry];
      }
    }
  }

  lemma OtherStepsStayKept(w: World, e: Event)
    requires Kept(w)
    requires e.Question? || e.NextGeneration? || e.Publish? || e.Maintenance? || e.Mapped? || e.BeginPropose? || e.BeginConfirm?
             || e.ConfirmBinding? || e.BeginRecover? || e.Failure?
    ensures Kept(Step(w, e))
  {
    hide DecidePropose, DecideConfirm, DecideRecover, ReleasesAnswer, EntryKept, GivenBy, AnswersSpec, MaintainedRows, Confirmable;
    match e
    case BeginPropose(c, current, accountSub, spec, parentExpiresAt, now) =>
      PrepareStaysKept(w, c, Propose, None, DecidePropose(current, accountSub, spec, parentExpiresAt, now), false, None);
    case BeginConfirm(c, _, _, _, _) =>
    case ConfirmBinding(c, current, finished) =>
      if c in w.calls && w.calls[c].Confirming? {
        var read := w.calls[c].read;
        PrepareStaysKept(w, c, Confirm, Some(read), DecideConfirm(current, read, finished), false, None);
      }
    case BeginRecover(c, id, revision, now) =>
      if Get(w.db, id).Some? {
        PrepareStaysKept(w, c, Recover, Get(w.db, id), DecideRecover(Get(w.db, id).value, revision, now), false, None);
      }
    case _ =>
  }

  lemma StepStaysKept(w: World, e: Event)
    requires Inv(w) && Kept(w)
    ensures Kept(Step(w, e))
  {
    hide Inv, Kept, WriteStep, ExecuteStep, CompleteStep;
    match e
    case Write(c, digest, t) => WriteStaysKept(w, c, digest, t);
    case BeginExecute(c, _, _, _) => ExecuteStaysKept(w, c, e);
    case BeginClaim(c, _, _, _, _, _) => ExecuteStaysKept(w, c, e);
    case Reread(c) => ExecuteStaysKept(w, c, e);
    case RunExecutor(c, _, _, _) => ExecuteStaysKept(w, c, e);
    case BeginComplete(c, _, _, _, _, _, _) => CompleteStaysKept(w, c, e);
    case Verify(c, _, _, _) => CompleteStaysKept(w, c, e);
    case Recheck(c, _, _) => CompleteStaysKept(w, c, e);
    case _ =>
      hide Step;
      OtherStepsStayKept(w, e);
  }

  lemma {:induction false} RunStaysKept(w: World, events: seq<Event>)
    requires Inv(w) && Kept(w)
    ensures Kept(Run(w, events))
  {
    hide Inv, Kept, Step;
    if events != [] {
      RunStaysKept(w, events[..|events| - 1]);
      RunKeepsInv(w, events[..|events| - 1]);
      StepStaysKept(Run(w, events[..|events| - 1]), events[|events| - 1]);
    }
  }

  /** At each release of every run: the row shows the value and the attribution of the
      response its own call submitted, which answered the row's spec. If an execution gave
      that response, it ran for this row, at this attempt, under the claim just completed. */
  lemma ReleaseShowsItsAnswer(w: World, i: nat)
    requires Reachable(w) && i < |w.log| && w.log[i].post.state == Released
    ensures var t := w.log[i];
            && t.submission.Some? && t.read.Some?
            && var r := t.submission.value.response;
            && t.post.evidence == Some(Evidence(r.artifactKey, r.snapshotId, r.entityId, r.value, r.attribution, t.post.updatedAt))
            && r.artifactKey == t.post.spec.artifactKey && r.snapshotId == t.post.spec.snapshotId
            && r.entityId == t.post.spec.entityId && r.attribution != ""
            && (t.submission.value.execution.Some? ==>
                  && t.submission.value.execution.value < |w.executions|
                  && var x := w.executions[t.submission.value.execution.value];
                  && x.response == r && x.id == t.post.requestId && x.revision == t.read.value.revision && x.attempt == t.post.attempt)
  {
    ReleaseIsCurrent(w, i);
    KeptAt(w, i);
    hide Reachable, Inv, Kept, Run;
    var s := w.log[i].submission.value;
    if s.execution.Some? {
      ReachableKeepsInv(w);
      ExecutedAttempt(w, s.execution.value, i);
    }
  }

  lemma KeptAt(w: World, i: nat)
    requires Reachable(w) && i < |w.log|
    ensures EntryKept(w.executions, w.log[i])
  {
    var events :| w == Run(EMPTY, events);
    assert Kept(EMPTY);
    hide EntryKept, CallKept;
    RunKeepsInv(EMPTY, events);
    RunStaysKept(EMPTY, events);
  }

  /** The attempt of an execution is the attempt of the row released from it. */
  lemma ExecutedAttempt(w: World, k: nat, i: nat)
    requires Inv(w) && k < |w.executions| && i < |w.log| && w.log[i].post.state == Released && w.log[i].pre.Some?
    requires w.log[i].kind == Complete && w.log[i].read == w.log[i].pre
    requires w.executions[k].id == w.log[i].post.requestId && w.executions[k].revision == w.log[i].pre.value.revision
    ensures w.executions[k].attempt == w.log[i].post.attempt
  {
    assert EntrySound(w.log[i]);
    ClaimsNumberAttempts(w, w.executions[k].entry);
    assert Shape(w.log[i].post, w.proposedAt[w.log[i].post.requestId]);
  }

  /** And every row that shows as released shows such an answer. */
  lemma ReleasedRowShowsItsAnswer(w: World, id: string)
    requires Reachable(w) && id in w.db.rows && w.db.rows[id].state == Released
    ensures exists i :: 0 <= i < |w.log| && w.log[i].kind == Complete && w.log[i].post == w.db.rows[id]
                        && w.log[i].submission.Some? && Shows(w.db.rows[id], w.log[i].submission.value.response)
  {
    ReleasedRowsWereReleased(w, id);
    var i :| 0 <= i < |w.log| && w.log[i].post == w.db.rows[id] && w.log[i].kind == Complete;
    ReleaseShowsItsAnswer(w, i);
    hide Reachable;
  }

  // ---------------------------------------------------------------- undisturbed operations

  /** The parent, the published snapshot and the deployed catalog are those of the spec, and
      no deadline of the row has passed. */
  predicate Standing(db: Db, row: Result, digest: string, t: int) {
    && row.requestId in db.parents && db.parents[row.requestId] == Parent(row.accountSub, row.requestRevision, row.expiresAt)
    && db.snapshot == Some(row.spec.snapshotId) && row.spec.catalogDigest == digest
    && row.spec.requestId == row.requestId && row.spec.requestRevision == row.requestRevision && t < row.expiresAt
  }

  /** A prepared write over the stored row is stored, logged, and ends its call. */
  lemma PreparedLands(w: World, c: nat, kind: Kind, next: Result, submission: Option<Submitted>, digest: string, t: int)
    requires next.requestId in w.db.rows && SameIdentity(w.db.rows[next.requestId], next) && Standing(w.db, next, digest, t)
    requires next.revision == w.db.rows[next.requestId].revision + 1
    requires next.state == Building && w.db.rows[next.requestId].state == ConfirmationRequired ==> t < next.responseDeadline
    requires next.state == Released ==>
               w.db.rows[next.requestId].leaseExpiresAt.Some? && t < w.db.rows[next.requestId].leaseExpiresAt.value
    ensures var before := Some(w.db.rows[next.requestId]);
            var w' := Step(SetCall(w, c, Writing(kind, before, next, false, submission)), Write(c, digest, t));
            && w' == World(w.db.(rows := w.db.rows[next.requestId := next]), w.proposedAt, w.calls - {c},
                           w.log + [Transition(kind, before, before, next, Some(w.db.parents[next.requestId]), w.db.snapshot, digest, t,
                                               submission)], w.executions)
  {
    var before := w.db.rows[next.requestId];
    WritesExactly(w.db, Some(before), next, digest, t);
    StoresThePrepared(w.db, before, next);
    hide CanWrite, Written;
    assert w.calls[c := Writing(kind, Some(before), next, false, submission)] - {c} == w.calls - {c};
  }

  /** A confirmation in time, by the owner, of the row and under the binding it asks for. */
  lemma ConfirmLands(w: World, c: nat, id: string, now: int, finished: int, digest: string, t: int)
    requires id in w.db.rows && w.db.rows[id].requestId == id && w.db.rows[id].state == ConfirmationRequired && c !in w.calls
    requires var r := w.db.rows[id];
             && Standing(w.db, r, digest, t) && r.updatedAt <= finished
             && now < r.responseDeadline && finished < r.responseDeadline && t < r.responseDeadline
             && now < r.expiresAt && finished < r.expiresAt
    ensures var r := w.db.rows[id];
            var w' := Step(Step(Step(w, BeginConfirm(c, id, r.revision, r.accountSub, now)),
                                ConfirmBinding(c, Binding(r.requestRevision, Some(r.spec.snapshotId)), finished)),
                           Write(c, digest, t));
            && w'.calls == w.calls && w'.db == w.db.(rows := w.db.rows[id := r.(
                 state := Building, revision := r.revision + 1, updatedAt := finished)])
  {
    var r := w.db.rows[id];
    var current := Binding(r.requestRevision, Some(r.spec.snapshotId));
    var next := r.(state := Building, revision := r.revision + 1, updatedAt := finished);
    ConfirmAnswer(current, r, finished);
    hide DecideConfirm;
    var w1 := Step(w, BeginConfirm(c, id, r.revision, r.accountSub, now));
    assert w1 == SetCall(w, c, Confirming(r));
    var w2 := Step(w1, ConfirmBinding(c, current, finished));
    assert w2 == SetCall(w, c, Writing(Confirm, Some(r), next, false, None));
    hide Step;
    PreparedLands(w, c, Confirm, next, None, digest, t);
    assert w.calls - {c} == w.calls;
  }

  lemma CompletionSteps(w: World, c: nat, id: string, s: Submitted, current: Binding, now: int, finished: int, digest: string)
    requires Get(w.db, id).Some? && c !in w.calls && s.execution.None?
    requires var r := w.db.rows[id];
             && r.leaseId.Some? && r.leaseOwner.Some? && Completable(r, r.revision, r.leaseOwner.value, r.leaseId.value, now)
             && Verifies(r.spec, s.response, r.requestId, current, digest, s.response.attribution)
             && DecideComplete(current, r, s.response, current, finished).Some?
    ensures var r := w.db.rows[id];
            var w1 := Step(w, BeginComplete(c, id, r.revision, r.leaseOwner.value, r.leaseId.value, s.response, now));
            var w2 := Step(w1, Verify(c, current, digest, s.response.attribution));
            Step(w2, Recheck(c, current, finished))
            == SetCall(w, c, Writing(Complete, Some(r), DecideComplete(current, r, s.response, current, finished).value, false, Some(s)))
  {
    hide Completable, Verifies, DecideComplete;
    var r := w.db.rows[id];
    var w1 := Step(w, BeginComplete(c, id, r.revision, r.leaseOwner.value, r.leaseId.value, s.response, now));
    assert w1 == SetCall(w, c, Completing(r, s));
    AfterVerify(w, c, r, s, current, digest);
    AfterRecheck(w, c, r, s, current, finished);
    hide Step;
  }

  lemma AfterVerify(w: World, c: nat, r: Result, s: Submitted, current: Binding, digest: string)
    requires Verifies(r.spec, s.response, r.requestId, current, digest, s.response.attribution)
    ensures Step(SetCall(w, c, Completing(r, s)), Verify(c, current, digest, s.response.attribution))
            == SetCall(w, c, Verified(r, s, current))
  {
    hide Verifies;
    assert w.calls[c := Completing(r, s)][c := Verified(r, s, current)] == w.calls[c := Verified(r, s, current)];
  }

  lemma AfterRecheck(w: World, c: nat, r: Result, s: Submitted, current: Binding, finished: int)
    requires DecideComplete(current, r, s.response, current, finished).Some?
    ensures var next := Writing(Complete, Some(r), DecideComplete(current, r, s.response, current, finished).value, false, Some(s));
            Step(SetCall(w, c, Verified(r, s, current)), Recheck(c, current, finished)) == SetCall(w, c, next)
  {
    hide DecideComplete;
    var next := Writing(Complete, Some(r), DecideComplete(current, r, s.response, current, finished).value, false, Some(s));
    assert w.calls[c := Verified(r, s, current)][c := next] == w.calls[c := next];
  }

  /** The row under its new claim. */
  function Held(r: Result, service: string, lease: string, now: int): Result {
    r.(state := InReview, revision := r.revision + 1, attempt := r.attempt + 1, leaseId := Some(lease), leaseOwner := Some(service),
       leaseExpiresAt := Some(Earlier(now + 900_000, r.expiresAt)), updatedAt := now)
  }

  /** The world once the executing route has won the claim that `held` shows. */
  function WonWorld(w: World, c: nat, r: Result, held: Result, service: string, digest: string, t: int): World
    requires r.requestId in w.db.parents
  {
    SetCall(w, c, Won(r.requestId, r.revision, service, |w.log|)).(
      db := w.db.(rows := w.db.rows[r.requestId := held]),
      log := w.log + [Transition(Claim, Some(r), Some(r), held, Some(w.db.parents[r.requestId]), w.db.snapshot, digest, t, None)])
  }

  /** A claim by the executing route, in time and under the binding of the spec. */
  lemma ClaimLands(w: World, c: nat, id: string, service: string, lease: string, now: int, digest: string, t: int)
    requires id in w.db.rows && w.db.rows[id].requestId == id && w.db.rows[id].state == Building && c !in w.calls
    requires var r := w.db.rows[id];
             Standing(w.db, r, digest, t) && r.attempt < 3 && r.updatedAt <= now && now < r.expiresAt && r.leaseId != Some(lease)
    ensures var r := w.db.rows[id];
            Step(Step(Step(w, BeginExecute(c, id, r.revision, service)), BeginClaim(c, id, r.revision, service, lease, now)),
                 Write(c, digest, t))
            == WonWorld(w, c, r, Held(r, service, lease, now), service, digest, t)
  {
    hide Step, DecideClaim, Standing;
    var r := w.db.rows[id];
    ClaimAnswer(r, r.revision, service, lease, now);
    ClaimSteps(w, c, id, service, lease, now, Held(r, service, lease, now));
    ClaimWritten(w, c, r, Held(r, service, lease, now), digest, t);
  }

  /** The reading back of a claimed row, and the executor's run, which is recorded with its
      response. */
  lemma ExecutionRuns(w: World, c: nat, id: string, service: string, lease: string, response: Response, now: int, later: int,
                      digest: string, t: int)
    requires id in w.db.rows && w.db.rows[id].requestId == id && id in w.db.parents && c !in w.calls
    requires later < now + 900_000 && later < w.db.rows[id].expiresAt
    ensures var r := w.db.rows[id];
            var won := WonWorld(w, c, r, Held(r, service, lease, now), service, digest, t);
            var after := Step(Step(won, Reread(c)), RunExecutor(c, Binding(r.requestRevision, Some(r.spec.snapshotId)), later, response));
            && after.db.rows == w.db.rows[id := Held(r, service, lease, now)]
            && after.executions == w.executions + [Execution(id, r.revision + 1, r.attempt + 1, |w.log|, response)]
            && after.calls == w.calls[c := Executed(id, r.revision + 1, service, lease, response, |w.executions|)]
  {
    hide Step;
    var r := w.db.rows[id];
    var held := Held(r, service, lease, now);
    RunsForItsClaim(WonWorld(w, c, r, held, service, digest, t), c, held, service, |w.log|, response, later);
  }

  lemma ClaimSteps(w: World, c: nat, id: string, service: string, lease: string, now: int, held: Result)
    requires id in w.db.rows && w.db.rows[id].state == Building && c !in w.calls
    requires DecideClaim(w.db.rows[id], w.db.rows[id].revision, service, lease, now) == Some(held)
    ensures var r := w.db.rows[id];
            Step(Step(w, BeginExecute(c, id, r.revision, service)), BeginClaim(c, id, r.revision, service, lease, now))
            == SetCall(w, c, Writing(Claim, Some(r), held, true, None))
  {
    hide DecideClaim;
    var r := w.db.rows[id];
    assert Step(w, BeginExecute(c, id, r.revision, service)) == SetCall(w, c, Selected(id, r.revision, service));
    assert w.calls[c := Selected(id, r.revision, service)][c := Writing(Claim, Some(r), held, true, None)]
           == w.calls[c := Writing(Claim, Some(r), held, true, None)];
  }

  lemma ClaimWritten(w: World, c: nat, r: Result, held: Result, digest: string, t: int)
    requires r.requestId in w.db.rows && w.db.rows[r.requestId] == r && Standing(w.db, r, digest, t)
    requires SameIdentity(r, held) && held.revision == r.revision + 1 && held.state == InReview && held.leaseOwner.Some?
    ensures Step(SetCall(w, c, Writing(Claim, Some(r), held, true, None)), Write(c, digest, t))
            == WonWorld(w, c, r, held, held.leaseOwner.value, digest, t)
  {
    WritesExactly(w.db, Some(r), held, digest, t);
    StoresThePrepared(w.db, r, held);
    hide CanWrite, Written;
    var won := Won(r.requestId, r.revision, held.leaseOwner.value, |w.log|);
    assert w.calls[c := Writing(Claim, Some(r), held, true, None)][c := won] == w.calls[c := won];
  }

  lemma RunsForItsClaim(w: World, c: nat, held: Result, service: string, entry: nat, response: Response, later: int)
    requires held.requestId in w.db.rows && w.db.rows[held.requestId] == held && held.state == InReview && held.leaseOwner == Some(service)
    requires held.leaseId.Some? && held.leaseExpiresAt.Some? && later < held.leaseExpiresAt.value && later < held.expiresAt
    requires c in w.calls && w.calls[c] == Won(held.requestId, held.revision - 1, service, entry)
    ensures var current := Binding(held.requestRevision, Some(held.spec.snapshotId));
            var done := Executed(held.requestId, held.revision, service, held.leaseId.value, response, |w.executions|);
            Step(Step(w, Reread(c)), RunExecutor(c, current, later, response))
            == SetCall(w, c, done).(
                 executions := w.executions + [Execution(held.requestId, held.revision, held.attempt, entry, response)])
  {
    var w1 := Step(w, Reread(c));
    assert w1 == SetCall(w, c, Leased(held, service, entry));
    var done := Executed(held.requestId, held.revision, service, held.leaseId.value, response, |w.executions|);
    assert w1.calls[c := done] == w.calls[c := done];
  }

  /** The row once it shows the response. */
  function ReleasedWith(r: Result, response: Response, finished: int): Result {
    r.(state := Released, revision := r.revision + 1, leaseExpiresAt := None, updatedAt := finished,
       evidence := Some(Evidence(r.spec.artifactKey, r.spec.snapshotId, r.spec.entityId, response.value, response.attribution, finished)))
  }

  /** A completion under the live lease whose response verifies. */
  lemma CompleteLands(w: World, c: nat, id: string, response: Response, now: int, finished: int, digest: string, t: int)
    requires id in w.db.rows && w.db.rows[id].requestId == id && w.db.rows[id].state == InReview && c !in w.calls
    requires var r := w.db.rows[id];
             && Standing(w.db, r, digest, t) && r.updatedAt <= finished && r.leaseId.Some? && r.leaseOwner.Some? && r.leaseExpiresAt.Some?
             && now < r.leaseExpiresAt.value && finished < r.leaseExpiresAt.value && t < r.leaseExpiresAt.value
             && now < r.expiresAt && finished < r.expiresAt && AnswersSpec(response, r.spec)
    ensures var r := w.db.rows[id];
            var current := Binding(r.requestRevision, Some(r.spec.snapshotId));
            var w' := Step(Step(Step(Step(w, BeginComplete(c, id, r.revision, r.leaseOwner.value, r.leaseId.value, response, now)),
                                     Verify(c, current, digest, response.attribution)),
                                Recheck(c, current, finished)),
                           Write(c, digest, t));
            w'.calls == w.calls && w'.db == w.db.(rows := w.db.rows[id := ReleasedWith(r, response, finished)])
  {
    var r := w.db.rows[id];
    var current := Binding(r.requestRevision, Some(r.spec.snapshotId));
    var next := ReleasedWith(r, response, finished);
    hide Step, Completable, Verifies, DecideComplete;
    var s := Submitted(response, None);
    CompletableExactly(r, r.revision, r.leaseOwner.value, r.leaseId.value, now);
    VerifiesExactly(r.spec, response, id, current, digest, response.attribution);
    CompleteAnswer(current, r, response, current, finished);
    CompletionSteps(w, c, id, s, current, now, finished, digest);
    PreparedLands(w, c, Complete, next, Some(s), digest, t);
    assert w.calls - {c} == w.calls;
  }

  // ---------------------------------------------------------------- every step

  /** A run is its steps, one after the other. */
  lemma RunsInOrder(w: World, events: seq<Event>, e: Event)
    ensures Run(w, []) == w && Run(w, events + [e]) == Step(Run(w, events), e)
  {
    assert (events + [e])[..|events + [e]| - 1] == events;
  }

  /** A prepared write waits; nothing prepared ends the call. */
  function Waits(w: World, c: nat, kind: Kind, before: Option<Result>, next: Option<Result>, execute: bool, s: Option<Submitted>): World {
    w.(calls := match next
                case None => w.calls - {c}
                case Some(n) => w.calls[c := Writing(kind, before, n, execute, s)])
  }

  /** A row that is served. */
  predicate Served(w: World, id: string) {
    id in w.db.rows && w.db.rows[id].state != Stale
  }

  /** Who may begin, and with which row: a confirmation is the owner's own, of the revision
      it shows. */
  lemma OwnerSteps(w: World, e: Event)
    requires e.BeginPropose? || e.BeginConfirm? || e.ConfirmBinding? || e.BeginRecover?
    ensures match e
            case BeginPropose(c, current, accountSub, spec, parentExpiresAt, now) =>
              Step(w, e) == if c in w.calls then w
                            else Waits(w, c, Propose, None, DecidePropose(current, accountSub, spec, parentExpiresAt, now), false, None)
            case BeginConfirm(c, id, revision, accountSub, now) =>
              Step(w, e) == if c !in w.calls && Served(w, id) && w.db.rows[id].accountSub == accountSub && w.db.rows[id].revision == revision
                               && w.db.rows[id].state == ConfirmationRequired && now < w.db.rows[id].responseDeadline
                               && now < w.db.rows[id].expiresAt
                            then w.(calls := w.calls[c := Confirming(w.db.rows[id])]) else w
            case ConfirmBinding(c, current, finished) =>
              Step(w, e) == if c !in w.calls || !w.calls[c].Confirming? then w
                            else Waits(w, c, Confirm, Some(w.calls[c].read), DecideConfirm(current, w.calls[c].read, finished), false, None)
            case BeginRecover(c, id, revision, now) =>
              Step(w, e) == if c in w.calls || !Served(w, id) then w
                            else Waits(w, c, Recover, Some(w.db.rows[id]), DecideRecover(w.db.rows[id], revision, now), false, None)
  {
    hide DecidePropose, DecideConfirm, DecideRecover;
  }

  /** The executing route: it selects a building row, claims it as it reads it again, reads
      back the row of its claim, and runs the executor while the binding stands and the
      lease lives. */
  lemma ExecutorSteps(w: World, e: Event)
    requires e.BeginExecute? || e.BeginClaim? || e.Reread? || e.RunExecutor?
    ensures match e
            case BeginExecute(c, id, revision, service) =>
              Step(w, e) == if c !in w.calls && id in w.db.rows && w.db.rows[id].state == Building && w.db.rows[id].revision == revision
                            then w.(calls := w.calls[c := Selected(id, revision, service)]) else w
            case BeginClaim(c, id, revision, service, lease, now) =>
              var selected := c in w.calls && w.calls[c] == Selected(id, revision, service);
              Step(w, e) == if (c in w.calls && !selected) || !Served(w, id) then w
                            else Waits(w, c, Claim, Some(w.db.rows[id]), DecideClaim(w.db.rows[id], revision, service, lease, now),
                                       selected, None)
            case Reread(c) =>
              Step(w, e) == if c !in w.calls || !w.calls[c].Won? then w
                            else
                              var won := w.calls[c];
                              if won.id in w.db.rows && w.db.rows[won.id].state == InReview && w.db.rows[won.id].revision == won.revision + 1
                                 && w.db.rows[won.id].leaseOwner == Some(won.service) && w.db.rows[won.id].leaseId != None
                              then w.(calls := w.calls[c := Leased(w.db.rows[won.id], won.service, won.entry)])
                              else w.(calls := w.calls - {c})
            case RunExecutor(c, current, now, response) =>
              Step(w, e) == if c !in w.calls || !w.calls[c].Leased? then w
                            else
                              var r := w.calls[c].read;
                              if current.revision == r.requestRevision && current.snapshotId == Some(r.spec.snapshotId)
                                 && r.leaseId.Some? && r.leaseExpiresAt.Some? && now < r.leaseExpiresAt.value && now < r.expiresAt
                              then w.(calls := w.calls[c := Executed(r.requestId, r.revision, w.calls[c].service, r.leaseId.value, response,
                                                                     |w.executions|)],
                                      executions := w.executions + [Execution(r.requestId, r.revision, r.attempt, w.calls[c].entry, response)])
                              else w.(calls := w.calls - {c})
  {
    hide DecideClaim;
  }

  /** A completion: submitted by the executing call with what its execution gave, or from
      outside; verified; and prepared. */
  lemma CompleterSteps(w: World, e: Event)
    requires e.BeginComplete? || e.Verify? || e.Recheck?
    ensures match e
            case BeginComplete(c, id, revision, service, leaseId, response, now) =>
              var own := c in w.calls && w.calls[c].Executed? && w.calls[c].id == id && w.calls[c].revision == revision
                         && w.calls[c].service == service && w.calls[c].leaseId == leaseId && w.calls[c].response == response;
              Step(w, e) == if c in w.calls && !own then w
                            else if Served(w, id) && Completable(w.db.rows[id], revision, service, leaseId, now) then
                              w.(calls := w.calls[c := Completing(w.db.rows[id],
                                                                  Submitted(response, if own then Some(w.calls[c].execution) else None))])
                            else w.(calls := w.calls - {c})
            case Verify(c, current, digest, attribution) =>
              Step(w, e) == if c !in w.calls || !w.calls[c].Completing? then w
                            else
                              var r, s := w.calls[c].read, w.calls[c].submitted;
                              w.(calls := if Verifies(r.spec, s.response, r.requestId, current, digest, attribution)
                                          then w.calls[c := Verified(r, s, current)] else w.calls - {c})
            case Recheck(c, current, finished) =>
              Step(w, e) == if c !in w.calls || !w.calls[c].Verified? then w
                            else
                              var r, s, bound := w.calls[c].read, w.calls[c].submitted, w.calls[c].binding;
                              Waits(w, c, Complete, Some(r), DecideComplete(current, r, s.response, bound, finished), false, Some(s))
  {
    hide Completable, Verifies, DecideComplete;
  }

  /** A write: refused, it ends its call; stored, it is logged with what it replaced, and a
      claim of the executing route holds its place for one execution. */
  lemma WriteSteps(w: World, c: nat, digest: string, t: int)
    ensures Step(w, Write(c, digest, t))
            == if c !in w.calls || !w.calls[c].Writing? then w
               else
                 var call, id := w.calls[c], w.calls[c].next.requestId;
                 if !CanWrite(w.db, call.before, call.next, digest, t) then w.(calls := w.calls - {c})
                 else
                   var pre := if id in w.db.rows then Some(w.db.rows[id]) else None;
                   var post := Written(w.db, call.before, call.next);
                   World(w.db.(rows := w.db.rows[id := post]),
                         if call.before.None? then w.proposedAt[id := call.next.revision] else w.proposedAt,
                         if call.execute && call.next.leaseOwner.Some?
                         then w.calls[c := Won(id, call.next.revision - 1, call.next.leaseOwner.value, |w.log|)] else w.calls - {c},
                         w.log + [Transition(call.kind, call.before, pre, post, if id in w.db.parents then Some(w.db.parents[id]) else None,
                                             w.db.snapshot, digest, t, call.submission)],
                         w.executions)
  {
    hide CanWrite, Written;
  }

  /** What may happen around the calls: questions and their generations, publications, rows
      from triage, maintenance, and calls that fail. */
  lemma OutsideSteps(w: World, e: Event)
    requires e.Question? || e.NextGeneration? || e.Publish? || e.Maintenance? || e.Mapped? || e.Failure?
    ensures match e
            case Question(id, q) =>
              Step(w, e) == if id !in w.db.parents && 1 <= q.revision then w.(db := w.db.(parents := w.db.parents[id := q])) else w
            case NextGeneration(id, revision) =>
              Step(w, e) == if id in w.db.parents && w.db.parents[id].revision < revision
                            then w.(db := w.db.(parents := w.db.parents[id := Parent(w.db.parents[id].accountSub, revision,
                                                                                    w.db.parents[id].expiresAt)]))
                            else w
            case Publish(snapshotId) => Step(w, e) == w.(db := Db(w.db.rows, w.db.parents, Some(snapshotId)))
            case Maintenance(id, digest, t) => Step(w, e) == w.(db := w.db.(rows := MaintainedRows(w.db, id, digest, t)))
            case Mapped(row) =>
              Step(w, e) == if row.requestId !in w.db.rows && row.state == ConfirmationRequired && 1 <= row.revision && row.attempt == 0
                               && row.leaseExpiresAt == None && row.evidence == None && row.spec.requestId == row.requestId
                               && row.spec.requestRevision == row.requestRevision
                            then w.(db := w.db.(rows := w.db.rows[row.requestId := row]),
                                    proposedAt := w.proposedAt[row.requestId := row.revision])
                            else w
            case Failure(c) => Step(w, e) == w.(calls := w.calls - {c})
  {
    hide MaintainedRows;
  }
}
