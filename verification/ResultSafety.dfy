/** What every run of the result lifecycle keeps, and what follows from it. */
module ResultSafety {
  import opened Options
  import opened Results
  import opened ResultRuns

  // ---------------------------------------------------------------- the invariant

  predicate EvidenceMatches(r: Result) {
    && r.evidence.Some?
    && var e := r.evidence.value;
    && e.artifactKey == r.spec.artifactKey && e.snapshotId == r.spec.snapshotId && e.entityId == r.spec.entityId
    && e.attribution != "" && e.verifiedAt == r.updatedAt
  }

  /** State and attempt fix the revision, counted from the proposal at `r0`. */
  predicate Shape(r: Result, r0: int) {
    && r0 >= 1
    && r.spec.requestId == r.requestId && r.spec.requestRevision == r.requestRevision
    && (r.leaseExpiresAt.Some? <==> r.state == InReview)
    && (r.evidence.Some? <==> r.state == Released)
    && match r.state
       case ConfirmationRequired => r.attempt == 0 && r.revision == r0
       case Building => 0 <= r.attempt <= 2 && r.revision == r0 + 1 + 2 * r.attempt
       case InReview => 1 <= r.attempt <= 3 && r.revision == r0 + 2 * r.attempt
       case Released => 1 <= r.attempt <= 3 && r.revision == r0 + 1 + 2 * r.attempt && EvidenceMatches(r)
       case Failed => r.attempt == 3 && r.revision == r0 + 7
       case Expired => 0 <= r.attempt <= 3 && r0 + 1 <= r.revision <= r0 + 7
       case Stale => 0 <= r.attempt <= 3 && r0 + 1 <= r.revision <= r0 + 8
  }

  predicate SameIdentity(a: Result, b: Result) {
    && a.requestId == b.requestId && a.accountSub == b.accountSub && a.requestRevision == b.requestRevision
    && a.spec == b.spec && a.createdAt == b.createdAt && a.responseDeadline == b.responseDeadline && a.expiresAt == b.expiresAt
  }

  ghost predicate RowsShaped(rows: map<string, Result>, proposedAt: map<string, int>) {
    forall id | id in rows :: id in proposedAt && rows[id].requestId == id && Shape(rows[id], proposedAt[id])
  }

  /** A read is the stored row or an older revision of the same result. */
  ghost predicate Fresh(rows: map<string, Result>, read: Result) {
    && read.requestId in rows
    && var cur := rows[read.requestId];
    && SameIdentity(read, cur) && read.revision <= cur.revision && (read.revision == cur.revision ==> read == cur)
  }

  /** What each operation may write over what it read. */
  predicate Moves(kind: Kind, read: Option<Result>, next: Result) {
    match kind
    case Propose => read.None? && Asking(next) && next.revision == 1
    case _ => read.Some? && Succeeds(kind, read.value, next)
  }

  predicate Succeeds(kind: Kind, read: Result, next: Result) {
    && SameIdentity(read, next) && next.revision == read.revision + 1 && read.updatedAt <= next.updatedAt
    && match kind
       case Propose => false
       case Confirm => read.state == ConfirmationRequired
                       && next == read.(state := Building, revision := next.revision, updatedAt := next.updatedAt)
       case Claim => read.state == Building && read.attempt <= 2 && next.state == InReview && next.attempt == read.attempt + 1
                     && next.leaseId.Some? && next.leaseId != read.leaseId && next.leaseOwner.Some? && next.leaseExpiresAt.Some?
                     && next.leaseExpiresAt.value <= next.updatedAt + LEASE_MS && next.evidence == read.evidence
       case Complete => read.state == InReview && next.state == Released && next.attempt == read.attempt
                        && EvidenceMatches(next) && next.leaseExpiresAt.None?
                        && read.leaseExpiresAt.Some? && next.updatedAt < read.leaseExpiresAt.value
       case Recover => next.attempt == read.attempt && next.evidence == read.evidence && next.leaseExpiresAt.None?
                       && (if next.state == Expired then read.state in {ConfirmationRequired, Building, InReview}
                           else read.state == InReview && next.state == if read.attempt >= MAX_ATTEMPTS then Failed else Building)
  }

  ghost predicate IsClaim(log: seq<Transition>, entry: nat, id: string, revision: int, service: string) {
    && entry < |log| && log[entry].kind == Claim && log[entry].post.requestId == id
    && log[entry].post.revision == revision && log[entry].post.leaseOwner == Some(service)
  }

  ghost predicate CallSound(rows: map<string, Result>, log: seq<Transition>, call: Call) {
    match call
    case Confirming(read) => Fresh(rows, read) && read.state == ConfirmationRequired
    case Selected(_, _, _) => true
    case Won(id, revision, service, entry) => IsClaim(log, entry, id, revision + 1, service)
    case Leased(read, service, entry) => Fresh(rows, read) && IsClaim(log, entry, read.requestId, read.revision, service)
                                         && read.attempt == log[entry].post.attempt
    case Executed(_, _, _, _, _, _) => true
    case Completing(read, _) => Fresh(rows, read) && read.state == InReview
    case Verified(read, submitted, binding) =>
      && Fresh(rows, read) && read.state == InReview
      && binding == Binding(read.spec.requestRevision, Some(read.spec.snapshotId)) && submitted.response.attribution != ""
    case Writing(kind, before, next, execute, _) =>
      && Moves(kind, before, next) && (before.Some? ==> Fresh(rows, before.value)) && (execute ==> kind == Claim)
  }

  ghost predicate CallsSound(rows: map<string, Result>, log: seq<Transition>, calls: map<nat, Call>) {
    forall c | c in calls :: CallSound(rows, log, calls[c])
  }

  /** A committed write replaced what was read, under the store's fences. */
  ghost predicate EntrySound(t: Transition) {
    && t.read == t.pre && Moves(t.kind, t.pre, t.post)
    && t.parent.Some? && t.parent.value.accountSub == t.post.accountSub
    && t.parent.value.revision == t.post.requestRevision && t.parent.value.expiresAt == t.post.expiresAt
    && (!Closing(t.post.state) ==>
          t.snapshot == Some(t.post.spec.snapshotId) && t.digest == t.post.spec.catalogDigest && t.dbNow < t.post.expiresAt)
    && (t.kind == Confirm ==> t.dbNow < t.post.responseDeadline)
    && (t.kind == Complete ==> t.pre.value.leaseExpiresAt.Some? && t.dbNow < t.pre.value.leaseExpiresAt.value)
  }

  /** Committed rows are stored or superseded, and their revisions grow. */
  ghost predicate LogSound(rows: map<string, Result>, log: seq<Transition>) {
    && (forall i | 0 <= i < |log| :: EntrySound(log[i]) && Fresh(rows, log[i].post))
    && (forall i, j | 0 <= i < j < |log| && log[i].post.requestId == log[j].post.requestId ::
          log[i].post.revision < log[j].post.revision)
  }

  ghost predicate PostsShaped(log: seq<Transition>, proposedAt: map<string, int>) {
    forall i | 0 <= i < |log| :: log[i].post.requestId in proposedAt && Shape(log[i].post, proposedAt[log[i].post.requestId])
  }

  ghost predicate ReleasesLogged(rows: map<string, Result>, log: seq<Transition>) {
    forall id | id in rows && rows[id].state == Released :: exists i :: 0 <= i < |log| && log[i].post == rows[id]
  }

  function Token(call: Call): Option<nat> {
    if call.Won? || call.Leased? then Some(call.entry) else None
  }

  /** One claim, one chance at the executor. */
  ghost predicate TokensApart(calls: map<nat, Call>, size: nat, executions: seq<Execution>) {
    && (forall c | c in calls && Token(calls[c]).Some? :: Token(calls[c]).value < size)
    && (forall c, d | c in calls && d in calls && c != d && Token(calls[c]).Some? :: Token(calls[c]) != Token(calls[d]))
    && (forall c, i | c in calls && Token(calls[c]).Some? && 0 <= i < |executions| :: Token(calls[c]).value != executions[i].entry)
    && (forall i, j | 0 <= i < j < |executions| :: executions[i].entry != executions[j].entry)
  }

  ghost predicate ExecutionsClaimed(log: seq<Transition>, executions: seq<Execution>) {
    forall i | 0 <= i < |executions| ::
      var x := executions[i];
      && x.entry < |log| && log[x.entry].kind == Claim && log[x.entry].post.requestId == x.id
      && log[x.entry].post.revision == x.revision && log[x.entry].post.attempt == x.attempt
  }

  ghost predicate Inv(w: World) {
    && RowsShaped(w.db.rows, w.proposedAt)
    && CallsSound(w.db.rows, w.log, w.calls)
    && LogSound(w.db.rows, w.log)
    && PostsShaped(w.log, w.proposedAt)
    && ReleasesLogged(w.db.rows, w.log)
    && TokensApart(w.calls, |w.log|, w.executions)
    && ExecutionsClaimed(w.log, w.executions)
  }

  // ---------------------------------------------------------------- decisions

  lemma ClaimMoves(row: Result, revision: int, service: string, lease: string, now: int)
    ensures var n := DecideClaim(row, revision, service, lease, now); n.Some? ==> Moves(Claim, Some(row), n.value)
  {
  }

  lemma RecoverMoves(row: Result, revision: int, now: int)
    requires row.state != Stale
    ensures var n := DecideRecover(row, revision, now); n.Some? ==> Moves(Recover, Some(row), n.value)
  {
  }

  lemma ConfirmMoves(current: Binding, row: Result, finished: int)
    ensures var n := DecideConfirm(current, row, finished); n.Some? ==> Moves(Confirm, Some(row), n.value)
  {
  }

  lemma CompleteMoves(current: Binding, row: Result, r: Response, verified: Binding, finished: int)
    requires row.state == InReview && r.attribution != ""
    ensures var n := DecideComplete(current, row, r, verified, finished); n.Some? ==> Moves(Complete, Some(row), n.value)
  {
  }

  lemma ProposeMoves(current: Binding, accountSub: string, spec: Spec, parentExpiresAt: int, now: int)
    ensures var n := DecidePropose(current, accountSub, spec, parentExpiresAt, now); n.Some? ==> Moves(Propose, None, n.value)
  {
  }

  // ---------------------------------------------------------------- steps that write nothing

  lemma SetCallKeepsInv(w: World, c: nat, call: Call)
    requires Inv(w) && CallSound(w.db.rows, w.log, call)
    requires Token(call).Some? ==> c in w.calls && Token(call) == Token(w.calls[c])
    ensures Inv(SetCall(w, c, call))
  {
    hide CallSound, RowsShaped, LogSound, PostsShaped, ReleasesLogged, ExecutionsClaimed;
  }

  lemma DropCallKeepsInv(w: World, c: nat)
    requires Inv(w)
    ensures Inv(DropCall(w, c))
  {
    hide CallSound, RowsShaped, LogSound, PostsShaped, ReleasesLogged, ExecutionsClaimed;
  }

  lemma PrepareKeepsInv(w: World, c: nat, kind: Kind, before: Option<Result>, next: Option<Result>, execute: bool,
                         submitted: Option<Submitted>)
    requires Inv(w)
    requires next.Some? ==> Moves(kind, before, next.value)
    requires before.Some? ==> Fresh(w.db.rows, before.value)
    requires execute ==> kind == Claim
    ensures Inv(Prepare(w, c, kind, before, next, execute, submitted))
  {
    hide Inv, Moves;
    if next.Some? {
      SetCallKeepsInv(w, c, Writing(kind, before, next.value, execute, submitted));
    } else {
      DropCallKeepsInv(w, c);
    }
  }

  lemma StoredIsFresh(w: World, id: string)
    requires Inv(w) && Get(w.db, id).Some?
    ensures Fresh(w.db.rows, Get(w.db, id).value) && Get(w.db, id).value.requestId == id
  {
  }

  lemma ExecuteStepKeepsInv(w: World, c: nat, e: Event)
    requires Inv(w) && (e.BeginExecute? || e.BeginClaim? || e.Reread?)
    ensures Inv(ExecuteStep(w, c, e))
  {
    hide Inv, DecideClaim, Moves;
    match e
    case BeginExecute(_, id, revision, service) =>
      if ExecuteStep(w, c, e) != w { SetCallKeepsInv(w, c, Selected(id, revision, service)); }
    case BeginClaim(_, id, revision, service, lease, now) =>
      if Get(w.db, id).Some? {
        StoredIsFresh(w, id);
        var row := Get(w.db, id).value;
        ClaimMoves(row, revision, service, lease, now);
        PrepareKeepsInv(w, c, Claim, Some(row), DecideClaim(row, revision, service, lease, now),
                        c in w.calls && w.calls[c] == Selected(id, revision, service), None);
      }
    case Reread(_) =>
      if c in w.calls && w.calls[c].Won? {
        var call := w.calls[c];
        if IsLeased(Get(w.db, call.id), call.revision, call.service) {
          StoredIsFresh(w, call.id);
          RereadFindsItsClaim(w, c);
          SetCallKeepsInv(w, c, Leased(Get(w.db, call.id).value, call.service, call.entry));
        } else {
          DropCallKeepsInv(w, c);
        }
      }
  }

  /** What the winner of a claim reads back at the claimed revision is what it wrote. */
  lemma RereadFindsItsClaim(w: World, c: nat)
    requires Inv(w) && c in w.calls && w.calls[c].Won?
    requires IsLeased(Get(w.db, w.calls[c].id), w.calls[c].revision, w.calls[c].service)
    ensures w.calls[c].entry < |w.log| && Get(w.db, w.calls[c].id) == Some(w.log[w.calls[c].entry].post)
    ensures CallSound(w.db.rows, w.log, Leased(Get(w.db, w.calls[c].id).value, w.calls[c].service, w.calls[c].entry))
  {
    var call := w.calls[c];
    assert CallSound(w.db.rows, w.log, call);
    assert Fresh(w.db.rows, w.log[call.entry].post);
  }

  lemma ExecutingSpendsToken(calls: map<nat, Call>, size: nat, executions: seq<Execution>, c: nat, done: Call, x: Execution)
    requires TokensApart(calls, size, executions) && c in calls && Token(calls[c]) == Some(x.entry) && Token(done).None?
    ensures TokensApart(calls[c := done], size, executions + [x])
  {
  }

  lemma ExecutingKeepsClaimed(log: seq<Transition>, executions: seq<Execution>, x: Execution)
    requires ExecutionsClaimed(log, executions)
    requires x.entry < |log| && log[x.entry].kind == Claim && log[x.entry].post.requestId == x.id
    requires log[x.entry].post.revision == x.revision && log[x.entry].post.attempt == x.attempt
    ensures ExecutionsClaimed(log, executions + [x])
  {
  }

  lemma RunExecutorKeepsInv(w: World, c: nat, current: Binding, now: int, response: Response)
    requires Inv(w)
    ensures Inv(ExecuteStep(w, c, RunExecutor(c, current, now, response)))
  {
    if c in w.calls && w.calls[c].Leased? {
      var call := w.calls[c];
      assert CallSound(w.db.rows, w.log, call);
      hide RowsShaped, LogSound, PostsShaped, ReleasesLogged, Fresh, TokensApart, ExecutionsClaimed;
      if MayExecute(current, call.read, now) && call.read.leaseId.Some? {
        var done := Executed(call.read.requestId, call.read.revision, call.service, call.read.leaseId.value, response, |w.executions|);
        var x := Execution(call.read.requestId, call.read.revision, call.read.attempt, call.entry, response);
        assert CallsSound(w.db.rows, w.log, w.calls[c := done]);
        hide CallsSound;
        ExecutingSpendsToken(w.calls, |w.log|, w.executions, c, done, x);
        ExecutingKeepsClaimed(w.log, w.executions, x);
      } else {
        hide CallsSound, CallSound, MayExecute;
        DropCallKeepsInv(w, c);
      }
    }
  }

  lemma BeginCompleteKeepsInv(w: World, c: nat, e: Event)
    requires Inv(w) && e.BeginComplete? && CompleteStep(w, c, e) != w
    ensures Inv(CompleteStep(w, c, e))
  {
    hide Inv, Fresh;
    DropCallKeepsInv(w, c);
    if Get(w.db, e.id).Some? && Completable(Get(w.db, e.id).value, e.revision, e.service, e.leaseId, e.now) {
      StoredIsFresh(w, e.id);
      SetCallKeepsInv(w, c, CompleteStep(w, c, e).calls[c]);
    }
  }

  lemma CompleteStepKeepsInv(w: World, c: nat, e: Event)
    requires Inv(w) && (e.BeginComplete? || e.Verify? || e.Recheck?)
    ensures Inv(CompleteStep(w, c, e))
  {
    if c in w.calls { assert CallSound(w.db.rows, w.log, w.calls[c]); }
    hide Inv, DecideComplete, Moves, Fresh;
    match e
    case BeginComplete(_, id, revision, service, leaseId, response, now) =>
      if CompleteStep(w, c, e) != w { BeginCompleteKeepsInv(w, c, e); }
    case Verify(_, current, digest, attribution) =>
      if c in w.calls && w.calls[c].Completing? {
        var call := w.calls[c];
        if Verifies(call.read.spec, call.submitted.response, call.read.requestId, current, digest, attribution) {
          SetCallKeepsInv(w, c, Verified(call.read, call.submitted, current));
        } else {
          DropCallKeepsInv(w, c);
        }
      }
    case Recheck(_, current, finished) =>
      if c in w.calls && w.calls[c].Verified? {
        var call := w.calls[c];
        CompleteMoves(current, call.read, call.submitted.response, call.binding, finished);
        PrepareKeepsInv(w, c, Complete, Some(call.read),
                        DecideComplete(current, call.read, call.submitted.response, call.binding, finished), false,
                        Some(call.submitted));
      }
  }

  // ---------------------------------------------------------------- writes

  lemma MovesKeepShape(kind: Kind, read: Result, next: Result, r0: int)
    requires Succeeds(kind, read, next) && Shape(read, r0)
    ensures Shape(next, r0)
  {
  }

  lemma MaintainedKeepsShape(r: Result, t: int, r0: int)
    requires Shape(r, r0) && r.state in {ConfirmationRequired, Building, InReview, Released}
    ensures Shape(Maintained(r, t), r0) && SameIdentity(r, Maintained(r, t)) && Maintained(r, t).state in {Expired, Stale}
  {
  }

  /** Rows only ever advance: same identity, higher revision. */
  ghost predicate Advances(rows: map<string, Result>, rows': map<string, Result>) {
    forall id | id in rows ::
      id in rows' && (rows'[id] == rows[id] || (SameIdentity(rows[id], rows'[id]) && rows[id].revision < rows'[id].revision))
  }

  lemma AdvancingKeepsFresh(rows: map<string, Result>, rows': map<string, Result>, read: Result)
    requires Advances(rows, rows') && Fresh(rows, read)
    ensures Fresh(rows', read)
  {
  }

  lemma AdvancingKeepsCalls(rows: map<string, Result>, rows': map<string, Result>, log: seq<Transition>,
                            more: seq<Transition>, calls: map<nat, Call>)
    requires Advances(rows, rows') && CallsSound(rows, log, calls)
    ensures CallsSound(rows', log + more, calls)
  {
    forall c | c in calls
      ensures CallSound(rows', log + more, calls[c])
    {
      var call := calls[c];
      assert CallSound(rows, log, call);
      hide Advances, Fresh, Moves;
      match call
      case Confirming(read) => AdvancingKeepsFresh(rows, rows', read);
      case Leased(read, _, _) => AdvancingKeepsFresh(rows, rows', read);
      case Completing(read, _) => AdvancingKeepsFresh(rows, rows', read);
      case Verified(read, _, _) => AdvancingKeepsFresh(rows, rows', read);
      case Writing(_, before, _, _, _) => if before.Some? { AdvancingKeepsFresh(rows, rows', before.value); }
      case _ =>
    }
  }

  lemma AdvancingKeepsLog(rows: map<string, Result>, rows': map<string, Result>, log: seq<Transition>)
    requires Advances(rows, rows') && LogSound(rows, log)
    ensures LogSound(rows', log)
  {
    hide EntrySound, Advances, Fresh;
    forall i | 0 <= i < |log|
      ensures EntrySound(log[i]) && Fresh(rows', log[i].post)
    {
      AdvancingKeepsFresh(rows, rows', log[i].post);
    }
  }

  /** A write that wins: it read the stored row, and stores exactly what it prepared. */
  lemma WinnerReplaces(w: World, call: Call, digest: string, t: int)
    requires Inv(w) && call.Writing? && CallSound(w.db.rows, w.log, call)
    requires CanWrite(w.db, call.before, call.next, digest, t)
    ensures Written(w.db, call.before, call.next) == call.next
    ensures Stored(w.db, call.next.requestId) == call.before
  {
    hide CallsSound, LogSound, PostsShaped, ReleasesLogged, TokensApart, ExecutionsClaimed, RowsShaped;
  }

  lemma WinnerEntrySound(w: World, call: Call, digest: string, t: int)
    requires Inv(w) && call.Writing? && CallSound(w.db.rows, w.log, call)
    requires CanWrite(w.db, call.before, call.next, digest, t)
    ensures EntrySound(EntryOf(w, call, call.before, call.next, digest, t))
  {
    WinnerReplaces(w, call, digest, t);
    hide CallsSound, LogSound, PostsShaped, ReleasesLogged, TokensApart, ExecutionsClaimed, RowsShaped, Inv;
  }

  ghost predicate Winning(w: World, call: Call, digest: string, t: int) {
    call.Writing? && CallSound(w.db.rows, w.log, call) && CanWrite(w.db, call.before, call.next, digest, t)
  }

  lemma WriteKeepsRows(w: World, call: Call, digest: string, t: int)
    requires Inv(w) && Winning(w, call, digest, t)
    ensures var id := call.next.requestId;
            var rows' := w.db.rows[id := call.next];
            var proposedAt' := if call.before.None? then w.proposedAt[id := call.next.revision] else w.proposedAt;
            && RowsShaped(rows', proposedAt')
            && PostsShaped(w.log + [EntryOf(w, call, call.before, call.next, digest, t)], proposedAt')
            && Advances(w.db.rows, rows')
            && (forall i | 0 <= i < |w.log| && w.log[i].post.requestId == id :: w.log[i].post.revision < call.next.revision)
  {
    WinnerReplaces(w, call, digest, t);
    var id := call.next.requestId;
    forall i | 0 <= i < |w.log| && w.log[i].post.requestId == id
      ensures w.log[i].post.revision < call.next.revision
    {
      assert Fresh(w.db.rows, w.log[i].post);
    }
    hide LogSound, CallsSound, ReleasesLogged, TokensApart, ExecutionsClaimed, CanWrite;
    if call.before.Some? { MovesKeepShape(call.kind, call.before.value, call.next, w.proposedAt[id]); }
  }

  lemma WriteKeepsLog(w: World, call: Call, digest: string, t: int)
    requires Inv(w) && Winning(w, call, digest, t)
    ensures var rows' := w.db.rows[call.next.requestId := call.next];
            LogSound(rows', w.log + [EntryOf(w, call, call.before, call.next, digest, t)])
  {
    var rows' := w.db.rows[call.next.requestId := call.next];
    WriteKeepsRows(w, call, digest, t);
    WinnerEntrySound(w, call, digest, t);
    AdvancingKeepsLog(w.db.rows, rows', w.log);
    hide EntrySound, Advances, Inv, CanWrite, Moves;
  }

  lemma WriteKeepsReleases(rows: map<string, Result>, log: seq<Transition>, next: Result, t: Transition)
    requires ReleasesLogged(rows, log) && t.post == next
    ensures ReleasesLogged(rows[next.requestId := next], log + [t])
  {
    var rows' := rows[next.requestId := next];
    var log' := log + [t];
    forall id | id in rows' && rows'[id].state == Released
      ensures exists i :: 0 <= i < |log'| && log'[i].post == rows'[id]
    {
      if id == next.requestId {
        assert log'[|log|].post == rows'[id];
      } else {
        var i :| 0 <= i < |log| && log[i].post == rows[id];
        assert log'[i].post == rows'[id];
      }
    }
  }

  lemma WriteKeepsTokens(w: World, c: nat, won: Option<Call>, t: Transition)
    requires TokensApart(w.calls, |w.log|, w.executions) && ExecutionsClaimed(w.log, w.executions)
    requires won.Some? ==> Token(won.value) == Some(|w.log|)
    ensures TokensApart(if won.Some? then w.calls[c := won.value] else w.calls - {c}, |w.log| + 1, w.executions)
    ensures ExecutionsClaimed(w.log + [t], w.executions)
  {
  }

  lemma WriteKeepsCalls(w: World, c: nat, call: Call, digest: string, t: int)
    requires Inv(w) && c in w.calls && w.calls[c] == call && Winning(w, call, digest, t)
    ensures var rows' := w.db.rows[call.next.requestId := call.next];
            var won := WonBy(w, call);
            CallsSound(rows', w.log + [EntryOf(w, call, call.before, call.next, digest, t)], if won.Some? then w.calls[c := won.value] else w.calls - {c})
  {
    WriteKeepsRows(w, call, digest, t);
    var rows' := w.db.rows[call.next.requestId := call.next];
    var entry := EntryOf(w, call, call.before, call.next, digest, t);
    var log' := w.log + [entry];
    AdvancingKeepsCalls(w.db.rows, rows', w.log, [entry], w.calls);
    assert log'[|w.log|] == entry;
    hide RowsShaped, LogSound, PostsShaped, ReleasesLogged, TokensApart, ExecutionsClaimed, CanWrite, Advances, Fresh;
    var won := WonBy(w, call);
    assert won.Some? ==> CallSound(rows', log', won.value);
    hide CallSound;
  }

  lemma CommittedKeepsInv(w: World, c: nat, call: Call, digest: string, t: int)
    requires Inv(w) && c in w.calls && w.calls[c] == call && Winning(w, call, digest, t)
    ensures Inv(Committed(w, c, call, call.before, call.next, digest, t))
  {
    var entry := EntryOf(w, call, call.before, call.next, digest, t);
    assert entry.post == call.next;
    hide RowsShaped, CallsSound, LogSound, PostsShaped, ReleasesLogged, TokensApart, ExecutionsClaimed, Advances, Winning, EntryOf;
    WriteKeepsRows(w, call, digest, t);
    WriteKeepsLog(w, call, digest, t);
    WriteKeepsCalls(w, c, call, digest, t);
    WriteKeepsReleases(w.db.rows, w.log, call.next, entry);
    WriteKeepsTokens(w, c, WonBy(w, call), entry);
  }

  lemma WriteStepKeepsInv(w: World, c: nat, digest: string, t: int)
    requires Inv(w)
    ensures Inv(WriteStep(w, c, digest, t))
  {
    if c in w.calls && w.calls[c].Writing? {
      var call := w.calls[c];
      assert CallSound(w.db.rows, w.log, call);
      hide Inv, CallSound, CanWrite, Committed, Written, Stored;
      if CanWrite(w.db, call.before, call.next, digest, t) {
        WinnerReplaces(w, call, digest, t);
        CommittedKeepsInv(w, c, call, digest, t);
      } else {
        DropCallKeepsInv(w, c);
      }
    }
  }

  // ---------------------------------------------------------------- the other writers

  lemma MaintenanceKeepsRows(w: World, id: string, digest: string, t: int)
    requires Inv(w) && NeedsMaintenance(w.db, id, digest, t)
    ensures var rows' := w.db.rows[id := Maintained(w.db.rows[id], t)];
            && RowsShaped(rows', w.proposedAt) && PostsShaped(w.log, w.proposedAt) && Advances(w.db.rows, rows') && ReleasesLogged(rows', w.log)
  {
    hide LogSound, CallsSound, TokensApart, ExecutionsClaimed, EvidenceMatches;
    MaintainedKeepsShape(w.db.rows[id], t, w.proposedAt[id]);
  }

  lemma MappedKeepsRows(w: World, row: Result)
    requires Inv(w) && row.requestId !in w.db.rows && Asking(row)
    ensures var rows' := w.db.rows[row.requestId := row];
            && RowsShaped(rows', w.proposedAt[row.requestId := row.revision])
            && PostsShaped(w.log, w.proposedAt[row.requestId := row.revision])
            && Advances(w.db.rows, rows') && ReleasesLogged(rows', w.log)
  {
    hide CallsSound, TokensApart, ExecutionsClaimed, EntrySound;
  }

  lemma RowsKeepInv(w: World, rows': map<string, Result>, proposedAt': map<string, int>)
    requires Inv(w) && RowsShaped(rows', proposedAt') && PostsShaped(w.log, proposedAt') && Advances(w.db.rows, rows') && ReleasesLogged(rows', w.log)
    ensures Inv(w.(db := w.db.(rows := rows'), proposedAt := proposedAt'))
  {
    hide RowsShaped, Advances, PostsShaped, ReleasesLogged, LogSound, CallsSound, TokensApart, ExecutionsClaimed;
    AdvancingKeepsLog(w.db.rows, rows', w.log);
    AdvancingKeepsCalls(w.db.rows, rows', w.log, [], w.calls);
    assert w.log + [] == w.log;
  }

  lemma ParentsKeepInv(w: World, db': Db)
    requires Inv(w) && db'.rows == w.db.rows
    ensures Inv(w.(db := db'))
  {
    hide RowsShaped, PostsShaped, ReleasesLogged, LogSound, CallsSound, TokensApart, ExecutionsClaimed;
  }

  lemma OutsideStepKeepsInv(w: World, e: Event)
    requires Inv(w)
    requires e.Question? || e.NextGeneration? || e.Publish? || e.Maintenance? || e.Mapped?
    ensures Inv(Step(w, e))
  {
    hide Inv;
    if Step(w, e) != w {
      match e
      case Maintenance(id, digest, t) =>
        MaintenanceKeepsRows(w, id, digest, t);
        RowsKeepInv(w, w.db.rows[id := Maintained(w.db.rows[id], t)], w.proposedAt);
      case Mapped(row) =>
        MappedKeepsRows(w, row);
        RowsKeepInv(w, w.db.rows[row.requestId := row], w.proposedAt[row.requestId := row.revision]);
      case Publish(snapshotId) => ParentsKeepInv(w, w.db.(snapshot := Some(snapshotId)));
      case _ => ParentsKeepInv(w, Step(w, e).db);
    }
  }

  lemma BeginStepKeepsInv(w: World, e: Event)
    requires Inv(w)
    requires e.BeginPropose? || e.BeginConfirm? || e.ConfirmBinding? || e.BeginRecover?
    ensures Inv(Step(w, e))
  {
    if e.ConfirmBinding? && e.c in w.calls { assert CallSound(w.db.rows, w.log, w.calls[e.c]); }
    hide Inv, Moves, Fresh, DecidePropose, DecideConfirm, DecideRecover;
    match e
    case BeginPropose(c, current, accountSub, spec, parentExpiresAt, now) =>
      if c !in w.calls {
        ProposeMoves(current, accountSub, spec, parentExpiresAt, now);
        PrepareKeepsInv(w, c, Propose, None, DecidePropose(current, accountSub, spec, parentExpiresAt, now), false, None);
      }
    case BeginConfirm(c, id, revision, accountSub, now) =>
      if Step(w, e) != w {
        StoredIsFresh(w, id);
        SetCallKeepsInv(w, c, Confirming(Get(w.db, id).value));
      }
    case ConfirmBinding(c, current, finished) =>
      if c in w.calls && w.calls[c].Confirming? {
        var read := w.calls[c].read;
        ConfirmMoves(current, read, finished);
        PrepareKeepsInv(w, c, Confirm, Some(read), DecideConfirm(current, read, finished), false, None);
      }
    case BeginRecover(c, id, revision, now) =>
      if c !in w.calls && Get(w.db, id).Some? {
        StoredIsFresh(w, id);
        var row := Get(w.db, id).value;
        RecoverMoves(row, revision, now);
        PrepareKeepsInv(w, c, Recover, Some(row), DecideRecover(row, revision, now), false, None);
      }
  }

  lemma StepKeepsInv(w: World, e: Event)
    requires Inv(w)
    ensures Inv(Step(w, e))
  {
    hide Inv, ExecuteStep, CompleteStep, WriteStep;
    match e
    case Write(c, digest, t) => WriteStepKeepsInv(w, c, digest, t);
    case Failure(c) => DropCallKeepsInv(w, c);
    case RunExecutor(c, current, now, response) => RunExecutorKeepsInv(w, c, current, now, response);
    case BeginExecute(c, _, _, _) => ExecuteStepKeepsInv(w, c, e);
    case BeginClaim(c, _, _, _, _, _) => ExecuteStepKeepsInv(w, c, e);
    case Reread(c) => ExecuteStepKeepsInv(w, c, e);
    case BeginComplete(c, _, _, _, _, _, _) => CompleteStepKeepsInv(w, c, e);
    case Verify(c, _, _, _) => CompleteStepKeepsInv(w, c, e);
    case Recheck(c, _, _) => CompleteStepKeepsInv(w, c, e);
    case BeginPropose(_, _, _, _, _, _) => BeginStepKeepsInv(w, e);
    case BeginConfirm(_, _, _, _, _) => BeginStepKeepsInv(w, e);
    case ConfirmBinding(_, _, _) => BeginStepKeepsInv(w, e);
    case BeginRecover(_, _, _, _) => BeginStepKeepsInv(w, e);
    case _ => OutsideStepKeepsInv(w, e);
  }

  lemma {:induction false} RunKeepsInv(w: World, events: seq<Event>)
    requires Inv(w)
    ensures Inv(Run(w, events))
  {
    hide Inv, Step;
    if events != [] {
      RunKeepsInv(w, events[..|events| - 1]);
      StepKeepsInv(Run(w, events[..|events| - 1]), events[|events| - 1]);
    }
  }

  ghost predicate Reachable(w: World) {
    exists events :: w == Run(EMPTY, events)
  }

  lemma ReachableKeepsInv(w: World)
    requires Reachable(w)
    ensures Inv(w)
  {
    var events :| w == Run(EMPTY, events);
    RunKeepsInv(EMPTY, events);
  }

  // ---------------------------------------------------------------- theorems over whole runs

  /** No lost update: every committed write replaced exactly the row its caller had read. */
  lemma WritesReplaceWhatTheyRead(w: World, i: nat)
    requires Reachable(w) && i < |w.log|
    ensures w.log[i].read == w.log[i].pre && Moves(w.log[i].kind, w.log[i].pre, w.log[i].post)
  {
    ReachableKeepsInv(w);
    assert EntrySound(w.log[i]);
  }

  /** A row is released only by a write at whose moment the published snapshot, the parent
      generation and the deployed catalog were those the owner accepted and the claimed
      lease was live, with evidence for the accepted spec. */
  lemma ReleaseIsCurrent(w: World, i: nat)
    requires Reachable(w) && i < |w.log| && w.log[i].post.state == Released
    ensures var t := w.log[i];
            && t.kind == Complete && t.read == t.pre && t.pre.Some? && t.pre.value.state == InReview
            && t.snapshot == Some(t.post.spec.snapshotId)
            && t.digest == t.post.spec.catalogDigest
            && t.parent.Some? && t.parent.value.revision == t.post.spec.requestRevision
            && t.pre.value.leaseExpiresAt.Some? && t.dbNow < t.pre.value.leaseExpiresAt.value
            && t.post.updatedAt < t.pre.value.leaseExpiresAt.value && t.dbNow < t.post.expiresAt
            && EvidenceMatches(t.post)
  {
    ReachableKeepsInv(w);
    assert EntrySound(w.log[i]) && Fresh(w.db.rows, w.log[i].post);
    assert Shape(w.db.rows[w.log[i].post.requestId], w.proposedAt[w.log[i].post.requestId]);
  }

  /** Every row that shows as released was released by such a write and not touched since. */
  lemma ReleasedRowsWereReleased(w: World, id: string)
    requires Reachable(w) && id in w.db.rows && w.db.rows[id].state == Released
    ensures exists i :: 0 <= i < |w.log| && w.log[i].post == w.db.rows[id] && w.log[i].kind == Complete
  {
    ReachableKeepsInv(w);
    var i :| 0 <= i < |w.log| && w.log[i].post == w.db.rows[id];
    ReleaseIsCurrent(w, i);
  }

  /** The revision, counted from the proposal (revision 1 for a row proposed here), tells
      state and attempt apart and grows by at most seven; only a row marked stale after
      its release is one further on. */
  lemma RevisionNamesState(w: World, id: string)
    requires Reachable(w) && id in w.db.rows
    ensures id in w.proposedAt
    ensures var r := w.db.rows[id]; var a := r.attempt; var steps := r.revision - w.proposedAt[id];
            && 0 <= a <= 3 && 0 <= steps <= (if r.state == Stale then 8 else 7)
            && (r.state == ConfirmationRequired ==> steps == 0 && a == 0)
            && (r.state == Building ==> steps == 1 + 2 * a && a <= 2)
            && (r.state == InReview ==> steps == 2 * a && a >= 1)
            && (r.state == Released ==> steps == 1 + 2 * a && a >= 1)
            && (r.state == Failed ==> steps == 7 && a == 3)
  {
    ReachableKeepsInv(w);
  }

  /** At most one execution per claim, so at most one per attempt, so at most three. */
  lemma ExecutorOncePerAttempt(w: World, i: nat, j: nat)
    requires Reachable(w) && i < |w.executions| && j < |w.executions| && w.executions[i].id == w.executions[j].id
    ensures 1 <= w.executions[i].attempt <= 3
    ensures w.executions[i].attempt == w.executions[j].attempt ==> i == j
  {
    ReachableKeepsInv(w);
    var x, y := w.executions[i], w.executions[j];
    ClaimsNumberAttempts(w, x.entry);
    ClaimsNumberAttempts(w, y.entry);
    hide RowsShaped, CallsSound, EntrySound;
  }

  /** A claim's revision is fixed by its attempt. */
  lemma ClaimsNumberAttempts(w: World, i: nat)
    requires Inv(w) && i < |w.log| && w.log[i].kind == Claim
    ensures var p := w.log[i].post;
            && p.requestId in w.proposedAt && 1 <= p.attempt <= 3
            && p.revision == w.proposedAt[p.requestId] + 2 * p.attempt
  {
    assert EntrySound(w.log[i]) && Shape(w.log[i].post, w.proposedAt[w.log[i].post.requestId]);
  }

  predicate Survives(a: Result, b: Result) {
    && SameIdentity(a, b)
    && (a.state in {Failed, Expired, Stale} ==> b == a)
    && (a.state == Released && b != a ==> b.state == Stale && b.evidence.None?)
  }

  lemma SuccessorSurvives(kind: Kind, before: Option<Result>, next: Result)
    requires Moves(kind, before, next) && before.Some?
    ensures Survives(before.value, next) && before.value.state !in {Released, Failed, Expired, Stale}
  {
    hide EvidenceMatches;
  }

  lemma WriteSurvives(w: World, c: nat, digest: string, t: int, id: string)
    requires Inv(w) && id in w.db.rows
    ensures id in WriteStep(w, c, digest, t).db.rows && Survives(w.db.rows[id], WriteStep(w, c, digest, t).db.rows[id])
    ensures w.db.rows[id].state == Released ==> WriteStep(w, c, digest, t).db.rows[id] == w.db.rows[id]
  {
    if c in w.calls && w.calls[c].Writing? {
      var call := w.calls[c];
      assert CallSound(w.db.rows, w.log, call);
      assert Moves(call.kind, call.before, call.next);
      hide Inv, CanWrite, Written, CallSound, Moves, EntryOf, WonBy;
      if CanWrite(w.db, call.before, call.next, digest, t) {
        WinnerReplaces(w, call, digest, t);
        if call.before.Some? { SuccessorSurvives(call.kind, call.before, call.next); }
      }
    }
  }

  lemma OnlyWritersWrite(w: World, e: Event)
    requires !e.Write? && !e.Maintenance? && !e.Mapped?
    ensures Step(w, e).db.rows == w.db.rows
  {
    hide DecidePropose, DecideConfirm, DecideRecover, DecideClaim, DecideComplete, Completable, Verifies, MayExecute, IsLeased;
  }

  lemma StepSurvives(w: World, e: Event, id: string)
    requires Inv(w) && id in w.db.rows
    ensures id in Step(w, e).db.rows && Survives(w.db.rows[id], Step(w, e).db.rows[id])
    ensures w.db.rows[id].state == Released && Step(w, e).db.rows[id] != w.db.rows[id] ==> e.Maintenance?
  {
    hide Inv, WriteStep, ExecuteStep, CompleteStep;
    if e.Write? {
      WriteSurvives(w, e.c, e.digest, e.t, id);
    } else if !e.Maintenance? && !e.Mapped? {
      hide Step;
      OnlyWritersWrite(w, e);
    }
  }

  lemma {:induction false} RunSurvives(w: World, events: seq<Event>, id: string)
    requires Inv(w) && id in w.db.rows
    ensures id in Run(w, events).db.rows && Survives(w.db.rows[id], Run(w, events).db.rows[id])
    ensures w.db.rows[id].state == Released && Run(w, events).db.rows[id] != w.db.rows[id] ==> exists e :: e in events && e.Maintenance?
  {
    if events != [] {
      var front, last := events[..|events| - 1], events[|events| - 1];
      hide Inv, Step;
      RunSurvives(w, front, id);
      RunKeepsInv(w, front);
      StepSurvives(Run(w, front), last, id);
      assert last in events && forall e :: e in front ==> e in events;
    }
  }

  /** The accepted spec, its owner and its deadlines never change, whatever runs next; a
      closed row stays closed, and a released one can only go stale, through maintenance. */
  lemma IdentityNeverChanges(w: World, events: seq<Event>, id: string)
    requires Reachable(w) && id in w.db.rows
    ensures id in Run(w, events).db.rows && Survives(w.db.rows[id], Run(w, events).db.rows[id])
    ensures w.db.rows[id].state == Released && Run(w, events).db.rows[id] != w.db.rows[id] ==> exists e :: e in events && e.Maintenance?
  {
    ReachableKeepsInv(w);
    RunSurvives(w, events, id);
  }
}
