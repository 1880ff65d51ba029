/** The SQL adapter under the bridge: one guarded UPDATE, then an INSERT that fires only
    if the UPDATE changed a row, in one transaction. Terminal rows keep their last lease
    as audit columns; the projection hides it. */
module BridgeD1 {
  import opened Options
  import opened Bridge
  import opened BridgeRuns
  import opened BridgeSafety

  const MAX_SAFE := 9_007_199_254_740_991
  const DAY_MS := 86_400_000

  datatype JobRow = JobRow(
    jobId: string, request: string, status: Status, attempt: int,
    leaseId: Option<string>, leaseOwner: Option<string>, leaseExpiresAt: Option<int>, claimedAt: Option<int>,
    retryAfter: Option<int>, failure: Option<Failure>, publication: Option<Publication>,
    admittedAt: int, revision: int)

  datatype Db = Db(rows: map<string, JobRow>, operations: map<OpKey, OperationRecord>)

  function Project(row: JobRow): StoredJob {
    var running := row.status == Running;
    StoredJob(
      Job(row.jobId, row.request, row.status, row.attempt,
          if running then row.leaseId else None,
          if running then row.leaseExpiresAt else None,
          row.retryAfter, row.failure, row.publication),
      row.admittedAt, if running then row.leaseOwner else None, row.revision)
  }

  /** What the port shows of the database. */
  function View(db: Db): Store {
    Store(map id | id in db.rows :: Project(db.rows[id]), db.operations)
  }

  /** The UPDATE's SET clause. */
  function UpdatedRow(row: JobRow, next: StoredJob): JobRow {
    var job := next.job;
    var terminal := job.status == Failed || job.status == Published;
    row.(status := job.status, attempt := job.attempt, revision := next.revision,
         leaseId := if terminal then row.leaseId else job.leaseId,
         leaseOwner := if terminal then row.leaseOwner else next.leaseOwner,
         leaseExpiresAt := job.leaseExpiresAt,
         claimedAt := if job.status == Running && job.leaseExpiresAt.Some?
                      then Some(job.leaseExpiresAt.value - LEASE_MS) else row.claimedAt,
         retryAfter := job.retryAfter, failure := job.failure, publication := job.publication)
  }

  /** The UPDATE's WHERE clause, after the adapter's own revision check. */
  predicate Matches(db: Db, expected: int, next: StoredJob, op: Option<OperationRecord>) {
    && 1 <= expected <= MAX_SAFE
    && next.revision == expected + 1
    && next.job.jobId in db.rows
    && db.rows[next.job.jobId].revision == expected
    && db.rows[next.job.jobId].admittedAt == next.admittedAt
    && (op.Some? ==> op.value.key !in db.operations)
  }

  // ---------------------------------------------------------------- the schema's guards

  predicate Whole(t: Option<int>) {
    t.Some? ==> t.value % 1000 == 0
  }

  /** Column checks of the jobs table and its timestamp trigger. */
  predicate RowAllowed(row: JobRow) {
    && 0 <= row.attempt <= 3 && row.revision >= 1
    && Whole(row.leaseExpiresAt) && Whole(row.claimedAt) && Whole(row.retryAfter) && Whole(Some(row.admittedAt))
    && match row.status
       case Queued =>
         row.leaseId.None? && row.leaseOwner.None? && row.leaseExpiresAt.None? && row.failure.None? && row.publication.None?
       case Running =>
         && 1 <= row.attempt && row.leaseId.Some? && row.leaseOwner.Some?
         && row.leaseExpiresAt.Some? && row.claimedAt.Some? && row.claimedAt.value < row.leaseExpiresAt.value
         && row.failure.None? && row.publication.None?
       case Failed =>
         && 1 <= row.attempt && row.claimedAt.Some? && row.leaseId.Some? && row.leaseOwner.Some?
         && row.leaseExpiresAt.None? && row.failure.Some? && row.publication.None?
       case Published =>
         && 1 <= row.attempt && row.claimedAt.Some? && row.leaseId.Some? && row.leaseOwner.Some?
         && row.leaseExpiresAt.None? && row.retryAfter.None? && row.failure.None? && row.publication.Some?
  }

  /** The state-machine and lease-fence triggers. */
  predicate TransitionAllowed(row: JobRow, to: JobRow) {
    && to.jobId == row.jobId && to.request == row.request && to.admittedAt == row.admittedAt
    && to.revision == row.revision + 1
    && (row.status == Running ==> to.leaseId == row.leaseId && to.leaseOwner == row.leaseOwner)
    && (|| (row.status == Queued && to.status == Running && to.attempt == row.attempt + 1 && to.attempt <= 3
            && to.claimedAt.Some? && to.leaseId.Some? && to.leaseExpiresAt.Some?
            && to.leaseExpiresAt.value > to.claimedAt.value && to.failure.None? && to.publication.None?)
        || (row.status == Running && to.status == Failed && to.attempt == row.attempt
            && row.claimedAt.Some? && to.claimedAt == row.claimedAt && to.leaseExpiresAt.None?
            && to.failure.Some? && to.publication.None?
            && (if to.failure.value == AttemptsExhausted then to.retryAfter.None?
                else && to.retryAfter.Some?
                     && to.claimedAt.value < to.retryAfter.value <= to.claimedAt.value + DAY_MS))
        || (row.status == Running && to.status == Published && to.attempt == row.attempt
            && row.claimedAt.Some? && to.claimedAt == row.claimedAt && to.leaseExpiresAt.None?
            && to.failure.None? && to.publication.Some?)
        || (row.status == Failed && to.status == Queued && to.attempt == row.attempt
            && row.attempt < 3 && row.failure.Some? && row.failure.value != AttemptsExhausted && row.retryAfter.Some?
            && to.retryAfter.None? && to.leaseId.None? && to.leaseOwner.None? && to.leaseExpiresAt.None?
            && to.failure.None? && to.publication.None?))
  }

  predicate SchemaAllows(row: JobRow, to: JobRow) {
    RowAllowed(to) && TransitionAllowed(row, to)
  }

  /** `Aborted` is a storage error: a trigger raised and the transaction rolled back. */
  datatype Outcome = Committed | Refused | Aborted

  function CommitOutcome(db: Db, expected: int, next: StoredJob, op: Option<OperationRecord>): Outcome {
    if !Matches(db, expected, next, op) then Refused
    else
      var row := db.rows[next.job.jobId];
      if SchemaAllows(row, UpdatedRow(row, next)) then Committed else Aborted
  }

  function CommitDb(db: Db, expected: int, next: StoredJob, op: Option<OperationRecord>): Db {
    if CommitOutcome(db, expected, next, op) != Committed then db
    else
      var id := next.job.jobId;
      Db(db.rows[id := UpdatedRow(db.rows[id], next)],
         if op.Some? then db.operations[op.value.key := op.value] else db.operations)
  }

  // ---------------------------------------------------------------- simulation of the port

  /** Rows satisfy the schema and, seen through the port, the job invariant; the stored
      claim time of a running row is its lease expiry less the lease length. */
  ghost predicate RowSound(id: string, row: JobRow) {
    && row.jobId == id
    && RowAllowed(row)
    && JobShape(Project(row), 1)
    && (row.status == Running ==> row.claimedAt == ClaimedAt(Project(row).job))
  }

  ghost predicate Sound(db: Db) {
    forall id | id in db.rows :: RowSound(id, db.rows[id])
  }

  /** The acknowledging clock is so far behind the claim that the retry deadline would
      not lie after it. */
  predicate ClockTooFarBehind(read: StoredJob, op: Option<OperationRecord>, now: int) {
    && op.Some? && op.value.body.AckPayload? && op.value.body.ack.outcome.AckFailed?
    && read.job.attempt < MAX_ATTEMPTS
    && ClaimedAt(read.job).Some?
    && now + RetryDelayMs(read.job.attempt) <= ClaimedAt(read.job).value
  }

  lemma ClaimPassesTheSchema(row: JobRow, next: StoredJob, op: Option<OperationRecord>, now: int)
    requires RowSound(row.jobId, row) && Moves(Project(row), next, op, now) && row.status == Queued
    ensures SchemaAllows(row, UpdatedRow(row, next))
    ensures Project(UpdatedRow(row, next)) == next
    ensures RowSound(row.jobId, UpdatedRow(row, next))
  {
  }

  lemma EndPassesTheSchema(row: JobRow, next: StoredJob, op: Option<OperationRecord>, now: int)
    requires RowSound(row.jobId, row) && Moves(Project(row), next, op, now) && row.status == Running
    ensures SchemaAllows(row, UpdatedRow(row, next)) <==> !ClockTooFarBehind(Project(row), op, now)
    ensures Project(UpdatedRow(row, next)) == next
    ensures !ClockTooFarBehind(Project(row), op, now) ==> RowSound(row.jobId, UpdatedRow(row, next))
  {
    MovesKeepShape(Project(row), next, op, now, 1);
  }

  lemma RequeuePassesTheSchema(row: JobRow, next: StoredJob, op: Option<OperationRecord>, now: int)
    requires RowSound(row.jobId, row) && Moves(Project(row), next, op, now) && row.status == Failed
    ensures SchemaAllows(row, UpdatedRow(row, next))
    ensures Project(UpdatedRow(row, next)) == next
    ensures RowSound(row.jobId, UpdatedRow(row, next))
  {
  }

  /** No trigger aborts a transition the bridge proposes, but for the lagging clock. */
  lemma MovesPassTheSchema(row: JobRow, next: StoredJob, op: Option<OperationRecord>, now: int)
    requires RowSound(row.jobId, row) && Moves(Project(row), next, op, now)
    ensures SchemaAllows(row, UpdatedRow(row, next)) <==> !ClockTooFarBehind(Project(row), op, now)
    ensures Project(UpdatedRow(row, next)) == next
    ensures !ClockTooFarBehind(Project(row), op, now) ==> RowSound(row.jobId, UpdatedRow(row, next))
  {
    hide SchemaAllows, UpdatedRow, RowSound, JobShape;
    match row.status
    case Queued => ClaimPassesTheSchema(row, next, op, now);
    case Running => EndPassesTheSchema(row, next, op, now);
    case Failed => RequeuePassesTheSchema(row, next, op, now);
    case Published => SettledCannotMove(Project(row), next, op, now);
  }

  /** For anything the bridge proposes, the two statements do exactly what the port's
      compare-and-set promises, except that the schema aborts a retry deadline that a
      lagging clock would put before the claim. */
  lemma CommitRefinesPort(db: Db, read: StoredJob, next: StoredJob, op: Option<OperationRecord>, now: int)
    requires Sound(db) && Moves(read, next, op, now) && next.job.jobId == read.job.jobId
    requires ReadIsCurrentOrStale(View(db), read)
    ensures var s, can := View(db), CanCommit(View(db), read.revision, next, op);
            && CommitOutcome(db, read.revision, next, op) ==
               (if !can then Refused else if ClockTooFarBehind(read, op, now) then Aborted else Committed)
            && (can && ClockTooFarBehind(read, op, now) ==> CommitDb(db, read.revision, next, op) == db)
            && (!(can && ClockTooFarBehind(read, op, now)) ==>
                  View(CommitDb(db, read.revision, next, op)) == Commit(s, read.revision, next, op))
            && Sound(CommitDb(db, read.revision, next, op))
  {
    hide Moves, SchemaAllows, UpdatedRow, RowAllowed, JobShape, ClockTooFarBehind;
    var row := db.rows[read.job.jobId];
    assert RowSound(read.job.jobId, row);
    ShapeBoundsRevision(Project(row), 1);
    if CanCommit(View(db), read.revision, next, op) {
      MovesKeepShape(read, next, op, now, 1);
      MovesPassTheSchema(row, next, op, now);
      if !ClockTooFarBehind(read, op, now) {
        assert View(CommitDb(db, read.revision, next, op)).jobs == View(db).jobs[read.job.jobId := next];
      }
    }
  }

  // ---------------------------------------------------------------- the adapter

  class D1BridgeStore {
    var rows: map<string, JobRow>
    var operations: map<OpKey, OperationRecord>
    /** SQLite's changes(): rows directly changed by the latest statement. */
    var changes: nat

    function Contents(): Db
      reads this
    {
      Db(rows, operations)
    }

    constructor ()
      ensures Contents() == Db(map[], map[])
    {
      rows, operations, changes := map[], map[], 0;
    }

    method Get(jobId: string) returns (r: Option<StoredJob>)
      ensures r == View(Contents()).Get(jobId)
    {
      r := if jobId in rows then Some(Project(rows[jobId])) else None;
    }

    method GetOperation(key: OpKey) returns (r: Option<OperationRecord>)
      ensures r == View(Contents()).GetOperation(key)
    {
      r := if key in operations then Some(operations[key]) else None;
    }

    /** The batch: UPDATE ... RETURNING, then INSERT ... WHERE changes() = 1. */
    method Commit(expected: int, next: StoredJob, op: Option<OperationRecord>) returns (outcome: Outcome)
      modifies this
      ensures outcome == CommitOutcome(old(Contents()), expected, next, op)
      ensures Contents() == CommitDb(old(Contents()), expected, next, op)
    {
      if !(1 <= expected <= MAX_SAFE) || next.revision != expected + 1 {
        return Refused;
      }
      var id := next.job.jobId;
      changes := 0;
      if id in rows && rows[id].revision == expected && rows[id].admittedAt == next.admittedAt
         && (op.Some? ==> op.value.key !in operations) {
        var row := UpdatedRow(rows[id], next);
        if !SchemaAllows(rows[id], row) {
          return Aborted;
        }
        rows := rows[id := row];
        changes := 1;
      }
      var returned := changes;
      if op.Some? && changes == 1 {
        operations := operations[op.value.key := op.value];
      }
      outcome := if returned == 1 then Committed else Refused;
    }

    /** `None` is a storage error passed on to the caller. */
    method Handle(service: string, body: Body, clock: int, lease: string, verified: bool) returns (reply: Option<Reply>)
      modifies this
      ensures var s := old(View(Contents())); var now := WholeSecond(clock);
              match Decide(service, body, now, s.GetOperation(body.Key(service)), s.Get(body.JobId()), lease, verified)
              case Answer(r) => reply == Some(r) && Contents() == old(Contents())
              case Propose(read, next, op) =>
                && Contents() == CommitDb(old(Contents()), read.revision, next, op)
                && (match CommitOutcome(old(Contents()), read.revision, next, op)
                    case Aborted => reply == None
                    case Refused => reply == Some(Conflict)
                    case Committed => op.Some? && reply == Some(op.value.response))
    {
      var now := WholeSecond(clock);
      var prior := GetOperation(body.Key(service));
      var cur := Get(body.JobId());
      match Decide(service, body, now, prior, cur, lease, verified) {
        case Answer(r) => reply := Some(r);
        case Propose(read, next, op) =>
          var outcome := Commit(read.revision, next, op);
          match outcome {
            case Aborted => reply := None;
            case Refused => reply := Some(Conflict);
            case Committed => reply := Some(op.value.response);
          }
      }
    }

    /** One sweep over the rows a query returned: a row that a storage error hits is
        counted and the sweep goes on. */
    method Sweep(kind: SweepKind, listed: seq<StoredJob>, clock: int) returns (moved: nat, failed: nat)
      modifies this
      ensures Swept(Contents(), moved, failed) == SweepAll(old(Contents()), kind, listed, WholeSecond(clock))
    {
      var now := WholeSecond(clock);
      moved, failed := 0, 0;
      ghost var start := Contents();
      for i := 0 to |listed|
        invariant Swept(Contents(), moved, failed) == SweepAll(start, kind, listed[..i], now)
      {
        assert listed[..i + 1][..i] == listed[..i];
        var next := DecideSweep(kind, listed[i], now);
        if next.Some? {
          var outcome := Commit(listed[i].revision, next.value, None);
          if outcome == Committed {
            moved := moved + 1;
          } else if outcome == Aborted {
            failed := failed + 1;
          }
        }
      }
      assert listed[..|listed|] == listed;
    }
  }

  datatype Swept = Swept(db: Db, moved: nat, failed: nat)

  function SweepRow(before: Swept, kind: SweepKind, row: StoredJob, now: int): Swept {
    var next := DecideSweep(kind, row, now);
    if next.None? then before
    else
      match CommitOutcome(before.db, row.revision, next.value, None)
      case Refused => before
      case Aborted => before.(failed := before.failed + 1)
      case Committed => Swept(CommitDb(before.db, row.revision, next.value, None), before.moved + 1, before.failed)
  }

  function SweepAll(db: Db, kind: SweepKind, listed: seq<StoredJob>, now: int): Swept {
    if listed == [] then Swept(db, 0, 0)
    else SweepRow(SweepAll(db, kind, listed[..|listed| - 1], now), kind, listed[|listed| - 1], now)
  }

  /** What a listed row still amounts to when its turn comes: nothing if another call
      has replaced the row since it was listed. */
  function Effect(db: Db, kind: SweepKind, row: StoredJob, now: int): Option<StoredJob> {
    if row.job.jobId in db.rows && Project(db.rows[row.job.jobId]) == row then DecideSweep(kind, row, now) else None
  }

  function CountEffects(db: Db, kind: SweepKind, listed: seq<StoredJob>, now: int): nat {
    if listed == [] then 0
    else CountEffects(db, kind, listed[..|listed| - 1], now)
         + if Effect(db, kind, listed[|listed| - 1], now).Some? then 1 else 0
  }

  ghost predicate Listed(db: Db, listed: seq<StoredJob>) {
    && (forall i | 0 <= i < |listed| :: ReadIsCurrentOrStale(View(db), listed[i]))
    && (forall i, j | 0 <= i < j < |listed| :: listed[i].job.jobId != listed[j].job.jobId)
  }

  lemma SweepDecisionMoves(kind: SweepKind, row: StoredJob, now: int)
    requires now % 1000 == 0
    ensures var next := DecideSweep(kind, row, now);
            next.Some? ==> Moves(row, next.value, None, now) && next.value.job.jobId == row.job.jobId
  {
  }

  predicate OneRowSwept(db: Db, after: Db, id: string, effect: Option<StoredJob>) {
    && after.operations == db.operations && after.rows.Keys == db.rows.Keys
    && (forall other | other in db.rows && other != id :: after.rows[other] == db.rows[other])
    && (id in db.rows ==>
          if effect.Some? then Project(after.rows[id]) == effect.value else after.rows[id] == db.rows[id])
  }

  /** One row's turn, when earlier turns left that row alone. */
  lemma SweepOneRow(start: Db, before: Swept, kind: SweepKind, row: StoredJob, now: int)
    requires Sound(before.db) && now % 1000 == 0
    requires row.job.jobId in start.rows && row.job.jobId in before.db.rows
    requires before.db.rows[row.job.jobId] == start.rows[row.job.jobId]
    requires ReadIsCurrentOrStale(View(start), row)
    ensures var after, effect := SweepRow(before, kind, row, now), Effect(start, kind, row, now);
            && Sound(after.db) && OneRowSwept(before.db, after.db, row.job.jobId, effect)
            && after.moved == before.moved + (if effect.Some? then 1 else 0)
            && after.failed == before.failed
  {
    hide Moves, SchemaAllows, UpdatedRow, RowSound, DecideSweep;
    SweepDecisionMoves(kind, row, now);
    var id, next := row.job.jobId, DecideSweep(kind, row, now);
    assert RowSound(id, before.db.rows[id]);
    if next.Some? {
      CommitRefinesPort(before.db, row, next.value, None, now);
      if CanCommit(View(before.db), row.revision, next.value, None) {
        MovesPassTheSchema(before.db.rows[id], next.value, None, now);
      }
    }
  }

  ghost predicate SweptExactly(db: Db, after: Db, kind: SweepKind, listed: seq<StoredJob>, now: int) {
    && after.rows.Keys == db.rows.Keys && after.operations == db.operations
    && (forall row | row in listed :: row.job.jobId in db.rows &&
          var id, effect := row.job.jobId, Effect(db, kind, row, now);
          if effect.Some? then Project(after.rows[id]) == effect.value else after.rows[id] == db.rows[id])
    && (forall id | id in db.rows && (forall row | row in listed :: row.job.jobId != id) ::
          after.rows[id] == db.rows[id])
  }

  lemma SweptOneMore(db: Db, mid: Db, after: Db, kind: SweepKind, front: seq<StoredJob>, row: StoredJob, now: int)
    requires SweptExactly(db, mid, kind, front, now) && row.job.jobId in db.rows
    requires forall other | other in front :: other.job.jobId != row.job.jobId
    requires OneRowSwept(mid, after, row.job.jobId, Effect(db, kind, row, now))
    ensures SweptExactly(db, after, kind, front + [row], now)
  {
    var id := row.job.jobId;
    assert mid.rows[id] == db.rows[id];
    forall r | r in front + [row]
      ensures var effect := Effect(db, kind, r, now);
              r.job.jobId in db.rows &&
              if effect.Some? then Project(after.rows[r.job.jobId]) == effect.value
              else after.rows[r.job.jobId] == db.rows[r.job.jobId]
    {
      if r != row { assert r in front; }
    }
    forall other | other in db.rows && (forall r | r in front + [row] :: r.job.jobId != other)
      ensures after.rows[other] == db.rows[other]
    {
      assert row in front + [row];
      assert forall r | r in front :: r in front + [row];
    }
  }

  /** A sweep moves each listed row that is still current and due, exactly once, never
      fails on it, skips the stale ones and touches nothing else. */
  lemma {:induction false} SweepMovesWhatIsDue(db: Db, kind: SweepKind, listed: seq<StoredJob>, now: int)
    requires Sound(db) && now % 1000 == 0 && Listed(db, listed)
    ensures var r := SweepAll(db, kind, listed, now);
            && Sound(r.db) && SweptExactly(db, r.db, kind, listed, now)
            && r.moved == CountEffects(db, kind, listed, now) && r.failed == 0
  {
    hide SweepRow, RowSound;
    if listed != [] {
      var front, row := listed[..|listed| - 1], listed[|listed| - 1];
      assert listed == front + [row];
      SweepMovesWhatIsDue(db, kind, front, now);
      var before := SweepAll(db, kind, front, now);
      var after := SweepAll(db, kind, listed, now);
      assert ReadIsCurrentOrStale(View(db), row);
      SweepOneRow(db, before, kind, row, now);
      SweptOneMore(db, before.db, after.db, kind, front, row, now);
    }
  }

  // ---------------------------------------------------------------- the lagging clock

  const LAGGING := JobRow("j", "r", Running, 1, Some("lease"), Some("svc"), Some(10_900_000), Some(10_000_000),
                          None, None, None, 0, 2)

  const REPORT := AckBody("j", 1, "lease", "o", AckFailed(SourceUnavailable))

  /** A clock five minutes behind the claim: the failure it acknowledges would be due at
      the moment of the claim, not after it, and the database raises an error. */
  lemma LaggingClockAborts()
    ensures var db := Db(map["j" := LAGGING], map[]); var now := 9_700_000;
            && Sound(db)
            && var d := DecideAck("svc", REPORT, now, None, View(db).Get("j"), false);
            && d.Propose? && d.next.job.retryAfter == LAGGING.claimedAt
            && CanCommit(View(db), d.read.revision, d.next, d.op)
            && CommitOutcome(db, d.read.revision, d.next, d.op) == Aborted
  {
    var db := Db(map["j" := LAGGING], map[]);
    assert View(db).Get("j") == Some(Project(LAGGING));
    var d := DecideAck("svc", REPORT, 9_700_000, None, Some(Project(LAGGING)), false);
    assert d.next.job.retryAfter == Some(10_000_000);
    assert !TransitionAllowed(LAGGING, UpdatedRow(LAGGING, d.next));
  }
}
