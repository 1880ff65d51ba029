/** Accepted results: the row of a confirmed question on its way to release, the fences
    of the store that writes it, and the decisions of each operation. Times are whole
    seconds in milliseconds. */
module Results {
  import opened Options

  datatype State = ConfirmationRequired | Building | InReview | Released | Failed | Expired | Stale

  /** What the owner accepted. */
  datatype Spec = Spec(
    requestId: string, requestRevision: int, entityId: string, snapshotId: string,
    catalogDigest: string, artifactKey: string)

  datatype Evidence = Evidence(
    artifactKey: string, snapshotId: string, entityId: string, value: real, attribution: string, verifiedAt: int)

  datatype Result = Result(
    requestId: string, accountSub: string, requestRevision: int, revision: int, state: State, spec: Spec,
    attempt: int, leaseId: Option<string>, leaseOwner: Option<string>, leaseExpiresAt: Option<int>,
    evidence: Option<Evidence>, createdAt: int, updatedAt: int, responseDeadline: int, expiresAt: int)

  datatype Parent = Parent(accountSub: string, revision: int, expiresAt: int)

  /** The tables a write looks at. */
  datatype Db = Db(rows: map<string, Result>, parents: map<string, Parent>, snapshot: Option<string>)

  const LEASE_MS := 900_000
  const DAY_MS := 86_400_000
  const MAX_ATTEMPTS := 3

  function Min(a: int, b: int): int {
    if a <= b then a else b
  }

  // ---------------------------------------------------------------- the store

  /** Rows marked stale are no longer served. */
  function Get(db: Db, id: string): Option<Result> {
    if id in db.rows && db.rows[id].state != Stale then Some(db.rows[id]) else None
  }

  predicate Closing(state: State) {
    state == Expired || state == Failed
  }

  predicate ParentMatches(db: Db, next: Result, t: int) {
    && next.requestId in db.parents
    && var q := db.parents[next.requestId];
    && q.accountSub == next.accountSub && q.revision == next.requestRevision && q.expiresAt == next.expiresAt
    && (Closing(next.state) || q.expiresAt > t)
  }

  predicate CanInsert(db: Db, next: Result, t: int) {
    && next.requestId !in db.rows
    && next.requestId in db.parents
    && var q := db.parents[next.requestId];
    && q.accountSub == next.accountSub && q.revision == next.requestRevision && q.expiresAt == next.expiresAt > t
    && db.snapshot == Some(next.spec.snapshotId)
  }

  predicate CanUpdate(db: Db, before: Result, next: Result, t: int) {
    && before.requestId == next.requestId && before.accountSub == next.accountSub
    && next.revision == before.revision + 1 && before.requestRevision == next.requestRevision && before.spec == next.spec
    && next.requestId in db.rows
    && var r := db.rows[next.requestId];
    && r.revision == before.revision && r.requestRevision == next.requestRevision && r.spec == before.spec
    && ParentMatches(db, next, t)
    && (Closing(next.state) || db.snapshot == Some(next.spec.snapshotId))
    && (r.state == ConfirmationRequired && next.state == Building ==> r.responseDeadline > t)
    && (next.state == Released ==> r.leaseExpiresAt.Some? && r.leaseExpiresAt.value > t)
  }

  /** compareAndSet at database time `t`, in a deployment whose catalog has this digest. */
  predicate CanWrite(db: Db, before: Option<Result>, next: Result, digest: string, t: int) {
    && next.spec.requestId == next.requestId && next.spec.requestRevision == next.requestRevision
    && (Closing(next.state) || next.spec.catalogDigest == digest)
    && match before
       case None => CanInsert(db, next, t)
       case Some(b) => CanUpdate(db, b, next, t)
  }

  /** An update sets some columns only. */
  function Updated(row: Result, next: Result): Result {
    row.(state := next.state, revision := next.revision, evidence := next.evidence, attempt := next.attempt,
         leaseId := next.leaseId, leaseOwner := next.leaseOwner, leaseExpiresAt := next.leaseExpiresAt,
         updatedAt := next.updatedAt)
  }

  function Stored(db: Db, id: string): Option<Result> {
    if id in db.rows then Some(db.rows[id]) else None
  }

  /** The row a winning write leaves behind. */
  function Written(db: Db, before: Option<Result>, next: Result): Result {
    if before.None? || next.requestId !in db.rows then next else Updated(db.rows[next.requestId], next)
  }

  // ---------------------------------------------------------------- maintenance

  predicate PastDeadline(r: Result, t: int) {
    || (r.state == ConfirmationRequired && r.responseDeadline <= t)
    || (r.state in {Building, InReview} && r.expiresAt <= t)
  }

  predicate OutOfDate(r: Result, q: Parent, snapshot: Option<string>, digest: string) {
    && r.state in {ConfirmationRequired, Building, InReview, Released}
    && (r.requestRevision != q.revision || snapshot != Some(r.spec.snapshotId) || r.spec.catalogDigest != digest)
  }

  predicate NeedsMaintenance(db: Db, id: string, digest: string, t: int) {
    id in db.rows && id in db.parents && (PastDeadline(db.rows[id], t) || OutOfDate(db.rows[id], db.parents[id], db.snapshot, digest))
  }

  function Maintained(r: Result, t: int): Result {
    r.(state := if PastDeadline(r, t) then Expired else Stale, evidence := None, leaseExpiresAt := None,
       revision := r.revision + 1, updatedAt := if r.updatedAt >= t then r.updatedAt else t)
  }

  function MaintainedRows(db: Db, id: string, digest: string, t: int): map<string, Result> {
    if NeedsMaintenance(db, id, digest, t) then db.rows[id := Maintained(db.rows[id], t)] else db.rows
  }

  predicate Closed(state: State) {
    state in {Failed, Expired, Stale}
  }

  /** Everything the owner accepted still stands and no deadline has passed. */
  predicate InTime(db: Db, r: Result, digest: string, t: int) {
    && r.requestId in db.parents && db.parents[r.requestId].revision == r.requestRevision
    && db.snapshot == Some(r.spec.snapshotId) && digest == r.spec.catalogDigest
    && (r.state == ConfirmationRequired ==> t < r.responseDeadline)
    && (r.state == Building || r.state == InReview ==> t < r.expiresAt)
  }

  /** After its turn a row is closed, or stands as accepted and in time, and a second turn
      would change nothing. A row is closed by its turn exactly when it did not stand, as
      expired if a deadline had passed and as stale otherwise, without evidence to serve or
      a lease to work under; a closed row, and every other row, is left alone. */
  lemma MaintenanceSettles(db: Db, id: string, digest: string, t: int)
    requires id in db.rows && id in db.parents && db.rows[id].requestId == id
    ensures var r := db.rows[id]; var after := MaintainedRows(db, id, digest, t); var r' := after[id];
            && (Closed(r'.state) || InTime(db, r', digest, t))
            && MaintainedRows(db.(rows := after), id, digest, t) == after
            && (Closed(r.state) || InTime(db, r, digest, t) <==> after == db.rows)
            && (after != db.rows ==>
                  && Closed(r'.state) && r'.evidence.None? && r'.leaseExpiresAt.None? && r'.revision == r.revision + 1
                  && (r'.state == Expired <==>
                        (r.state != Released && t >= (if r.state == ConfirmationRequired then r.responseDeadline else r.expiresAt))))
            && after == db.rows[id := r']
  {
    var after := MaintainedRows(db, id, digest, t);
    if NeedsMaintenance(db, id, digest, t) {
      assert after[id].revision != db.rows[id].revision;
    } else {
      assert db.rows[id := db.rows[id]] == db.rows;
    }
  }

  // ---------------------------------------------------------------- decisions

  /** Parent revision and snapshot as a handler last read them. They are two reads, so a
      pair need not be of any one moment: each step is given an arbitrary one. */
  datatype Binding = Binding(revision: int, snapshotId: Option<string>)

  predicate Live(row: Result, now: int) {
    row.expiresAt > now
  }

  /** The successor of a row; a clock behind the row's last change is an error. */
  function Next(row: Result, changed: Result, now: int): Option<Result> {
    if now < row.updatedAt then None else Some(changed.(revision := row.revision + 1, updatedAt := now))
  }

  function DecidePropose(current: Binding, accountSub: string, spec: Spec, parentExpiresAt: int, now: int): Option<Result> {
    if spec.requestRevision < 1 || parentExpiresAt <= now
       || current != Binding(spec.requestRevision, Some(spec.snapshotId)) then None
    else Some(Result(spec.requestId, accountSub, spec.requestRevision, 1, ConfirmationRequired, spec, 0, None, None, None, None,
                     now, now, Min(now + DAY_MS, parentExpiresAt), parentExpiresAt))
  }

  predicate Confirmable(row: Result, now: int) {
    row.state == ConfirmationRequired && Live(row, now) && row.responseDeadline > now
  }

  function DecideConfirm(current: Binding, row: Result, finished: int): Option<Result> {
    if current != Binding(row.requestRevision, Some(row.spec.snapshotId)) || !Confirmable(row, finished)
    then None
    else Next(row, row.(state := Building), finished)
  }

  function DecideClaim(row: Result, revision: int, service: string, lease: string, now: int): Option<Result> {
    if row.revision != revision || !Live(row, now) || row.attempt >= MAX_ATTEMPTS || row.state != Building || row.leaseId == Some(lease)
    then None
    else Next(row, row.(state := InReview, attempt := row.attempt + 1, leaseId := Some(lease), leaseOwner := Some(service),
                        leaseExpiresAt := Some(Min(now + LEASE_MS, row.expiresAt))), now)
  }

  predicate Completable(row: Result, revision: int, service: string, leaseId: string, now: int) {
    && row.revision == revision && row.state == InReview && row.leaseOwner == Some(service) && row.leaseId == Some(leaseId)
    && row.leaseExpiresAt.Some? && row.leaseExpiresAt.value > now && Live(row, now)
  }

  /** What the executor answered, as far as verification reads it. */
  datatype Response = Response(artifactKey: string, snapshotId: string, entityId: string, value: real, attribution: string)

  /** The response answers the accepted spec, under a binding that is still the spec's. */
  predicate Verifies(spec: Spec, r: Response, id: string, current: Binding, digest: string, attribution: string) {
    && spec.requestId == id && spec.requestRevision == current.revision && current.snapshotId == Some(spec.snapshotId)
    && spec.catalogDigest == digest
    && r.artifactKey == spec.artifactKey && r.snapshotId == spec.snapshotId && r.entityId == spec.entityId
    && attribution != "" && r.attribution == attribution
  }

  function DecideComplete(current: Binding, row: Result, r: Response, verified: Binding, finished: int): Option<Result> {
    if current != verified || row.leaseExpiresAt.None? || finished >= row.leaseExpiresAt.value
       || !Live(row, finished)
    then None
    else Next(row, row.(state := Released, leaseExpiresAt := None,
                        evidence := Some(Evidence(row.spec.artifactKey, row.spec.snapshotId, row.spec.entityId,
                                                  r.value, r.attribution, finished))), finished)
  }

  function DecideRecover(row: Result, revision: int, now: int): Option<Result> {
    if row.revision != revision || row.state in {Released, Failed, Expired} then None
    else if !Live(row, now) || (row.state == ConfirmationRequired && row.responseDeadline <= now) then
      Next(row, row.(state := Expired, leaseExpiresAt := None), now)
    else if row.state != InReview || row.leaseExpiresAt.None? || row.leaseExpiresAt.value > now then None
    else Next(row, row.(state := if row.attempt >= MAX_ATTEMPTS then Failed else Building, leaseExpiresAt := None), now)
  }

  // ---------------------------------------------------------------- the store in place

  class D1QuestionResultStore {
    var rows: map<string, Result>
    var parents: map<string, Parent>
    var snapshot: Option<string>

    function Tables(): Db
      reads this
    {
      Db(rows, parents, snapshot)
    }

    constructor (tables: Db)
      ensures Tables() == tables
    {
      rows, parents, snapshot := tables.rows, tables.parents, tables.snapshot;
    }

    method Read(id: string) returns (row: Option<Result>)
      ensures row == Get(Tables(), id)
    {
      row := if id in rows && rows[id].state != Stale then Some(rows[id]) else None;
    }

    method CompareAndSet(before: Option<Result>, next: Result, digest: string, t: int) returns (ok: bool)
      modifies this
      ensures ok <==> CanWrite(old(Tables()), before, next, digest, t)
      ensures Tables() == if ok then old(Tables()).(rows := old(rows)[next.requestId := Written(old(Tables()), before, next)])
                          else old(Tables())
    {
      var closing := next.state == Expired || next.state == Failed;
      if next.spec.requestId != next.requestId || next.spec.requestRevision != next.requestRevision {
        return false;
      }
      if !closing && next.spec.catalogDigest != digest {
        return false;
      }
      if before.None? {
        if !CanInsert(Tables(), next, t) {
          return false;
        }
        rows := rows[next.requestId := next];
        return true;
      }
      if !CanUpdate(Tables(), before.value, next, t) {
        return false;
      }
      var row := rows[next.requestId].(state := next.state, revision := next.revision, evidence := next.evidence);
      row := row.(attempt := next.attempt, leaseId := next.leaseId, leaseOwner := next.leaseOwner);
      rows := rows[next.requestId := row.(leaseExpiresAt := next.leaseExpiresAt, updatedAt := next.updatedAt)];
      ok := true;
    }

    /** One maintained row; the query behind it lists such rows up to a limit. */
    method Maintain(id: string, digest: string, t: int) returns (moved: bool)
      modifies this`rows
      ensures rows == MaintainedRows(old(Tables()), id, digest, t)
      ensures moved <==> rows != old(rows)
      ensures id in rows && id in parents && rows[id].requestId == id ==>
                Closed(rows[id].state) || InTime(Tables(), rows[id], digest, t)
    {
      if id !in rows || id !in parents {
        return false;
      }
      ghost var before := Tables();
      var r := rows[id];
      var asking, working := r.state == ConfirmationRequired, r.state == Building || r.state == InReview;
      var late := (asking && r.responseDeadline <= t) || (working && r.expiresAt <= t);
      var current := r.requestRevision == parents[id].revision && snapshot == Some(r.spec.snapshotId) && r.spec.catalogDigest == digest;
      moved := late || ((asking || working || r.state == Released) && !current);
      if moved {
        r := r.(state := if late then Expired else Stale, evidence := None, leaseExpiresAt := None);
        rows := rows[id := r.(revision := r.revision + 1, updatedAt := if r.updatedAt >= t then r.updatedAt else t)];
        assert rows[id].revision != before.rows[id].revision;
      }
      if before.rows[id].requestId == id { MaintenanceSettles(before, id, digest, t); }
    }
  }
}
