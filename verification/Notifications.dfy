/** The notification ledger: one row per request, a creation that is granted once, and
    leases that each carry one frozen payload. Times are whole seconds in milliseconds. */
module Notifications {
  import opened Options

  datatype Payload = Payload(status: string, path: Option<string>)

  /** A payload and the desired revision it belongs to. */
  datatype Numbered = Numbered(revision: int, payload: Payload)

  datatype CreateState = Ready | Pending | Bound

  /** The lease columns, which are set and cleared together, with the payload in flight. */
  datatype Lease = Lease(id: string, owner: string, expiresAt: int, inflight: Numbered)

  datatype Row = Row(
    revision: int, desired: Numbered, delivered: int, createState: CreateState, issue: Option<int>,
    creation: Option<Numbered>, lease: Option<Lease>, expiresAt: int)

  /** The source row of a request: `version` stands for all the columns the fence compares,
      `answerBy` is the response deadline of a result that waits for its owner. */
  datatype Source = Source(version: int, expiresAt: int, answerBy: Option<int>)

  /** What a request projects to, and the source row it was read from. */
  datatype Projection = Projection(source: Source, payload: Payload)

  datatype Action = Create | Reconcile | Update

  datatype Outcome = Delivered | Retry

  const LEASE_MS := 900_000

  function Min(a: int, b: int): int {
    if a <= b then a else b
  }

  function Max(a: int, b: int): int {
    if a >= b then a else b
  }

  /** The source row is still the one projected and not past its end; and of a row that
      waits for its owner, `expired` is projected exactly from the deadline on. */
  predicate FencedAt(source: map<string, Source>, id: string, p: Projection, t: int) {
    && id in source && source[id] == p.source && p.source.expiresAt > t
    && (p.source.answerBy.Some? ==> (p.payload.status == "expired") == (p.source.answerBy.value <= t))
  }

  // ---------------------------------------------------------------- recover and refresh

  predicate CanRecover(row: Row, t: int) {
    row.lease.Some? && row.lease.value.expiresAt <= t && row.expiresAt > t
  }

  function Cleared(row: Row): Row {
    row.(lease := None, revision := row.revision + 1)
  }

  function Inserted(p: Payload, expiresAt: int): Row {
    Row(1, Numbered(1, p), 0, Ready, None, None, None, expiresAt)
  }

  function Refreshed(row: Row, p: Payload): Row {
    row.(desired := if row.desired.payload == p then row.desired else Numbered(row.desired.revision + 1, p),
         revision := row.revision + 1)
  }

  function RecoveredRows(rows: map<string, Row>, id: string, t: int): map<string, Row> {
    if id in rows && CanRecover(rows[id], t) then rows[id := Cleared(rows[id])] else rows
  }

  /** The ledger after refreshing `id` to the payload its fenced projection shows. */
  function RefreshedRows(rows: map<string, Row>, id: string, fenced: Option<Payload>, expiresAt: int, t: int): map<string, Row> {
    var base := RecoveredRows(rows, id, t);
    if fenced.None? then base
    else base[id := if id in base then Refreshed(base[id], fenced.value) else Inserted(fenced.value, expiresAt)]
  }

  // ---------------------------------------------------------------- grants

  predicate CanPrepare(row: Row, expected: int, t: int) {
    row.revision == expected && row.lease.None? && row.expiresAt > t
  }

  /** All right-hand sides see the row before the update. */
  function Prepared(row: Row, lease: string, service: string, t: int): Row {
    row.(createState := if row.createState == Ready then Pending else row.createState,
         creation := if row.createState == Ready then Some(row.desired) else row.creation,
         lease := Some(Lease(lease, service, Min(row.expiresAt, t + LEASE_MS),
                             if row.createState == Pending && row.creation.Some? then row.creation.value else row.desired)),
         revision := row.revision + 1)
  }

  function ActionFor(read: Row): Action {
    match read.createState
    case Ready => Create
    case Pending => Reconcile
    case Bound => Update
  }

  predicate Holds(row: Row, expected: int, lease: string, service: string, t: int) {
    && row.revision == expected && row.lease.Some? && row.lease.value.id == lease && row.lease.value.owner == service
    && row.lease.value.expiresAt > t && row.expiresAt > t
  }

  // ---------------------------------------------------------------- bind and ack

  predicate CanBind(rows: map<string, Row>, id: string, expected: int, lease: string, service: string, issue: int, t: int) {
    && id in rows && rows[id].createState == Pending && Holds(rows[id], expected, lease, service, t)
    && (forall other | other in rows && other != id :: rows[other].issue != Some(issue))
  }

  ghost predicate IssuesApart(rows: map<string, Row>) {
    forall a, b | a in rows && b in rows && a != b && rows[a].issue.Some? :: rows[a].issue != rows[b].issue
  }

  function BoundTo(row: Row, issue: int): Row {
    Cleared(row).(createState := Bound, issue := Some(issue))
  }

  /** A delivery needs a bound issue; giving a lease back early is only possible before. */
  predicate CanAck(row: Row, expected: int, lease: string, service: string, outcome: Outcome, t: int) {
    Holds(row, expected, lease, service, t) && row.createState == (if outcome == Delivered then Bound else Pending)
  }

  function Acked(row: Row, outcome: Outcome): Row
    requires row.lease.Some?
  {
    Cleared(row).(delivered := if outcome == Delivered then Max(row.delivered, row.lease.value.inflight.revision) else row.delivered)
  }

  // ---------------------------------------------------------------- the ledger in place

  class D1NotificationStore {
    var rows: map<string, Row>
    var source: map<string, Source>

    constructor ()
      ensures rows == map[] && source == map[]
    {
      rows, source := map[], map[];
    }

    predicate Fenced(id: string, p: Projection, t: int)
      reads this
    {
      FencedAt(source, id, p, t)
    }

    function FencedPayload(id: string, p: Option<Projection>, t: int): Option<Payload>
      reads this
    {
      if p.Some? && Fenced(id, p.value, t) then Some(p.value.payload) else None
    }

    method Recover(id: string, t: int)
      modifies this`rows
      ensures rows == RecoveredRows(old(rows), id, t)
    {
      if id in rows && rows[id].lease.Some? && rows[id].lease.value.expiresAt <= t && rows[id].expiresAt > t {
        var row := rows[id].(lease := None);
        rows := rows[id := row.(revision := row.revision + 1)];
      }
    }

    /** The whole of refresh when nothing runs between its statements. */
    method Refresh(id: string, p: Option<Projection>, expiresAt: int, t: int) returns (row: Option<Row>)
      modifies this`rows
      ensures rows == RefreshedRows(old(rows), id, FencedPayload(id, p, t), expiresAt, t)
      ensures row == if FencedPayload(id, p, t).Some? then Some(rows[id]) else None
    {
      Recover(id, t);
      if p.None? || !Fenced(id, p.value, t) {
        return None;
      }
      if id !in rows {
        rows := rows[id := Row(1, Numbered(1, p.value.payload), 0, Ready, None, None, None, expiresAt)];
      } else {
        var r := rows[id];
        if r.desired.payload != p.value.payload {
          r := r.(desired := Numbered(r.desired.revision + 1, p.value.payload));
        }
        rows := rows[id := r.(revision := r.revision + 1)];
      }
      row := Some(rows[id]);
    }

    /** A payload that is no longer the desired one is refreshed instead of granted. */
    method Prepare(id: string, expected: int, service: string, lease: string, p: Option<Projection>, expiresAt: int, t: int)
      returns (grant: Option<(Action, Numbered)>)
      modifies this`rows
      ensures grant.Some? <==>
                && id in old(rows) && CanPrepare(old(rows)[id], expected, t)
                && p.Some? && p.value.payload == old(rows)[id].desired.payload && Fenced(id, p.value, t)
      ensures grant.Some? ==>
                && rows == old(rows)[id := Prepared(old(rows)[id], lease, service, t)]
                && grant.value == (ActionFor(old(rows)[id]), rows[id].lease.value.inflight)
      ensures grant.None? ==>
                var stale := id in old(rows) && old(rows)[id].revision == expected && old(rows)[id].lease.None?
                             && p.Some? && p.value.payload != old(rows)[id].desired.payload;
                rows == if stale then RefreshedRows(old(rows), id, FencedPayload(id, p, t), expiresAt, t) else old(rows)
    {
      if id !in rows || rows[id].revision != expected || rows[id].lease.Some? || p.None? {
        return None;
      }
      var was := rows[id];
      if was.desired.payload != p.value.payload {
        var _ := Refresh(id, p, expiresAt, t);
        return None;
      }
      if was.expiresAt <= t || !Fenced(id, p.value, t) {
        return None;
      }
      var row := was;
      var inflight := if was.createState == Pending && was.creation.Some? then was.creation.value else was.desired;
      if was.createState == Ready {
        row := row.(createState := Pending, creation := Some(was.desired));
      }
      row := row.(lease := Some(Lease(lease, service, Min(was.expiresAt, t + LEASE_MS), inflight)), revision := was.revision + 1);
      rows := rows[id := row];
      grant := Some((if was.createState == Ready then Create else if was.createState == Pending then Reconcile else Update, inflight));
    }

    method Check(id: string, expected: int, service: string, lease: string, p: Option<Projection>, t: int) returns (ok: bool)
      ensures ok <==>
                && id in rows && Holds(rows[id], expected, lease, service, t) && p.Some? && Fenced(id, p.value, t)
                && (rows[id].createState == Bound || rows[id].lease.value.inflight.payload.status == "released" ==>
                      rows[id].lease.value.inflight.payload == p.value.payload)
    {
      if id !in rows || !Holds(rows[id], expected, lease, service, t) || p.None? || !Fenced(id, p.value, t) {
        return false;
      }
      var sent := rows[id].lease.value.inflight.payload;
      ok := (rows[id].createState != Bound && sent.status != "released") || sent == p.value.payload;
    }

    /** The schema aborts a second request with one issue. */
    method Bind(id: string, expected: int, lease: string, service: string, issue: int, t: int) returns (ok: bool)
      modifies this`rows
      ensures ok <==> CanBind(old(rows), id, expected, lease, service, issue, t)
      ensures rows == if ok then old(rows)[id := BoundTo(old(rows)[id], issue)] else old(rows)
      ensures ok ==> rows[id].createState == Bound && rows[id].issue == Some(issue) && rows[id].lease.None?
      ensures old(IssuesApart(rows)) ==> IssuesApart(rows)
    {
      if id !in rows || rows[id].createState != Pending || rows[id].revision != expected || rows[id].lease.None? {
        return false;
      }
      var held := rows[id].lease.value;
      if held.id != lease || held.owner != service || held.expiresAt <= t || rows[id].expiresAt <= t {
        return false;
      }
      if exists other | other in rows && other != id :: rows[other].issue == Some(issue) {
        return false;
      }
      var row := rows[id].(createState := Bound, issue := Some(issue), lease := None);
      rows := rows[id := row.(revision := row.revision + 1)];
      ok := true;
    }

    /** A retry after binding reports success and keeps the lease until it expires. */
    method Ack(id: string, expected: int, lease: string, service: string, outcome: Outcome, p: Option<Projection>, t: int)
      returns (ok: bool)
      modifies this`rows
      ensures var held := id in old(rows) && Holds(old(rows)[id], expected, lease, service, t);
              match outcome
              case Delivered =>
                && (ok <==> held && old(rows)[id].createState == Bound && p.Some? && Fenced(id, p.value, t)
                            && old(rows)[id].lease.value.inflight.payload == p.value.payload)
                && rows == if ok then old(rows)[id := Acked(old(rows)[id], Delivered)] else old(rows)
              case Retry =>
                && (ok <==> held && old(rows)[id].createState != Ready)
                && rows == if ok && old(rows)[id].createState == Pending then old(rows)[id := Acked(old(rows)[id], Retry)] else old(rows)
    {
      if id !in rows || !Holds(rows[id], expected, lease, service, t) {
        return false;
      }
      var row := rows[id];
      if outcome == Delivered {
        if p.None? || row.lease.value.inflight.payload != p.value.payload || !Fenced(id, p.value, t) || row.createState != Bound {
          return false;
        }
        row := row.(delivered := Max(row.delivered, row.lease.value.inflight.revision));
      } else {
        if row.createState == Bound {
          return true;
        }
        if row.createState != Pending {
          return false;
        }
      }
      rows := rows[id := row.(lease := None, revision := row.revision + 1)];
      ok := true;
    }
  }
}
