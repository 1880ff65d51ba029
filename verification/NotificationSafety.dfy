/** The notification ledger under interleaving: refreshes, grants and acknowledgements in
    separate steps, while their sources move and leases run out. */
module NotificationSafety {
  import opened Options
  import opened Notifications

  // ---------------------------------------------------------------- the machine

  /** A call between its read of the ledger and its write; `p` is filled by projecting. */
  datatype Call =
    | Refreshing(id: string, stored: Option<Row>, p: Option<Projection>)
    | Preparing(id: string, read: Row, service: string, lease: string, p: Option<Projection>)
    | Acking(id: string, expected: int, lease: string, service: string, outcome: Outcome, read: Row, p: Option<Projection>)

  datatype Grant = Grant(id: string, action: Action, sent: Numbered, lease: Lease)

  /** A delivery, with the projection it was fenced by; `informed` says that the caller's
      read was not older than the revision it named. */
  datatype Delivery = Delivery(id: string, sent: Numbered, projected: Payload, informed: bool)

  /** `payloads` remembers what each desired revision was. */
  datatype World = World(
    rows: map<string, Row>, source: map<string, Source>, payloads: map<(string, int), Payload>,
    calls: map<nat, Call>, grants: seq<Grant>, deliveries: seq<Delivery>)

  datatype Event =
    | SourceMoves(id: string, source: Source)
    | Recover(id: string, t: int)
    | BeginRefresh(c: nat, id: string)
    | BeginPrepare(c: nat, id: string, expected: int, service: string, lease: string)
    | BeginAck(c: nat, id: string, expected: int, lease: string, service: string, outcome: Outcome)
    | Project(c: nat, payload: Payload)
    | RefreshWrite(c: nat, expiresAt: int, t: int)
    | PrepareWrite(c: nat, t: int)
    | AckWrite(c: nat, t: int)
    | Bind(id: string, expected: int, lease: string, service: string, issue: int, t: int)
    | Failure(c: nat)

  function Put(w: World, id: string, row: Row): World {
    w.(rows := w.rows[id := row], payloads := w.payloads[(id, row.desired.revision) := row.desired.payload])
  }

  function RefreshStep(w: World, c: nat, expiresAt: int, t: int): World {
    if c !in w.calls || !w.calls[c].Refreshing? then w
    else
      var call := w.calls[c];
      var rest := w.(calls := w.calls - {c});
      if call.p.None? || !FencedAt(w.source, call.id, call.p.value, t) then rest
      else if call.stored.None? then
        if call.id in w.rows then rest else Put(rest, call.id, Inserted(call.p.value.payload, expiresAt))
      else if call.id in w.rows && w.rows[call.id].revision == call.stored.value.revision then
        Put(rest, call.id, Refreshed(w.rows[call.id], call.p.value.payload))
      else rest
  }

  function PrepareStep(w: World, c: nat, t: int): World {
    if c !in w.calls || !w.calls[c].Preparing? then w
    else
      var call := w.calls[c];
      var rest := w.(calls := w.calls - {c});
      if call.p.None? || call.id !in w.rows || call.p.value.payload != call.read.desired.payload
         || !FencedAt(w.source, call.id, call.p.value, t) || !CanPrepare(w.rows[call.id], call.read.revision, t) then rest
      else
        var row := Prepared(w.rows[call.id], call.lease, call.service, t);
        Put(rest, call.id, row).(grants := w.grants + [Grant(call.id, ActionFor(call.read), row.lease.value.inflight, row.lease.value)])
  }

  function AckStep(w: World, c: nat, t: int): World {
    if c !in w.calls || !w.calls[c].Acking? then w
    else
      var call := w.calls[c];
      var rest := w.(calls := w.calls - {c});
      if call.id !in w.rows || !CanAck(w.rows[call.id], call.expected, call.lease, call.service, call.outcome, t) then rest
      else if call.outcome == Retry then
        if call.read.createState == Bound || !Holds(call.read, call.expected, call.lease, call.service, t) then rest
        else Put(rest, call.id, Acked(w.rows[call.id], Retry))
      else if call.p.None? || !FencedAt(w.source, call.id, call.p.value, t) || call.read.lease.None?
              || call.read.lease.value.inflight.payload != call.p.value.payload then rest
      else
        Put(rest, call.id, Acked(w.rows[call.id], Delivered)).(
          deliveries := w.deliveries + [Delivery(call.id, w.rows[call.id].lease.value.inflight, call.p.value.payload,
                                                 call.read.revision >= call.expected)])
  }

  function Step(w: World, e: Event): World {
    match e
    case SourceMoves(id, source) => w.(source := w.source[id := source])
    case Recover(id, t) => if id in w.rows && CanRecover(w.rows[id], t) then Put(w, id, Cleared(w.rows[id])) else w
    case BeginRefresh(c, id) =>
      w.(calls := w.calls[c := Refreshing(id, if id in w.rows then Some(w.rows[id]) else None, None)])
    case BeginPrepare(c, id, expected, service, lease) =>
      if id !in w.rows || w.rows[id].revision != expected || w.rows[id].lease.Some? then w
      else w.(calls := w.calls[c := Preparing(id, w.rows[id], service, lease, None)])
    case BeginAck(c, id, expected, lease, service, outcome) =>
      if id !in w.rows then w
      else w.(calls := w.calls[c := Acking(id, expected, lease, service, outcome, w.rows[id], None)])
    case Project(c, payload) =>
      if c !in w.calls || w.calls[c].id !in w.source then w
      else w.(calls := w.calls[c := w.calls[c].(p := Some(Projection(w.source[w.calls[c].id], payload)))])
    case RefreshWrite(c, expiresAt, t) => RefreshStep(w, c, expiresAt, t)
    case PrepareWrite(c, t) => PrepareStep(w, c, t)
    case AckWrite(c, t) => AckStep(w, c, t)
    case Bind(id, expected, lease, service, issue, t) =>
      if CanBind(w.rows, id, expected, lease, service, issue, t) then Put(w, id, BoundTo(w.rows[id], issue)) else w
    case Failure(c) => w.(calls := w.calls - {c})
  }

  function Run(w: World, events: seq<Event>): World {
    if events == [] then w else Step(Run(w, events[..|events| - 1]), events[|events| - 1])
  }

  const EMPTY := World(map[], map[], map[], map[], [], [])

  // ---------------------------------------------------------------- the invariant

  predicate RowShape(r: Row) {
    && r.revision >= 1 && r.desired.revision >= 1 && 0 <= r.delivered <= r.desired.revision
    && (r.creation.None? <==> r.createState == Ready)
    && (r.issue.Some? <==> r.createState == Bound)
    && (r.createState != Bound ==> r.delivered == 0)
    && (r.createState == Ready ==> r.lease.None?)
    && (r.createState == Pending && r.lease.Some? ==> Some(r.lease.value.inflight) == r.creation)
  }

  /** A numbered payload is the payload of its revision. */
  ghost predicate Named(payloads: map<(string, int), Payload>, id: string, n: Numbered) {
    (id, n.revision) in payloads && payloads[(id, n.revision)] == n.payload
  }

  ghost predicate RowNamed(payloads: map<(string, int), Payload>, id: string, r: Row) {
    && Named(payloads, id, r.desired)
    && (r.creation.Some? ==> Named(payloads, id, r.creation.value))
    && (r.lease.Some? ==> Named(payloads, id, r.lease.value.inflight))
    && (r.delivered > 0 ==> (id, r.delivered) in payloads)
  }

  ghost predicate RowsSound(rows: map<string, Row>, payloads: map<(string, int), Payload>) {
    && (forall id | id in rows :: RowShape(rows[id]) && RowNamed(payloads, id, rows[id]))
    && (forall id, k | (id, k) in payloads :: id in rows && 1 <= k <= rows[id].desired.revision)
    && IssuesApart(rows)
  }

  ghost predicate Fresh(rows: map<string, Row>, id: string, read: Row) {
    id in rows && read.revision <= rows[id].revision && (read.revision == rows[id].revision ==> read == rows[id])
  }

  /** A read that holds a lease still shows what the lease carries. */
  ghost predicate CallSound(rows: map<string, Row>, call: Call) {
    match call
    case Refreshing(id, stored, _) => stored.Some? ==> Fresh(rows, id, stored.value)
    case Preparing(id, read, _, _, _) => Fresh(rows, id, read)
    case Acking(id, _, _, _, _, read, _) => Fresh(rows, id, read)
  }

  ghost predicate CallsSound(rows: map<string, Row>, calls: map<nat, Call>) {
    forall c | c in calls :: CallSound(rows, calls[c])
  }

  ghost predicate GrantSound(rows: map<string, Row>, payloads: map<(string, int), Payload>, g: Grant) {
    && g.id in rows && rows[g.id].createState != Ready && Named(payloads, g.id, g.sent) && g.lease.inflight == g.sent
    && (if g.action == Update then rows[g.id].createState == Bound else Some(g.sent) == rows[g.id].creation)
  }

  function LastGrant(grants: seq<Grant>, id: string): Option<Grant> {
    if grants == [] then None
    else if grants[|grants| - 1].id == id then Some(grants[|grants| - 1])
    else LastGrant(grants[..|grants| - 1], id)
  }

  ghost predicate Created(grants: seq<Grant>, id: string) {
    exists i :: 0 <= i < |grants| && grants[i].id == id && grants[i].action == Create
  }

  ghost predicate GrantsSound(rows: map<string, Row>, payloads: map<(string, int), Payload>, grants: seq<Grant>) {
    && (forall i | 0 <= i < |grants| :: GrantSound(rows, payloads, grants[i]))
    && (forall i, j | 0 <= i < j < |grants| && grants[i].id == grants[j].id ::
          grants[j].action != Create && (grants[i].action == Update ==> grants[j].action == Update))
    && (forall id | id in rows && rows[id].createState != Ready :: Created(grants, id))
  }

  ghost predicate LeasesGranted(rows: map<string, Row>, grants: seq<Grant>) {
    forall id | id in rows && rows[id].lease.Some? ::
      LastGrant(grants, id).Some? && LastGrant(grants, id).value.lease == rows[id].lease.value
  }

  ghost predicate Granted(grants: seq<Grant>, id: string, sent: Numbered) {
    exists j :: 0 <= j < |grants| && grants[j].id == id && grants[j].sent == sent
  }

  ghost predicate DeliverySound(rows: map<string, Row>, payloads: map<(string, int), Payload>, d: Delivery) {
    && d.id in rows && rows[d.id].createState == Bound && d.sent.revision <= rows[d.id].delivered
    && Named(payloads, d.id, d.sent) && (d.informed ==> d.sent.payload == d.projected)
  }

  /** What was delivered had been granted. */
  ghost predicate DeliveriesSound(rows: map<string, Row>, payloads: map<(string, int), Payload>, grants: seq<Grant>,
                                  deliveries: seq<Delivery>) {
    forall i | 0 <= i < |deliveries| ::
      DeliverySound(rows, payloads, deliveries[i]) && Granted(grants, deliveries[i].id, deliveries[i].sent)
  }

  ghost predicate Inv(w: World) {
    && RowsSound(w.rows, w.payloads)
    && CallsSound(w.rows, w.calls)
    && GrantsSound(w.rows, w.payloads, w.grants)
    && LeasesGranted(w.rows, w.grants)
    && DeliveriesSound(w.rows, w.payloads, w.grants, w.deliveries)
  }

  // ---------------------------------------------------------------- one row moves

  /** What a write may do to a row, whatever the operation. */
  predicate Succeeds(read: Row, next: Row) {
    && next.revision == read.revision + 1
    && (next.desired == read.desired
        || (next.desired.revision == read.desired.revision + 1 && next.desired.payload != read.desired.payload))
    && read.delivered <= next.delivered
    && (read.createState != Ready ==> next.createState != Ready && next.creation == read.creation)
    && (read.createState == Bound ==> next.createState == Bound && next.issue == read.issue)
    && (next.lease == read.lease || next.lease.None? || read.lease.None?)
  }

  /** Naming only grows: no revision is ever given a second payload. */
  lemma PutKeepsNames(w: World, id: string, next: Row)
    requires RowsSound(w.rows, w.payloads) && id in w.rows && Succeeds(w.rows[id], next)
    ensures forall k | k in w.payloads :: k in Put(w, id, next).payloads && Put(w, id, next).payloads[k] == w.payloads[k]
  {
    assert RowNamed(w.payloads, id, w.rows[id]);
  }

  lemma IssuesStayApart(rows: map<string, Row>, id: string, next: Row)
    requires IssuesApart(rows)
    requires next.issue.Some? ==> forall other | other in rows && other != id :: rows[other].issue != next.issue
    ensures IssuesApart(rows[id := next])
  {
  }

  lemma PutKeepsRows(w: World, id: string, next: Row)
    requires RowsSound(w.rows, w.payloads) && id in w.rows && Succeeds(w.rows[id], next) && RowShape(next)
    requires RowNamed(Put(w, id, next).payloads, id, next)
    requires next.issue.Some? ==> forall other | other in w.rows && other != id :: w.rows[other].issue != next.issue
    ensures RowsSound(Put(w, id, next).rows, Put(w, id, next).payloads)
  {
    PutKeepsNames(w, id, next);
    hide RowShape, IssuesApart;
    IssuesStayApart(w.rows, id, next);
    var w' := Put(w, id, next);
    forall other | other in w'.rows
      ensures RowShape(w'.rows[other]) && RowNamed(w'.payloads, other, w'.rows[other])
    {
      if other != id { assert RowNamed(w.payloads, other, w.rows[other]); }
    }
  }

  lemma PutKeepsCalls(w: World, id: string, next: Row)
    requires CallsSound(w.rows, w.calls) && (id in w.rows ==> next.revision > w.rows[id].revision)
    ensures CallsSound(Put(w, id, next).rows, w.calls)
  {
    forall c | c in w.calls
      ensures CallSound(Put(w, id, next).rows, w.calls[c])
    {
      assert CallSound(w.rows, w.calls[c]);
    }
  }

  lemma PutKeepsGrants(w: World, id: string, next: Row)
    requires RowsSound(w.rows, w.payloads) && GrantsSound(w.rows, w.payloads, w.grants)
    requires id in w.rows && Succeeds(w.rows[id], next)
    requires next.createState != Ready ==> w.rows[id].createState != Ready
    ensures GrantsSound(Put(w, id, next).rows, Put(w, id, next).payloads, w.grants)
  {
    PutKeepsNames(w, id, next);
    hide RowsSound;
    var w' := Put(w, id, next);
    forall i | 0 <= i < |w.grants|
      ensures GrantSound(w'.rows, w'.payloads, w.grants[i])
    {
      assert GrantSound(w.rows, w.payloads, w.grants[i]);
    }
  }

  lemma PutKeepsDeliveries(w: World, id: string, next: Row)
    requires RowsSound(w.rows, w.payloads) && DeliveriesSound(w.rows, w.payloads, w.grants, w.deliveries)
    requires id in w.rows && Succeeds(w.rows[id], next)
    ensures DeliveriesSound(Put(w, id, next).rows, Put(w, id, next).payloads, w.grants, w.deliveries)
  {
    PutKeepsNames(w, id, next);
    hide RowsSound, Granted;
    forall i | 0 <= i < |w.deliveries|
      ensures DeliverySound(Put(w, id, next).rows, Put(w, id, next).payloads, w.deliveries[i])
    {
      assert DeliverySound(w.rows, w.payloads, w.deliveries[i]);
    }
  }

  /** What the invariant says about one stored row. */
  ghost predicate RowFacts(w: World, id: string) {
    && id in w.rows && RowShape(w.rows[id]) && RowNamed(w.payloads, id, w.rows[id])
    && (forall k | (id, k) in w.payloads :: 1 <= k <= w.rows[id].desired.revision)
    && (forall other | other in w.rows && other != id && w.rows[id].issue.Some? :: w.rows[other].issue != w.rows[id].issue)
  }

  lemma StoredRowFacts(w: World, id: string)
    requires RowsSound(w.rows, w.payloads) && id in w.rows
    ensures RowFacts(w, id)
  {
    hide RowShape, RowNamed;
  }

  /** A row that may replace the stored one without a grant or a delivery. */
  ghost predicate PlainNext(w: World, id: string, next: Row)
    requires id in w.rows
  {
    && Succeeds(w.rows[id], next) && RowShape(next)
    && RowNamed(Put(w, id, next).payloads, id, next)
    && (next.issue.Some? ==> forall other | other in w.rows && other != id :: w.rows[other].issue != next.issue)
    && (next.createState != Ready ==> w.rows[id].createState != Ready)
    && (next.lease == w.rows[id].lease || next.lease.None?)
  }

  lemma PlainPutKeepsInv(w: World, id: string, next: Row)
    requires Inv(w) && id in w.rows && PlainNext(w, id, next)
    ensures Inv(Put(w, id, next))
  {
    PutKeepsRows(w, id, next);
    PutKeepsCalls(w, id, next);
    PutKeepsGrants(w, id, next);
    PutKeepsDeliveries(w, id, next);
    hide RowsSound, CallsSound, GrantsSound, DeliveriesSound, RowShape, RowNamed;
  }

  lemma RefreshedIsPlain(w: World, id: string, p: Payload)
    requires RowFacts(w, id)
    ensures PlainNext(w, id, Refreshed(w.rows[id], p))
  {
  }

  lemma ClearedIsPlain(w: World, id: string)
    requires RowFacts(w, id)
    ensures PlainNext(w, id, Cleared(w.rows[id]))
  {
  }

  lemma BoundIsPlain(w: World, id: string, expected: int, lease: string, service: string, issue: int, t: int)
    requires RowFacts(w, id) && CanBind(w.rows, id, expected, lease, service, issue, t)
    ensures PlainNext(w, id, BoundTo(w.rows[id], issue))
  {
  }

  lemma DeliveredIsPlain(w: World, id: string)
    requires RowFacts(w, id) && w.rows[id].createState == Bound && w.rows[id].lease.Some?
    requires 1 <= w.rows[id].lease.value.inflight.revision
    ensures PlainNext(w, id, Acked(w.rows[id], Delivered))
  {
    assert (id, w.rows[id].lease.value.inflight.revision) in w.payloads;
  }

  // ---------------------------------------------------------------- the operations

  lemma DropKeepsInv(w: World, c: nat)
    requires Inv(w)
    ensures Inv(w.(calls := w.calls - {c}))
  {
    hide RowsSound, GrantsSound, LeasesGranted, DeliveriesSound, CallSound;
  }

  lemma SetCallKeepsInv(w: World, c: nat, call: Call)
    requires Inv(w) && CallSound(w.rows, call)
    ensures Inv(w.(calls := w.calls[c := call]))
  {
    hide RowsSound, GrantsSound, LeasesGranted, DeliveriesSound, CallSound;
  }

  lemma InsertKeepsRows(w: World, id: string, next: Row)
    requires RowsSound(w.rows, w.payloads) && id !in w.rows && RowShape(next) && next.desired.revision == 1
    requires next.createState == Ready && next.delivered == 0
    ensures RowsSound(Put(w, id, next).rows, Put(w, id, next).payloads)
    ensures forall k | k in w.payloads :: k in Put(w, id, next).payloads && Put(w, id, next).payloads[k] == w.payloads[k]
  {
    var w' := Put(w, id, next);
    assert RowNamed(w'.payloads, id, next);
    hide IssuesApart;
    IssuesStayApart(w.rows, id, next);
    hide RowShape;
    forall other | other in w'.rows && other != id
      ensures RowShape(w'.rows[other]) && RowNamed(w'.payloads, other, w'.rows[other])
    {
      assert RowNamed(w.payloads, other, w.rows[other]);
    }
  }

  lemma InsertKeepsGrants(w: World, id: string, next: Row)
    requires GrantsSound(w.rows, w.payloads, w.grants) && id !in w.rows && next.createState == Ready
    requires forall k | k in w.payloads :: k in Put(w, id, next).payloads && Put(w, id, next).payloads[k] == w.payloads[k]
    ensures GrantsSound(Put(w, id, next).rows, Put(w, id, next).payloads, w.grants)
  {
    var w' := Put(w, id, next);
    forall i | 0 <= i < |w.grants|
      ensures GrantSound(w'.rows, w'.payloads, w.grants[i])
    {
      assert GrantSound(w.rows, w.payloads, w.grants[i]);
    }
  }

  lemma InsertKeepsInv(w: World, id: string, p: Payload, expiresAt: int)
    requires Inv(w) && id !in w.rows
    ensures Inv(Put(w, id, Inserted(p, expiresAt)))
  {
    var next := Inserted(p, expiresAt);
    hide RowsSound, GrantsSound, CallsSound;
    InsertKeepsRows(w, id, next);
    InsertKeepsGrants(w, id, next);
    PutKeepsCalls(w, id, next);
    hide RowShape, RowNamed;
    assert LeasesGranted(Put(w, id, next).rows, w.grants);
    assert DeliveriesSound(Put(w, id, next).rows, Put(w, id, next).payloads, w.grants, w.deliveries);
  }

  lemma RefreshStepKeepsInv(w: World, c: nat, expiresAt: int, t: int)
    requires Inv(w)
    ensures Inv(RefreshStep(w, c, expiresAt, t))
  {
    if c in w.calls && w.calls[c].Refreshing? {
      var call := w.calls[c];
      DropKeepsInv(w, c);
      var rest := w.(calls := w.calls - {c});
      hide RowsSound, CallsSound, GrantsSound, LeasesGranted, DeliveriesSound, PlainNext, Refreshed, Inserted, Put, RowFacts;
      if call.p.Some? {
        if call.id in w.rows {
          StoredRowFacts(rest, call.id);
          RefreshedIsPlain(rest, call.id, call.p.value.payload);
          PlainPutKeepsInv(rest, call.id, Refreshed(w.rows[call.id], call.p.value.payload));
        } else {
          InsertKeepsInv(rest, call.id, call.p.value.payload, expiresAt);
        }
      }
    }
  }

  lemma ClearKeepsInv(w: World, id: string)
    requires Inv(w) && id in w.rows
    ensures Inv(Put(w, id, Cleared(w.rows[id])))
  {
    hide RowsSound, CallsSound, GrantsSound, LeasesGranted, DeliveriesSound, PlainNext, Cleared, Put, RowFacts;
    StoredRowFacts(w, id);
    ClearedIsPlain(w, id);
    PlainPutKeepsInv(w, id, Cleared(w.rows[id]));
  }

  lemma BindKeepsInv(w: World, id: string, expected: int, lease: string, service: string, issue: int, t: int)
    requires Inv(w) && CanBind(w.rows, id, expected, lease, service, issue, t)
    ensures Inv(Put(w, id, BoundTo(w.rows[id], issue)))
  {
    assert id in w.rows;
    hide RowsSound, CallsSound, GrantsSound, LeasesGranted, DeliveriesSound, PlainNext, BoundTo, Put, RowFacts, CanBind;
    StoredRowFacts(w, id);
    BoundIsPlain(w, id, expected, lease, service, issue, t);
    PlainPutKeepsInv(w, id, BoundTo(w.rows[id], issue));
  }

  // ---------------------------------------------------------------- grants

  lemma LastGrantAppend(grants: seq<Grant>, g: Grant, id: string)
    ensures LastGrant(grants + [g], id) == if g.id == id then Some(g) else LastGrant(grants, id)
  {
    assert (grants + [g])[..|grants + [g]| - 1] == grants;
  }

  function GrantFor(row: Row, id: string, lease: string, service: string, t: int): Grant {
    var next := Prepared(row, lease, service, t);
    Grant(id, ActionFor(row), next.lease.value.inflight, next.lease.value)
  }

  lemma PreparedFacts(w: World, id: string, lease: string, service: string, t: int)
    requires RowFacts(w, id) && w.rows[id].lease.None?
    ensures var next := Prepared(w.rows[id], lease, service, t);
            && Succeeds(w.rows[id], next) && RowShape(next) && RowNamed(Put(w, id, next).payloads, id, next)
            && next.issue == w.rows[id].issue
            && GrantSound(Put(w, id, next).rows, Put(w, id, next).payloads, GrantFor(w.rows[id], id, lease, service, t))
            && (w.rows[id].createState == Bound <==> ActionFor(w.rows[id]) == Update)
            && (w.rows[id].createState == Ready <==> ActionFor(w.rows[id]) == Create)
  {
  }

  /** Earlier grants survive the row moving on, whatever it moves to. */
  lemma GrantsSurvive(w: World, id: string, next: Row)
    requires RowsSound(w.rows, w.payloads) && GrantsSound(w.rows, w.payloads, w.grants)
    requires id in w.rows && Succeeds(w.rows[id], next)
    ensures forall i | 0 <= i < |w.grants| :: GrantSound(Put(w, id, next).rows, Put(w, id, next).payloads, w.grants[i])
  {
    PutKeepsNames(w, id, next);
    hide RowsSound;
    forall i | 0 <= i < |w.grants|
      ensures GrantSound(Put(w, id, next).rows, Put(w, id, next).payloads, w.grants[i])
    {
      assert GrantSound(w.rows, w.payloads, w.grants[i]);
    }
  }

  /** The order of grants: one creation first, updates only once bound. */
  lemma GrantKeepsOrder(rows: map<string, Row>, payloads: map<(string, int), Payload>, grants: seq<Grant>, g: Grant)
    requires GrantsSound(rows, payloads, grants) && g.id in rows
    requires g.action == Create <==> rows[g.id].createState == Ready
    requires g.action == Update <==> rows[g.id].createState == Bound
    ensures forall i, j | 0 <= i < j < |grants + [g]| && (grants + [g])[i].id == (grants + [g])[j].id ::
              (grants + [g])[j].action != Create && ((grants + [g])[i].action == Update ==> (grants + [g])[j].action == Update)
    ensures forall id | id == g.id || (id in rows && rows[id].createState != Ready) :: Created(grants + [g], id)
  {
    var grants' := grants + [g];
    forall i | 0 <= i < |grants| && grants[i].id == g.id
      ensures g.action != Create && (grants[i].action == Update ==> g.action == Update)
    {
      assert GrantSound(rows, payloads, grants[i]);
    }
    forall id | id == g.id || (id in rows && rows[id].createState != Ready)
      ensures Created(grants', id)
    {
      if id == g.id && g.action == Create {
        assert grants'[|grants|] == g;
      } else {
        assert Created(grants, id);
        var i :| 0 <= i < |grants| && grants[i].id == id && grants[i].action == Create;
        assert grants'[i] == grants[i];
      }
    }
  }

  lemma GrantKeepsGrants(w: World, id: string, lease: string, service: string, t: int)
    requires RowsSound(w.rows, w.payloads) && GrantsSound(w.rows, w.payloads, w.grants)
    requires RowFacts(w, id) && w.rows[id].lease.None?
    ensures var next := Prepared(w.rows[id], lease, service, t);
            GrantsSound(Put(w, id, next).rows, Put(w, id, next).payloads,
                        w.grants + [GrantFor(w.rows[id], id, lease, service, t)])
  {
    var next := Prepared(w.rows[id], lease, service, t);
    var g := GrantFor(w.rows[id], id, lease, service, t);
    PreparedFacts(w, id, lease, service, t);
    assert g.id == id && g.action == ActionFor(w.rows[id]);
    GrantKeepsOrder(w.rows, w.payloads, w.grants, g);
    GrantsSurvive(w, id, next);
    hide RowsSound, RowFacts, GrantSound, Prepared, GrantFor, RowShape, RowNamed, Created;
  }

  lemma GrantKeepsLeases(rows: map<string, Row>, grants: seq<Grant>, id: string, next: Row, g: Grant)
    requires LeasesGranted(rows, grants) && next.lease == Some(g.lease) && g.id == id
    ensures LeasesGranted(rows[id := next], grants + [g])
  {
    forall other | other in rows[id := next] && rows[id := next][other].lease.Some?
      ensures LastGrant(grants + [g], other).Some?
              && LastGrant(grants + [g], other).value.lease == rows[id := next][other].lease.value
    {
      LastGrantAppend(grants, g, other);
    }
  }

  lemma GrantKeepsDeliveries(rows: map<string, Row>, payloads: map<(string, int), Payload>, grants: seq<Grant>,
                             deliveries: seq<Delivery>, g: Grant)
    requires DeliveriesSound(rows, payloads, grants, deliveries)
    ensures DeliveriesSound(rows, payloads, grants + [g], deliveries)
  {
    forall i | 0 <= i < |deliveries|
      ensures Granted(grants + [g], deliveries[i].id, deliveries[i].sent)
    {
      assert Granted(grants, deliveries[i].id, deliveries[i].sent);
      var j :| 0 <= j < |grants| && grants[j].id == deliveries[i].id && grants[j].sent == deliveries[i].sent;
      assert (grants + [g])[j] == grants[j];
    }
  }

  lemma GrantKeepsInv(w: World, id: string, lease: string, service: string, t: int)
    requires Inv(w) && id in w.rows && w.rows[id].lease.None?
    ensures Inv(Put(w, id, Prepared(w.rows[id], lease, service, t)).(
                  grants := w.grants + [GrantFor(w.rows[id], id, lease, service, t)]))
  {
    var next := Prepared(w.rows[id], lease, service, t);
    var g := GrantFor(w.rows[id], id, lease, service, t);
    StoredRowFacts(w, id);
    PreparedFacts(w, id, lease, service, t);
    assert next.lease == Some(g.lease);
    hide RowsSound, CallsSound, GrantsSound, LeasesGranted, DeliveriesSound, RowShape, RowNamed, Prepared, GrantFor, GrantSound;
    PutKeepsRows(w, id, next);
    PutKeepsCalls(w, id, next);
    GrantKeepsGrants(w, id, lease, service, t);
    PutKeepsDeliveries(w, id, next);
    GrantKeepsLeases(w.rows, w.grants, id, next, g);
    GrantKeepsDeliveries(Put(w, id, next).rows, Put(w, id, next).payloads, w.grants, w.deliveries, g);
  }

  lemma PrepareStepKeepsInv(w: World, c: nat, t: int)
    requires Inv(w)
    ensures Inv(PrepareStep(w, c, t))
  {
    if c in w.calls && w.calls[c].Preparing? {
      var call := w.calls[c];
      assert CallSound(w.rows, call);
      DropKeepsInv(w, c);
      var rest := w.(calls := w.calls - {c});
      hide Inv, Prepared, Put;
      if call.id in w.rows && CanPrepare(w.rows[call.id], call.read.revision, t) {
        GrantKeepsInv(rest, call.id, call.lease, call.service, t);
      }
    }
  }

  // ---------------------------------------------------------------- deliveries

  lemma LeaseWasGranted(grants: seq<Grant>, id: string)
    requires LastGrant(grants, id).Some?
    ensures exists j :: 0 <= j < |grants| && grants[j] == LastGrant(grants, id).value && grants[j].id == id
  {
    if grants[|grants| - 1].id != id {
      LeaseWasGranted(grants[..|grants| - 1], id);
      var j :| 0 <= j < |grants| - 1 && grants[..|grants| - 1][j] == LastGrant(grants, id).value;
      assert grants[j] == LastGrant(grants, id).value;
    }
  }

  lemma DeliveryIsSound(w: World, id: string, projected: Payload, informed: bool)
    requires RowFacts(w, id) && w.rows[id].lease.Some? && w.rows[id].createState == Bound
    requires GrantsSound(w.rows, w.payloads, w.grants) && LeasesGranted(w.rows, w.grants)
    requires informed ==> w.rows[id].lease.value.inflight.payload == projected
    ensures var next := Acked(w.rows[id], Delivered);
            var d := Delivery(id, w.rows[id].lease.value.inflight, projected, informed);
            && DeliverySound(Put(w, id, next).rows, Put(w, id, next).payloads, d)
            && Granted(w.grants, d.id, d.sent)
  {
    LeaseWasGranted(w.grants, id);
    var j :| 0 <= j < |w.grants| && w.grants[j] == LastGrant(w.grants, id).value && w.grants[j].id == id;
    assert GrantSound(w.rows, w.payloads, w.grants[j]);
  }

  lemma AppendDeliveryKeepsInv(w: World, d: Delivery)
    requires Inv(w) && DeliverySound(w.rows, w.payloads, d) && Granted(w.grants, d.id, d.sent)
    ensures Inv(w.(deliveries := w.deliveries + [d]))
  {
    hide RowsSound, CallsSound, GrantsSound, LeasesGranted, DeliverySound, Granted;
  }

  lemma DeliveryKeepsInv(w: World, id: string, projected: Payload, informed: bool)
    requires Inv(w) && id in w.rows && w.rows[id].lease.Some? && w.rows[id].createState == Bound
    requires informed ==> w.rows[id].lease.value.inflight.payload == projected
    ensures Inv(Put(w, id, Acked(w.rows[id], Delivered)).(
                  deliveries := w.deliveries + [Delivery(id, w.rows[id].lease.value.inflight, projected, informed)]))
  {
    var next := Acked(w.rows[id], Delivered);
    StoredRowFacts(w, id);
    assert 1 <= w.rows[id].lease.value.inflight.revision by {
      assert (id, w.rows[id].lease.value.inflight.revision) in w.payloads;
    }
    DeliveryIsSound(w, id, projected, informed);
    hide Inv, RowFacts, PlainNext, DeliverySound, Granted, Acked;
    DeliveredIsPlain(w, id);
    PlainPutKeepsInv(w, id, next);
    AppendDeliveryKeepsInv(Put(w, id, next), Delivery(id, w.rows[id].lease.value.inflight, projected, informed));
  }

  lemma AckStepKeepsInv(w: World, c: nat, t: int)
    requires Inv(w)
    ensures Inv(AckStep(w, c, t))
  {
    if c in w.calls && w.calls[c].Acking? {
      var call := w.calls[c];
      assert CallSound(w.rows, call);
      DropKeepsInv(w, c);
      var rest := w.(calls := w.calls - {c});
      hide Inv, Put;
      if call.id in w.rows && CanAck(w.rows[call.id], call.expected, call.lease, call.service, call.outcome, t) {
        if call.outcome == Retry {
          ClearKeepsInv(rest, call.id);
        } else if call.p.Some? && call.read.lease.Some? && call.read.lease.value.inflight.payload == call.p.value.payload {
          DeliveryKeepsInv(rest, call.id, call.p.value.payload, call.read.revision >= call.expected);
        }
      }
    }
  }

  // ---------------------------------------------------------------- every step, every run

  lemma StepKeepsInv(w: World, e: Event)
    requires Inv(w)
    ensures Inv(Step(w, e))
  {
    if e.Project? && e.c in w.calls { assert CallSound(w.rows, w.calls[e.c]); }
    hide Inv, RefreshStep, PrepareStep, AckStep, CanBind, CanRecover, Put, Cleared, BoundTo;
    match e
    case SourceMoves(id, source) => SourceKeepsInv(w, w.source[id := source]);
    case Recover(id, t) => if id in w.rows { ClearKeepsInv(w, id); }
    case BeginRefresh(c, id) => SetCallKeepsInv(w, c, Refreshing(id, if id in w.rows then Some(w.rows[id]) else None, None));
    case BeginPrepare(c, id, expected, service, lease) =>
      if Step(w, e) != w { SetCallKeepsInv(w, c, Preparing(id, w.rows[id], service, lease, None)); }
    case BeginAck(c, id, expected, lease, service, outcome) =>
      if id in w.rows { SetCallKeepsInv(w, c, Acking(id, expected, lease, service, outcome, w.rows[id], None)); }
    case Project(c, payload) =>
      if c in w.calls && w.calls[c].id in w.source {
        SetCallKeepsInv(w, c, w.calls[c].(p := Some(Projection(w.source[w.calls[c].id], payload))));
      }
    case RefreshWrite(c, expiresAt, t) => RefreshStepKeepsInv(w, c, expiresAt, t);
    case PrepareWrite(c, t) => PrepareStepKeepsInv(w, c, t);
    case AckWrite(c, t) => AckStepKeepsInv(w, c, t);
    case Bind(id, expected, lease, service, issue, t) =>
      if CanBind(w.rows, id, expected, lease, service, issue, t) { BindKeepsInv(w, id, expected, lease, service, issue, t); }
    case Failure(c) => DropKeepsInv(w, c);
  }

  lemma SourceKeepsInv(w: World, source: map<string, Source>)
    requires Inv(w)
    ensures Inv(w.(source := source))
  {
    hide RowsSound, CallsSound, GrantsSound, LeasesGranted, DeliveriesSound;
  }

  lemma {:induction false} RunKeepsInv(w: World, events: seq<Event>)
    requires Inv(w)
    ensures Inv(Run(w, events))
  {
    hide Inv, Step;
    if events != [] {
      RunKeepsInv(w, events[..|events| - 1]);
      StepKeepsInv(Run(w, events[..|events| - 1]), events[|events| - 1]);
    }
  }

  ghost predicate Reachable(w: World) {
    exists events :: w == Run(EMPTY, events)
  }

  lemma ReachableKeepsInv(w: World)
    requires Reachable(w)
    ensures Inv(w)
  {
    var events :| w == Run(EMPTY, events);
    RunKeepsInv(EMPTY, events);
  }

  // ---------------------------------------------------------------- theorems over whole runs

  /** `create` is granted at most once per request, before any other grant; and once an
      update has been granted every later grant is an update. */
  lemma CreateGrantedOnce(w: World, i: nat, j: nat)
    requires Reachable(w) && i < j < |w.grants| && w.grants[i].id == w.grants[j].id
    ensures w.grants[j].action != Create
    ensures w.grants[i].action == Update ==> w.grants[j].action == Update
  {
    ReachableKeepsInv(w);
    hide GrantSound, Created;
  }

  /** Every grant before the issue is bound carries the payload of the one creation, and
      a request with any grant has had its creation. */
  lemma GrantsBeforeBindingAreFrozen(w: World, i: nat, j: nat)
    requires Reachable(w) && i < |w.grants| && j < |w.grants| && w.grants[i].id == w.grants[j].id
    requires w.grants[i].action != Update && w.grants[j].action != Update
    ensures w.grants[i].sent == w.grants[j].sent
    ensures w.grants[i].id in w.rows && w.rows[w.grants[i].id].creation == Some(w.grants[i].sent)
    ensures Created(w.grants, w.grants[i].id)
  {
    ReachableKeepsInv(w);
    assert GrantSound(w.rows, w.payloads, w.grants[i]) && GrantSound(w.rows, w.payloads, w.grants[j]);
    hide RowsSound, GrantSound, Created;
  }

  /** An update is granted only for a bound issue. */
  lemma UpdatesNeedAnIssue(w: World, i: nat)
    requires Reachable(w) && i < |w.grants| && w.grants[i].action == Update
    ensures w.grants[i].id in w.rows && w.rows[w.grants[i].id].issue.Some?
  {
    ReachableKeepsInv(w);
    assert GrantSound(w.rows, w.payloads, w.grants[i]);
    assert RowShape(w.rows[w.grants[i].id]);
  }

  /** Rows only move on as a write may, and names are only added. */
  ghost predicate Grows(w: World, w': World) {
    && (forall id | id in w.rows :: id in w'.rows && (w'.rows[id] == w.rows[id] || Succeeds(w.rows[id], w'.rows[id])))
    && (forall k | k in w.payloads :: k in w'.payloads && w'.payloads[k] == w.payloads[k])
  }

  lemma PutGrows(w: World, id: string, next: Row, w': World)
    requires RowsSound(w.rows, w.payloads) && w'.rows == Put(w, id, next).rows && w'.payloads == Put(w, id, next).payloads
    requires if id in w.rows then Succeeds(w.rows[id], next) else next.desired.revision == 1
    ensures Grows(w, w')
  {
    if id in w.rows {
      PutKeepsNames(w, id, next);
    }
    hide Succeeds, RowShape, RowNamed;
  }

  lemma RefreshedSucceeds(row: Row, p: Payload)
    requires RowShape(row)
    ensures Succeeds(row, Refreshed(row, p))
  {
  }

  lemma RefreshGrows(w: World, c: nat, expiresAt: int, t: int)
    requires RowsSound(w.rows, w.payloads)
    ensures Grows(w, RefreshStep(w, c, expiresAt, t))
  {
    hide RowsSound, RowShape, Succeeds, Refreshed, IssuesApart, FencedAt;
    if c in w.calls && w.calls[c].Refreshing? && w.calls[c].p.Some? {
      var call := w.calls[c];
      var p := call.p.value.payload;
      var next := if call.id in w.rows then Refreshed(w.rows[call.id], p) else Inserted(p, expiresAt);
      if call.id in w.rows {
        StoredRowFacts(w, call.id);
        RefreshedSucceeds(w.rows[call.id], p);
      }
      PutGrows(w, call.id, next, Put(w, call.id, next));
    }
  }

  lemma PrepareGrows(w: World, c: nat, t: int)
    requires RowsSound(w.rows, w.payloads)
    ensures Grows(w, PrepareStep(w, c, t))
  {
    if c in w.calls && w.calls[c].Preparing? && w.calls[c].id in w.rows && w.rows[w.calls[c].id].lease.None? {
      var call := w.calls[c];
      var next := Prepared(w.rows[call.id], call.lease, call.service, t);
      assert RowShape(w.rows[call.id]);
      PutGrows(w, call.id, next, Put(w, call.id, next));
    }
    hide RowsSound, Succeeds, Prepared;
  }

  lemma AckGrows(w: World, c: nat, t: int)
    requires RowsSound(w.rows, w.payloads)
    ensures Grows(w, AckStep(w, c, t))
  {
    if c in w.calls && w.calls[c].Acking? && w.calls[c].id in w.rows && w.rows[w.calls[c].id].lease.Some? {
      var call := w.calls[c];
      var next := Acked(w.rows[call.id], call.outcome);
      assert RowShape(w.rows[call.id]);
      PutGrows(w, call.id, next, Put(w, call.id, next));
    }
    hide RowsSound, Succeeds, Acked;
  }

  lemma StepGrows(w: World, e: Event)
    requires RowsSound(w.rows, w.payloads)
    ensures Grows(w, Step(w, e))
  {
    hide RefreshStep, PrepareStep, AckStep;
    match e
    case RefreshWrite(c, expiresAt, t) => RefreshGrows(w, c, expiresAt, t);
    case PrepareWrite(c, t) => PrepareGrows(w, c, t);
    case AckWrite(c, t) => AckGrows(w, c, t);
    case Recover(id, t) =>
      if id in w.rows { assert RowShape(w.rows[id]); PutGrows(w, id, Cleared(w.rows[id]), Put(w, id, Cleared(w.rows[id]))); }
    case Bind(id, expected, lease, service, issue, t) =>
      if CanBind(w.rows, id, expected, lease, service, issue, t) {
        assert RowShape(w.rows[id]);
        PutGrows(w, id, BoundTo(w.rows[id], issue), Put(w, id, BoundTo(w.rows[id], issue)));
      }
    case _ => hide RowsSound;
  }

  /** How a row stands to any earlier state of itself. */
  predicate Later(a: Row, b: Row) {
    && a.revision <= b.revision && a.desired.revision <= b.desired.revision && a.delivered <= b.delivered
    && (a.createState != Ready ==> b.createState != Ready && b.creation == a.creation)
    && (a.createState == Bound ==> b.createState == Bound && b.issue == a.issue)
  }

  ghost predicate Outgrows(w: World, w': World) {
    && (forall id | id in w.rows :: id in w'.rows && Later(w.rows[id], w'.rows[id]))
    && (forall k | k in w.payloads :: k in w'.payloads && w'.payloads[k] == w.payloads[k])
  }

  lemma GrowingOutgrows(w: World, mid: World, w': World)
    requires Outgrows(w, mid) && Grows(mid, w')
    ensures Outgrows(w, w')
  {
    forall id | id in w.rows
      ensures id in w'.rows && Later(w.rows[id], w'.rows[id])
    {
      assert Later(w.rows[id], mid.rows[id]);
    }
  }

  lemma {:induction false} RunOutgrows(w: World, events: seq<Event>)
    requires Inv(w)
    ensures Outgrows(w, Run(w, events))
  {
    if events != [] {
      var mid := Run(w, events[..|events| - 1]);
      RunOutgrows(w, events[..|events| - 1]);
      RunKeepsInv(w, events[..|events| - 1]);
      StoredRowsSound(mid);
      hide Inv, RowsSound, Outgrows, Grows, Step;
      StepGrows(mid, events[|events| - 1]);
      GrowingOutgrows(w, mid, Run(w, events));
    }
  }

  lemma StoredRowsSound(w: World)
    requires Inv(w)
    ensures RowsSound(w.rows, w.payloads)
  {
    hide RowsSound;
  }

  /** Each desired revision names one payload for ever, and whatever is desired, frozen for
      creation, in flight, granted or delivered under a revision is that payload. */
  lemma RevisionNamesPayload(w: World, events: seq<Event>)
    requires Reachable(w)
    ensures forall k | k in w.payloads :: k in Run(w, events).payloads && Run(w, events).payloads[k] == w.payloads[k]
    ensures forall id | id in w.rows :: RowNamed(w.payloads, id, w.rows[id])
    ensures forall i | 0 <= i < |w.grants| :: Named(w.payloads, w.grants[i].id, w.grants[i].sent)
    ensures forall i | 0 <= i < |w.deliveries| :: Named(w.payloads, w.deliveries[i].id, w.deliveries[i].sent)
  {
    ReachableKeepsInv(w);
    RunOutgrows(w, events);
    hide CallsSound, LeasesGranted, Granted, Run, RowShape, RowNamed, Later;
    forall i | 0 <= i < |w.grants|
      ensures Named(w.payloads, w.grants[i].id, w.grants[i].sent)
    {
      assert GrantSound(w.rows, w.payloads, w.grants[i]);
    }
  }

  /** Between any two worlds of a run: the delivered revision only grows and never passes
      the desired one; a bound issue stays bound and a frozen creation never changes. No
      two requests ever share an issue. */
  lemma DeliveryOnlyGrows(w: World, events: seq<Event>, id: string)
    requires Reachable(w) && id in w.rows
    ensures id in Run(w, events).rows
    ensures var r, next := w.rows[id], Run(w, events).rows[id];
            && 0 <= r.delivered <= next.delivered <= next.desired.revision && r.desired.revision <= next.desired.revision
            && (r.issue.Some? ==> next.issue == r.issue)
            && (r.creation.Some? ==> next.creation == r.creation)
    ensures IssuesApart(w.rows)
  {
    ReachableKeepsInv(w);
    RunOutgrows(w, events);
    RunKeepsInv(w, events);
    assert RowShape(w.rows[id]) && RowShape(Run(w, events).rows[id]);
    assert Later(w.rows[id], Run(w, events).rows[id]);
    hide RowsSound, CallsSound, GrantsSound, LeasesGranted, DeliveriesSound, Run, RowNamed, Later, Outgrows;
  }

  /** A delivery was granted, carries the payload its caller was fenced by, and is counted. */
  lemma DeliveredWasGranted(w: World, i: nat)
    requires Reachable(w) && i < |w.deliveries|
    ensures var d := w.deliveries[i];
            && Granted(w.grants, d.id, d.sent)
            && (d.informed ==> d.sent.payload == d.projected)
            && d.id in w.rows && w.rows[d.id].issue.Some? && d.sent.revision <= w.rows[d.id].delivered
  {
    ReachableKeepsInv(w);
    var d := w.deliveries[i];
    assert DeliverySound(w.rows, w.payloads, d);
    assert RowShape(w.rows[d.id]);
    hide GrantsSound, LeasesGranted, CallsSound, RowsSound;
  }
}
