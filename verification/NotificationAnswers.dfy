/** The ledger written out: what each statement asks for and stores, column by column, and
    whole calls that nothing disturbs. */
module NotificationAnswers {
  import opened NotificationSafety
  import opened Notifications
  import opened Options

  // ---------------------------------------------------------------- what is asked

  /** The source row is the projected one and lasts; one that waits for its owner shows as
      expired from its deadline on, and not before. */
  lemma FencedExactly(source: map<string, Source>, id: string, p: Projection, t: int)
    ensures FencedAt(source, id, p, t) <==>
              && id in source && source[id] == p.source && t < p.source.expiresAt
              && match p.source.answerBy
                 case None => true
                 case Some(deadline) => if t < deadline then p.payload.status != "expired" else p.payload.status == "expired"
  {
  }

  /** A lease that runs: under this id and owner, at this revision, of a row that lasts. */
  lemma HoldsExactly(row: Row, expected: int, lease: string, service: string, t: int)
    ensures Holds(row, expected, lease, service, t) <==>
              && row.revision == expected && t < row.expiresAt
              && match row.lease
                 case None => false
                 case Some(l) => l.id == lease && l.owner == service && t < l.expiresAt
  {
  }

  lemma GuardsExactly(row: Row, expected: int, lease: string, service: string, outcome: Outcome, t: int)
    ensures CanRecover(row, t) <==> t < row.expiresAt && row.lease.Some? && row.lease.value.expiresAt <= t
    ensures CanPrepare(row, expected, t) <==> row.revision == expected && row.lease == None && t < row.expiresAt
    ensures CanAck(row, expected, lease, service, outcome, t) <==>
              && Holds(row, expected, lease, service, t)
              && ((outcome == Delivered && row.createState == Bound) || (outcome == Retry && row.createState == Pending))
  {
    hide Holds;
  }

  lemma BindsExactly(rows: map<string, Row>, id: string, expected: int, lease: string, service: string, issue: int, t: int)
    ensures CanBind(rows, id, expected, lease, service, issue, t) <==>
              && id in rows && rows[id].createState == Pending && Holds(rows[id], expected, lease, service, t)
              && !exists other :: other in rows && other != id && rows[other].issue == Some(issue)
  {
    hide Holds;
  }

  // ---------------------------------------------------------------- what is stored

  /** A lease given back or run out is cleared, one revision on. */
  lemma ClearedRow(r: Row)
    ensures Cleared(r) == Row(r.revision + 1, r.desired, r.delivered, r.createState, r.issue, r.creation, None, r.expiresAt)
  {
  }

  /** A refresh: the first row of a request, or the same row with a new desired revision
      exactly for a new payload. */
  lemma RefreshedRow(r: Row, p: Payload, expiresAt: int)
    ensures Inserted(p, expiresAt) == Row(1, Numbered(1, p), 0, Ready, None, None, None, expiresAt)
    ensures Refreshed(r, p)
            == Row(r.revision + 1, Numbered(if p == r.desired.payload then r.desired.revision else r.desired.revision + 1, p),
                   r.delivered, r.createState, r.issue, r.creation, r.lease, r.expiresAt)
  {
  }

  /** A grant: the first one asks to create and freezes its payload; until the issue is
      bound that payload is in flight again, and afterwards the desired one. */
  lemma PreparedRow(r: Row, lease: string, service: string, t: int)
    ensures var first, waiting := r.createState == Ready, r.createState == Pending && r.creation.Some?;
            var ends := if r.expiresAt < t + 900_000 then r.expiresAt else t + 900_000;
            Prepared(r, lease, service, t)
            == Row(r.revision + 1, r.desired, r.delivered, if first then Pending else r.createState, r.issue,
                   if first then Some(r.desired) else r.creation,
                   Some(Lease(lease, service, ends, if waiting then r.creation.value else r.desired)), r.expiresAt)
    ensures ActionFor(r) == if r.createState == Ready then Create else if r.createState == Pending then Reconcile else Update
  {
  }

  lemma BoundRow(r: Row, issue: int)
    ensures BoundTo(r, issue) == Row(r.revision + 1, r.desired, r.delivered, Bound, Some(issue), r.creation, None, r.expiresAt)
  {
  }

  /** A delivery raises the delivered revision to the one in flight, never lowers it. */
  lemma AckedRow(r: Row, outcome: Outcome)
    requires r.lease.Some?
    ensures var sent := r.lease.value.inflight.revision;
            Acked(r, outcome)
            == Row(r.revision + 1, r.desired, if outcome == Delivered && r.delivered < sent then sent else r.delivered, r.createState,
                   r.issue, r.creation, None, r.expiresAt)
  {
  }

  // ---------------------------------------------------------------- undisturbed calls

  /** A refresh that nothing disturbs: what the fenced projection shows is desired. */
  lemma UndisturbedRefresh(w: World, c: nat, id: string, payload: Payload, expiresAt: int, t: int)
    requires c !in w.calls && id in w.source
    ensures var w' := Step(Step(Step(w, BeginRefresh(c, id)), Event.Project(c, payload)), RefreshWrite(c, expiresAt, t));
            && w'.calls == w.calls && w'.source == w.source && w'.grants == w.grants && w'.deliveries == w.deliveries
            && w'.rows == if !FencedAt(w.source, id, Projection(w.source[id], payload), t) then w.rows
                          else w.rows[id := if id in w.rows then Refreshed(w.rows[id], payload) else Inserted(payload, expiresAt)]
  {
    hide FencedAt, Refreshed, Inserted;
    var w1 := Step(w, BeginRefresh(c, id));
    var w2 := Step(w1, Event.Project(c, payload));
    var stored := if id in w.rows then Some(w.rows[id]) else None;
    assert w2 == w.(calls := w.calls[c := Refreshing(id, stored, Some(Projection(w.source[id], payload)))]);
    assert w2.calls - {c} == w.calls;
  }

  /** A grant that nothing disturbs: given for the desired payload to a row without a
      lease, under the fence. */
  lemma UndisturbedPrepare(w: World, c: nat, id: string, service: string, lease: string, payload: Payload, t: int)
    requires c !in w.calls && id in w.source && id in w.rows && w.rows[id].lease.None?
    ensures var r := w.rows[id];
            var w' := Step(Step(Step(w, BeginPrepare(c, id, r.revision, service, lease)), Event.Project(c, payload)),
                           PrepareWrite(c, t));
            var granted := payload == r.desired.payload && t < r.expiresAt && FencedAt(w.source, id, Projection(w.source[id], payload), t);
            var next := Prepared(r, lease, service, t);
            && w'.calls == w.calls && w'.source == w.source && w'.deliveries == w.deliveries
            && w'.rows == (if granted then w.rows[id := next] else w.rows)
            && w'.grants == if granted then w.grants + [Grant(id, ActionFor(r), next.lease.value.inflight, next.lease.value)] else w.grants
  {
    hide FencedAt;
    var r := w.rows[id];
    var w1 := Step(w, BeginPrepare(c, id, r.revision, service, lease));
    var w2 := Step(w1, Event.Project(c, payload));
    assert w2 == w.(calls := w.calls[c := Preparing(id, r, service, lease, Some(Projection(w.source[id], payload)))]);
    assert w2.calls - {c} == w.calls;
  }

  /** A delivery that nothing disturbs is counted exactly under its lease, for a bound issue,
      with the payload its fence shows; a retry gives the lease back before an issue is bound. */
  lemma UndisturbedAck(w: World, c: nat, id: string, lease: string, service: string, outcome: Outcome, payload: Payload, t: int)
    requires c !in w.calls && id in w.source && id in w.rows
    ensures var r := w.rows[id];
            var w' := Step(Step(Step(w, BeginAck(c, id, r.revision, lease, service, outcome)), Event.Project(c, payload)),
                           AckWrite(c, t));
            var done := && Holds(r, r.revision, lease, service, t)
                        && match outcome
                           case Retry => r.createState == Pending
                           case Delivered => r.createState == Bound && r.lease.value.inflight.payload == payload
                                             && FencedAt(w.source, id, Projection(w.source[id], payload), t);
            && w'.calls == w.calls && w'.source == w.source && w'.grants == w.grants
            && w'.rows == (if done then w.rows[id := Acked(r, outcome)] else w.rows)
            && w'.deliveries == if done && outcome == Delivered then w.deliveries + [Delivery(id, r.lease.value.inflight, payload, true)]
                                else w.deliveries
  {
    hide FencedAt;
    var r := w.rows[id];
    var w1 := Step(w, BeginAck(c, id, r.revision, lease, service, outcome));
    var w2 := Step(w1, Event.Project(c, payload));
    assert w2 == w.(calls := w.calls[c := Acking(id, r.revision, lease, service, outcome, r, Some(Projection(w.source[id], payload)))]);
    assert w2.calls - {c} == w.calls;
  }

  /** The two writes that are one statement. */
  lemma SingleStatements(w: World, id: string, expected: int, lease: string, service: string, issue: int, t: int)
    ensures Step(w, Event.Recover(id, t)).rows
            == if id in w.rows && CanRecover(w.rows[id], t) then w.rows[id := Cleared(w.rows[id])] else w.rows
    ensures Step(w, Event.Bind(id, expected, lease, service, issue, t)).rows
            == if CanBind(w.rows, id, expected, lease, service, issue, t) then w.rows[id := BoundTo(w.rows[id], issue)] else w.rows
  {
    hide CanBind;
  }

  /** What may happen around the calls: sources move on, and calls fail. */
  lemma OutsideSteps(w: World, e: Event)
    requires e.SourceMoves? || e.Failure?
    ensures match e
            case SourceMoves(id, source) => Step(w, e) == w.(source := w.source[id := source])
            case Failure(c) => Step(w, e) == w.(calls := w.calls - {c})
  {
  }

  /** What a call reads: the row, and then the projection of the source as it stands. */
  lemma ReadingSteps(w: World, e: Event)
    requires e.BeginRefresh? || e.BeginPrepare? || e.BeginAck? || e.Project?
    ensures match e
            case BeginRefresh(c, id) =>
              Step(w, e) == w.(calls := w.calls[c := Refreshing(id, if id in w.rows then Some(w.rows[id]) else None, None)])
            case BeginPrepare(c, id, expected, service, lease) =>
              Step(w, e) == if id in w.rows && w.rows[id].revision == expected && w.rows[id].lease == None
                            then w.(calls := w.calls[c := Preparing(id, w.rows[id], service, lease, None)]) else w
            case BeginAck(c, id, expected, lease, service, outcome) =>
              Step(w, e) == if id in w.rows then w.(calls := w.calls[c := Acking(id, expected, lease, service, outcome, w.rows[id], None)])
                            else w
            case Project(c, payload) =>
              Step(w, e) == if c in w.calls && w.calls[c].id in w.source
                            then w.(calls := w.calls[c := w.calls[c].(p := Some(Projection(w.source[w.calls[c].id], payload)))]) else w
  {
  }

  /** A row and the name of its desired revision. */
  function Stored(w: World, id: string, row: Row): World {
    w.(rows := w.rows[id := row], payloads := w.payloads[(id, row.desired.revision) := row.desired.payload])
  }

  /** What each call writes, whatever ran since it read: a refresh under the fence and at the
      revision it read, a grant also for the payload it read, an acknowledgement under its
      lease. */
  lemma WritingSteps(w: World, e: Event)
    requires (e.RefreshWrite? || e.PrepareWrite? || e.AckWrite?) && e.c in w.calls
    ensures var call, rest := w.calls[e.c], w.(calls := w.calls - {e.c});
            var fenced := call.p.Some? && FencedAt(w.source, call.id, call.p.value, e.t);
            match e
            case RefreshWrite(c, expiresAt, t) =>
              call.Refreshing? ==>
                Step(w, e) == if fenced && call.stored == None && call.id !in w.rows then
                                Stored(rest, call.id, Inserted(call.p.value.payload, expiresAt))
                              else if fenced && call.stored.Some? && call.id in w.rows && w.rows[call.id].revision == call.stored.value.revision
                              then Stored(rest, call.id, Refreshed(w.rows[call.id], call.p.value.payload))
                              else rest
            case PrepareWrite(c, t) =>
              call.Preparing? ==>
                Step(w, e) == if fenced && call.p.value.payload == call.read.desired.payload && call.id in w.rows
                                 && CanPrepare(w.rows[call.id], call.read.revision, t)
                              then
                                var row := Prepared(w.rows[call.id], call.lease, call.service, t);
                                Stored(rest, call.id, row).(
                                  grants := w.grants + [Grant(call.id, ActionFor(call.read), row.lease.value.inflight, row.lease.value)])
                              else rest
            case AckWrite(c, t) =>
              call.Acking? ==>
                Step(w, e) == if call.id !in w.rows || !CanAck(w.rows[call.id], call.expected, call.lease, call.service, call.outcome, t)
                              then rest
                              else if call.outcome == Retry && call.read.createState != Bound
                                      && Holds(call.read, call.expected, call.lease, call.service, t)
                              then Stored(rest, call.id, Acked(w.rows[call.id], Retry))
                              else if call.outcome == Delivered && fenced && call.read.lease.Some?
                                      && call.read.lease.value.inflight.payload == call.p.value.payload
                              then Stored(rest, call.id, Acked(w.rows[call.id], Delivered)).(
                                     deliveries := w.deliveries + [Delivery(call.id, w.rows[call.id].lease.value.inflight, call.p.value.payload,
                                                                            call.read.revision >= call.expected)])
                              else rest
  {
    hide FencedAt, Refreshed, Inserted, Prepared, Holds;
  }

  /** A run is its steps, one after the other. */
  lemma RunsInOrder(w: World, events: seq<Event>, e: Event)
    ensures Run(w, []) == w && Run(w, events + [e]) == Step(Run(w, events), e)
  {
    assert (events + [e])[..|events + [e]| - 1] == events;
  }
}
