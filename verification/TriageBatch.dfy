/** The acknowledgement's batch is all or nothing. Its first update checks everything;
    each later statement looks only at changes() and at what the batch itself wrote, so
    once the first one matches, the rest are implied. The one exception is exact: a
    managed question whose response deadline passes between the first two statements. */
module TriageBatch {
  import opened Options
  import opened Triage

  // ---------------------------------------------------------------- what the handler hands over

  /** The row as the handler's read and its eligibility test leave it. */
  predicate Readable(protocol: Protocol, row: Row) {
    match protocol
    case V1 => row.sidecar.None?
    case V2 => row.sidecar.Some? ==> row.sidecar.value.generation >= 1
  }

  /** A plan the handler can build: the outcome decides the next question, the draft and
      the admission; the receipt names the revisions before and after. */
  predicate Prepared(p: Plan, outcome: Outcome) {
    && Readable(p.protocol, p.row) && Answerable(p.protocol, outcome)
    && p == PlanFor(p.protocol, p.row, outcome, p.op, p.now)
    && p.op.key.kind == AckOp
    && (p.op.receipt.Some? <==> p.protocol == V2)
    && (p.op.receipt.Some? ==>
          && p.op.receipt.value.requestId == p.row.id
          && p.op.receipt.value.inputRevision == p.row.q.revision
          && p.op.receipt.value.appliedRevision == p.next.revision
          && p.op.receipt.value.generation == p.row.Generation())
  }

  /** The deadline passed before the second statement read the clock. */
  predicate Crossed(p: Plan, db: Db, t2: int) {
    && p.protocol == V2 && ViaTriaged(p.next.status)
    && p.row.id in db.sidecars && db.sidecars[p.row.id].responseDeadline <= t2
  }

  /** The question a completed acknowledgement leaves behind. */
  function Acknowledged(p: Plan, q: Question): Question {
    q.(status := p.next.status, verdict := p.next.verdict, explorationId := p.next.explorationId,
       leaseExpiresAt := None, retryAfter := p.next.retryAfter, revision := p.next.revision)
  }

  function MappedSidecars(p: Plan, db: Db): map<string, Sidecar>
    requires p.row.id in db.questions
  {
    if p.draft.None? then db.sidecars
    else if p.row.id in db.sidecars then
      db.sidecars[p.row.id := RemappedSidecar(p.next, p.draft.value, p.now, db.sidecars[p.row.id])]
    else
      db.sidecars[p.row.id := NewSidecar(Acknowledged(p, db.questions[p.row.id]), p.draft.value, p.now)]
  }

  /** The whole effect, stated at once. */
  function Everything(p: Plan, db: Db, t2: int): Db
    requires p.row.id in db.questions
  {
    var a := p.admission;
    Db(db.questions[p.row.id := Acknowledged(p, db.questions[p.row.id])],
       MappedSidecars(p, db),
       db.operations[p.op.key := p.op.(expiresAt := t2 + OPERATION_MS)],
       db.snapshot,
       if a.Some? then db.requests + {a.value.requestId} else db.requests,
       if a.Some? then db.links + {(a.value.requestId, a.value.accountSub)} else db.links,
       if a.Some? then db.jobs + {a.value.jobId} else db.jobs)
  }

  // ---------------------------------------------------------------- statement by statement

  lemma PlanShape(p: Plan, outcome: Outcome)
    requires Prepared(p, outcome)
    ensures ViaTriaged(p.next.status) ==>
              p.next.retryAfter.None? && p.next.revision == p.row.q.revision + 2
    ensures !ViaTriaged(p.next.status) ==>
              p.next.revision == p.row.q.revision + 1 && p.admission.None?
    ensures p.next.status != Triaging && p.next.status != Triaged
    ensures p.admission.Some? ==>
              p.next.status == Queued && p.next.explorationId == Some(p.admission.value.requestId) && p.draft.None?
    ensures p.admission.Some? <==> p.next.status == Queued
  {
  }

  /** The fence pins the sidecar: present exactly when it was read, and open. */
  lemma FencePinsSidecar(p: Plan, outcome: Outcome, db: Db, q: Question, t: int)
    requires Prepared(p, outcome) && Fence(p.protocol, db, p.row, q, t)
    ensures p.row.id in db.sidecars <==> p.row.sidecar.Some?
    ensures p.row.sidecar.Some? ==>
              && db.sidecars[p.row.id].state == InTriage
              && db.sidecars[p.row.id].revision == p.row.ResultRevision()
              && db.sidecars[p.row.id].generation == p.row.Generation()
  {
  }

  /** After the first update only the clock can still stop the second one. */
  lemma FinishFires(p: Plan, outcome: Outcome, db: Db, t1: int, t2: int)
    requires Prepared(p, outcome) && ViaTriaged(p.next.status) && FirstGuard(p, db, t1)
    ensures FinishGuard(p, MarkTriaged(p, Tx(db, 0), t1), t2) <==> !Crossed(p, db, t2)
  {
    var q := db.questions[p.row.id];
    FencePinsSidecar(p, outcome, db, q, t1);
    assert InScope(p.protocol, db, p.row.id, q, t1);
  }

  lemma Settles(p: Plan, outcome: Outcome, db: Db, t1: int, t2: int)
    requires Prepared(p, outcome) && FirstGuard(p, db, t1) && !Crossed(p, db, t2)
    ensures SettleStatements(p, db, t1, t2)
            == Tx(PutQuestion(db, p.row.id, Acknowledged(p, db.questions[p.row.id])), 1)
  {
    PlanShape(p, outcome);
    if ViaTriaged(p.next.status) {
      FinishFires(p, outcome, db, t1, t2);
      var q := db.questions[p.row.id];
      var marked := MarkTriaged(p, Tx(db, 0), t1).db.questions;
      assert marked[p.row.id := Acknowledged(p, q)] == db.questions[p.row.id := Acknowledged(p, q)];
    }
  }

  lemma RemapFires(p: Plan, outcome: Outcome, db: Db, t1: int)
    requires Prepared(p, outcome) && FirstGuard(p, db, t1) && p.draft.Some?
    ensures var put := PutQuestion(db, p.row.id, Acknowledged(p, db.questions[p.row.id]));
            Remap(p.row, p.next, p.draft.value, p.now, Tx(put, 1)) == Tx(put.(sidecars := MappedSidecars(p, db)), 1)
  {
    FencePinsSidecar(p, outcome, db, db.questions[p.row.id], t1);
  }

  // ---------------------------------------------------------------- the theorem

  /** First guard met, deadline not crossed: every statement fires. */
  lemma AckDoesEverything(p: Plan, outcome: Outcome, db: Db, t1: int, t2: int)
    requires Prepared(p, outcome) && FirstGuard(p, db, t1) && !Crossed(p, db, t2)
    ensures AckBatch(p, db, t1, t2) == Done(Everything(p, db, t2), Some(true))
  {
    hide FirstGuard;
    Settles(p, outcome, db, t1, t2);
    if p.draft.Some? { RemapFires(p, outcome, db, t1); }
    PlanShape(p, outcome);
  }

  /** First guard not met: the handler is told so and no question table changes. */
  lemma AckDoesNothing(p: Plan, outcome: Outcome, db: Db, t1: int, t2: int)
    requires Prepared(p, outcome) && !FirstGuard(p, db, t1)
    ensures AckBatch(p, db, t1, t2).accepted != Some(true)
    ensures var d := AckBatch(p, db, t1, t2).db; d == db.(requests := d.requests, links := d.links, jobs := d.jobs)
    ensures p.admission.None? ==> AckBatch(p, db, t1, t2) == Done(db, Some(false))
    ensures p.admission.Some? ==> AckBatch(p, db, t1, t2).db.requests == db.requests
  {
  }

  /** Only the first insert of an admission looks at changes(). A refused batch therefore
      leaves the shared tables alone exactly when the link it finds due cannot be inserted
      for want of its request, or when every row it would insert is there already. */
  lemma RefusedAckIsNothing(p: Plan, outcome: Outcome, db: Db, t1: int, t2: int)
    requires Prepared(p, outcome) && !FirstGuard(p, db, t1) && p.admission.Some?
    ensures var a := p.admission.value; var link := (a.requestId, a.accountSub);
            var due := QueuedFor(db, p.row.id, a.requestId);
            AckBatch(p, db, t1, t2).db == db <==>
              || (due && link !in db.links && a.requestId !in db.requests)
              || ((due ==> link in db.links) && (link in db.links ==> a.jobId in db.jobs))
  {
    var a := p.admission.value;
    var d := AckBatch(p, db, t1, t2).db;
    assert d.links == db.links || (a.requestId, a.accountSub) !in db.links;
    assert d.jobs == db.jobs || a.jobId !in db.jobs;
  }

  /** The deadline crossed: the question stops at `Triaged`, one revision on, without a
      receipt and without its result, nothing else changes at all, and the handler is told
      that all went well. */
  lemma AckLeavesTriaged(p: Plan, outcome: Outcome, db: Db, t1: int, t2: int)
    requires Prepared(p, outcome) && FirstGuard(p, db, t1) && Crossed(p, db, t2)
    ensures AckBatch(p, db, t1, t2).accepted == Some(true)
    ensures AckBatch(p, db, t1, t2).db
            == PutQuestion(db, p.row.id, db.questions[p.row.id].(
                 status := Triaged, verdict := p.next.verdict, leaseExpiresAt := None, retryAfter := None,
                 revision := p.row.q.revision + 1))
  {
    FinishFires(p, outcome, db, t1, t2);
    PlanShape(p, outcome);
  }

  /** All or nothing, in one statement: the receipt appears exactly when the first guard
      held and the deadline was not crossed, and exactly when this batch is what moved
      the question to its planned status. */
  lemma ReceiptExactlyWhenSettled(p: Plan, outcome: Outcome, db: Db, t1: int, t2: int)
    requires Prepared(p, outcome) && p.op.key !in db.operations
    ensures var d := AckBatch(p, db, t1, t2).db;
            && (p.op.key in d.operations <==> FirstGuard(p, db, t1) && !Crossed(p, db, t2))
            && (p.op.key in d.operations <==>
                  d.questions != db.questions && p.row.id in d.questions && d.questions[p.row.id].status == p.next.status
                  && d.questions[p.row.id].revision == p.next.revision)
  {
    hide AckBatch, FirstGuard, Prepared;
    PlanShape(p, outcome);
    if !FirstGuard(p, db, t1) {
      AckDoesNothing(p, outcome, db, t1, t2);
    } else if Crossed(p, db, t2) {
      AckLeavesTriaged(p, outcome, db, t1, t2);
    } else {
      AckDoesEverything(p, outcome, db, t1, t2);
      FirstGuardPinsRevision(p, db, t1);
    }
  }

  lemma FirstGuardPinsRevision(p: Plan, db: Db, t: int)
    requires FirstGuard(p, db, t)
    ensures p.row.id in db.questions && db.questions[p.row.id].status == Triaging
    ensures db.questions[p.row.id].revision == p.row.q.revision
  {
  }

  /** One clock reading for the whole batch: the deadline is never crossed. */
  lemma OneReadingNeverCrosses(p: Plan, outcome: Outcome, db: Db, t: int)
    requires Prepared(p, outcome)
    ensures !(FirstGuard(p, db, t) && Crossed(p, db, t))
  {
  }

  // ---------------------------------------------------------------- a settled lease

  /** A sweep that exhausts a managed question fails its result with it, always. */
  lemma SweepDoesEverything(row: Row, next: Question, now: int, db: Db, t: int)
    requires SettleGuard(V2, row, db, t) && !ReadExpired(V2, row) && next.status == TriageFailed
    requires row.sidecar.Some? && row.sidecar.value.generation >= 1
    ensures row.id in db.sidecars
    ensures SettleBatch(V2, row, next, now, db, t)
            == Done(db.(questions := db.questions[row.id := SweptQuestion(db.questions[row.id], next)],
                        sidecars := db.sidecars[row.id := RemappedSidecar(next, FAILED_DRAFT, now, db.sidecars[row.id])]),
                    Some(true))
  {
  }
}
