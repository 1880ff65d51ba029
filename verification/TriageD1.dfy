/** The store itself: batches that run statement by statement over the tables and the
    changes() register, and leave exactly what the batch functions say. */
module TriageD1 {
  import opened Options
  import opened Triage

  class D1QuestionTriageStore {
    var db: Db
    /** SQLite's changes(): rows directly changed by the latest statement. */
    var changes: nat
    const protocol: Protocol

    constructor (protocol: Protocol, db: Db)
      ensures this.protocol == protocol && this.db == db
    {
      this.protocol, this.db, this.changes := protocol, db, 0;
    }

    method Read(id: string) returns (row: Option<Row>)
      ensures row.Some? <==> id in db.questions && (protocol == V1 ==> InScope(V1, db, id, db.questions[id], 0))
      ensures row.Some? ==> row.value.id == id && row.value.q == db.questions[id]
      ensures row.Some? ==> row.value.Generation() == Generation(db, id) && row.value.ResultRevision() == ResultRevision(db, id)
    {
      if id !in db.questions || (protocol == V1 && (id in db.sidecars || SecondLease(db.questions[id]))) {
        return None;
      }
      row := Some(Row(id, db.questions[id], if id in db.sidecars then Some(db.sidecars[id]) else None));
    }

    method Claim(row: Row, next: Question, op: Operation, t: int) returns (claimed: bool)
      requires next.claimedAt.Some? && next.leaseExpiresAt.Some?
      modifies this
      ensures Done(db, Some(claimed)) == ClaimBatch(protocol, row, next, op, old(db), t)
    {
      if protocol == V2 && op.receipt.None? {
        return false;
      }
      changes := 0;
      if ClaimGuard(protocol, row, next, op, db, t) {
        var q := db.questions[row.id];
        q := q.(status := next.status, attempt := next.attempt, leaseId := next.leaseId, leaseOwner := next.leaseOwner);
        q := q.(leaseExpiresAt := next.leaseExpiresAt, claimedAt := next.claimedAt, retryAfter := None, revision := next.revision);
        db := db.(questions := db.questions[row.id := q]);
        changes := 1;
      }
      claimed := changes == 1;
      Receipt(op, t);
    }

    method Receipt(op: Operation, t: int)
      modifies this
      ensures Tx(db, changes) == InsertReceipt(op, old(Tx(db, changes)), t)
    {
      if changes == 1 {
        db := db.(operations := db.operations[op.key := op.(expiresAt := t + OPERATION_MS)]);
      } else {
        changes := 0;
      }
    }

    method RemapResult(row: Row, next: Question, draft: Draft, now: int)
      modifies this
      ensures Tx(db, changes) == Remap(row, next, draft, now, old(Tx(db, changes)))
    {
      var id := row.id;
      if changes != 1 || !ParentSettled(id, next, db) {
        changes := 0;
      } else if row.sidecar.Some? {
        if id in db.sidecars && db.sidecars[id].revision == row.ResultRevision()
           && db.sidecars[id].generation == row.Generation() && db.sidecars[id].state == InTriage {
          db := db.(sidecars := db.sidecars[id := RemappedSidecar(next, draft, now, db.sidecars[id])]);
        } else {
          changes := 0;
        }
      } else if id !in db.sidecars {
        db := db.(sidecars := db.sidecars[id := NewSidecar(db.questions[id], draft, now)]);
      } else {
        changes := 0;
      }
    }

    /** Two updates through `Triaged`, or one straight to a final status. */
    method SettleQuestion(p: Plan, t1: int, t2: int) returns (first: bool)
      modifies this
      ensures Tx(db, changes) == SettleStatements(p, old(db), t1, t2)
      ensures first == FirstGuard(p, old(db), t1)
    {
      changes := 0;
      if ViaTriaged(p.next.status) {
        if FirstGuard(p, db, t1) {
          var q := db.questions[p.row.id];
          q := q.(status := Triaged, verdict := p.next.verdict, leaseExpiresAt := None, retryAfter := None);
          db := db.(questions := db.questions[p.row.id := q.(revision := p.row.q.revision + 1)]);
          changes := 1;
        }
        first := changes == 1;
        if FinishGuard(p, Tx(db, changes), t2) {
          var q := db.questions[p.row.id];
          q := q.(status := p.next.status, explorationId := p.next.explorationId, revision := p.next.revision);
          db := db.(questions := db.questions[p.row.id := q]);
        } else {
          changes := 0;
        }
      } else {
        if FirstGuard(p, db, t1) {
          var q := db.questions[p.row.id];
          q := q.(status := p.next.status, verdict := p.next.verdict, explorationId := p.next.explorationId);
          q := q.(leaseExpiresAt := None, retryAfter := p.next.retryAfter, revision := p.next.revision);
          db := db.(questions := db.questions[p.row.id := q]);
          changes := 1;
        }
        first := changes == 1;
      }
    }

    /** `None` is a storage error: a link without its shared request rolls the batch back. */
    method Ack(p: Plan, t1: int, t2: int) returns (accepted: Option<bool>)
      requires p.protocol == protocol
      modifies this
      ensures Done(db, accepted) == AckBatch(p, old(db), t1, t2)
    {
      if protocol == V2 && p.op.receipt.None? {
        return Some(false);
      }
      var start := db;
      var first := SettleQuestion(p, t1, t2);
      if p.draft.Some? {
        RemapResult(p.row, p.next, p.draft.value, p.now);
      }
      Receipt(p.op, t2);
      if p.admission.None? {
        return Some(first);
      }
      var a := p.admission.value;
      var link := (a.requestId, a.accountSub);
      var settled := db;
      if changes == 1 {
        db := db.(requests := db.requests + {a.requestId});
      }
      if QueuedFor(db, p.row.id, a.requestId) {
        if link !in db.links && a.requestId !in db.requests {
          db := start;
          return None;
        }
        db := db.(links := db.links + {link});
      }
      if link in db.links {
        db := db.(jobs := db.jobs + {a.jobId});
      }
      accepted := Some(first);
    }

    method Settle(row: Row, next: Question, now: int, t: int) returns (settled: bool)
      modifies this
      ensures Done(db, Some(settled)) == SettleBatch(protocol, row, next, now, old(db), t)
    {
      changes := 0;
      if SettleGuard(protocol, row, db, t) {
        var q := db.questions[row.id].(status := next.status, leaseExpiresAt := next.leaseExpiresAt);
        db := db.(questions := db.questions[row.id := q.(retryAfter := next.retryAfter, revision := next.revision)]);
        changes := 1;
      }
      settled := changes == 1;
      if protocol == V2 && row.sidecar.Some? && next.status == TriageFailed && !ReadExpired(protocol, row) {
        RemapResult(row, next, FAILED_DRAFT, now);
      }
    }
  }
}
