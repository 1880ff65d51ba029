/** A run in which the response deadline passes between the two statements of one
    acknowledgement: the question ends at `Triaged` and the handler is told all is well. */
module TriageCrossing {
  import opened Options
  import opened Triage
  import opened TriageBatch
  import opened TriageRuns
  import opened TriageSafety

  const END := 1_000_000_000
  const ASKED := Question(Received, 0, None, None, None, None, None, 1, None, None, "acct", END)
  const UNCLEAR := Mapped("v", Draft(ClarificationRequired, None, None))
  const CLEAR := Mapped("w", Draft(ConfirmationRequired, Some("spec"), None))

  function ClaimOf(operationId: string, random: string, now: int): Event {
    BeginClaim(0, V2, "q", "svc", operationId, "b", "d", "s", random, now)
  }

  function AckOf(operationId: string, random: string, outcome: Outcome, now: int): Event {
    BeginAck(0, V2, "q", "svc", operationId, "b", "d", "s", "q2:" + random, outcome, now)
  }

  /** Asked, answered with a demand for clarification and clarified at time 0, the question
      is due a day later; its second lease outlives that day. */
  const CROSSING: seq<Event> :=
    [Publish("s"), Submit("q", ASKED),
     ClaimOf("c1", "a", 0), RunBatch(0, 0, 0), AckOf("a1", "a", UNCLEAR, 0), RunBatch(0, 0, 0), Clarify("q", 0, 0),
     ClaimOf("c2", "b", 86_000_000), RunBatch(0, 86_000_000, 86_000_000), AckOf("a2", "b", CLEAR, 86_399_000)]

  // ---------------------------------------------------------------- one claim, one answer

  function Leased(q: Question, random: string, now: int): Question {
    q.(status := Triaging, attempt := q.attempt + 1, leaseId := Some("q2:" + random), leaseOwner := Some("svc"),
       leaseExpiresAt := Some(now + LEASE_MS), claimedAt := Some(now), retryAfter := None, revision := q.revision + 1)
  }

  function ClaimRecord(db: Db, operationId: string, random: string, now: int): Operation
    requires "q" in db.questions
  {
    Operation(OpKey("svc", ClaimOp, operationId), "b", Triaging, "q2:" + random,
              Some(MakeReceipt(ReadRow(db, "q"), db.questions["q"].revision + 1, "q2:" + random, "d", "s")), now + OPERATION_MS)
  }

  function AfterClaim(db: Db, operationId: string, random: string, now: int): Db
    requires "q" in db.questions
  {
    var op := ClaimRecord(db, operationId, random, now);
    db.(questions := db.questions["q" := Leased(db.questions["q"], random, now)], operations := db.operations[op.key := op])
  }

  predicate Askable(db: Db, now: int) {
    && "q" in db.questions && db.questions["q"].status == Received && db.questions["q"].attempt == 0
    && db.questions["q"].leaseId.None? && db.questions["q"].retryAfter.None? && db.questions["q"].expiresAt == END > now
    && db.questions["q"].revision >= 1
    && db.snapshot == Some("s") && ("q" in db.sidecars ==> Active(db.sidecars["q"], db.questions["q"], now))
  }

  lemma ClaimLands(w: World, operationId: string, random: string, now: int)
    requires Askable(w.db, now) && w.calls == map[] && OpKey("svc", ClaimOp, operationId) !in w.db.operations
    ensures var after := Step(Step(w, ClaimOf(operationId, random, now)), RunBatch(0, now, now));
            after.db == AfterClaim(w.db, operationId, random, now) && after.calls == map[]
  {
    var began := Step(w, ClaimOf(operationId, random, now));
    assert 0 in began.calls && began.calls[0].Claiming?;
    var call := began.calls[0];
    assert ClaimGuard(V2, call.read, call.next, call.op, w.db, now);
    assert began.calls - {0} == map[];
  }

  function AckPlan(db: Db, operationId: string, random: string, outcome: Outcome, now: int): Plan
    requires "q" in db.questions
  {
    var row := ReadRow(db, "q");
    var next := NextQuestion(V2, row, outcome, now);
    PlanFor(V2, row, outcome,
            Operation(OpKey("svc", AckOp, operationId), "b", next.status, "q2:" + random,
                      Some(MakeReceipt(row, next.revision, "q2:" + random, "d", "s")), 0), now)
  }

  /** A fresh lease meets the first guard of its acknowledgement at any time while the
      lease and the deadline last. */
  lemma AckReady(w: World, db: Db, claim: string, operationId: string, random: string, outcome: Outcome, start: int, now: int)
    requires Askable(db, start) && w.db == AfterClaim(db, claim, random, start) && w.calls == map[]
    requires start <= now < start + LEASE_MS && now < END && outcome.Mapped?
    requires "q" in db.sidecars ==> db.sidecars["q"].responseDeadline > now
    requires OpKey("svc", AckOp, operationId) !in db.operations
    ensures var p := AckPlan(w.db, operationId, random, outcome, now);
            && Step(w, AckOf(operationId, random, outcome, now)) == w.(calls := map[0 := Acking(p, outcome)])
            && Prepared(p, outcome) && FirstGuard(p, w.db, now)
  {
    var p := AckPlan(w.db, operationId, random, outcome, now);
    var q, key := w.db.questions["q"], OpKey("svc", ClaimOp, claim);
    assert key in w.db.operations && w.db.operations[key] == ClaimRecord(db, claim, random, start);
    assert ClaimContext(w.db, q, "q", p.op.receipt.value, now);
    assert ("q2:" + random)[..3] == "q2:";
  }

  // ---------------------------------------------------------------- the run

  lemma RunAppend(events: seq<Event>, e: Event)
    ensures Run(EMPTY, events + [e]) == Step(Run(EMPTY, events), e)
  {
    assert (events + [e])[..|events|] == events;
  }

  lemma RunUpTo(k: nat)
    requires k < |CROSSING|
    ensures Run(EMPTY, CROSSING[..k + 1]) == Step(Run(EMPTY, CROSSING[..k]), CROSSING[k])
  {
    assert CROSSING[..k + 1] == CROSSING[..k] + [CROSSING[k]];
    RunAppend(CROSSING[..k], CROSSING[k]);
  }

  const START := Db(map["q" := ASKED], map[], map[], Some("s"), {}, {}, {})

  lemma Submitted()
    ensures var w := Run(EMPTY, CROSSING[..2]); w.db == START && w.calls == map[]
  {
    RunUpTo(0);
    RunUpTo(1);
    assert CROSSING[..0] == [];
  }

  ghost predicate AwaitsSecondAnswer(w: World) {
    && Askable(w.db, 86_000_000) && w.calls == map[] && w.db.sidecars.Keys == {"q"}
    && w.db.sidecars["q"].responseDeadline == DAY_MS
    && OpKey("svc", ClaimOp, "c2") !in w.db.operations && OpKey("svc", AckOp, "a2") !in w.db.operations
  }

  /** The first answer demands a clarification, and gets one. */
  lemma Clarifies(w: World)
    requires w.db == START && w.calls == map[]
    ensures var w1 := Step(Step(w, ClaimOf("c1", "a", 0)), RunBatch(0, 0, 0));
            var w2 := Step(Step(w1, AckOf("a1", "a", UNCLEAR, 0)), RunBatch(0, 0, 0));
            AwaitsSecondAnswer(Step(w2, Clarify("q", 0, 0)))
  {
    ClaimLands(w, "c1", "a", 0);
    var w1 := Step(Step(w, ClaimOf("c1", "a", 0)), RunBatch(0, 0, 0));
    AckReady(w1, w.db, "c1", "a1", "a", UNCLEAR, 0, 0);
    var w1a := Step(w1, AckOf("a1", "a", UNCLEAR, 0));
    var p := AckPlan(w1.db, "a1", "a", UNCLEAR, 0);
    assert "q" !in w1.db.sidecars;
    AckDoesEverything(p, UNCLEAR, w1.db, 0, 0);
    Answered(w1, p);
  }

  lemma Answered(w1: World, p: Plan)
    requires w1.db == AfterClaim(START, "c1", "a", 0) && w1.calls == map[] && p == AckPlan(w1.db, "a1", "a", UNCLEAR, 0)
    requires AckBatch(p, w1.db, 0, 0) == Done(Everything(p, w1.db, 0), Some(true))
    ensures var w2 := Step(w1.(calls := map[0 := Acking(p, UNCLEAR)]), RunBatch(0, 0, 0));
            AwaitsSecondAnswer(Step(w2, Clarify("q", 0, 0)))
  {
    hide AckBatch;
    var done := Everything(p, w1.db, 0);
    var q := done.questions["q"];
    assert q.status == NoData && q.revision == 4 && q.expiresAt == END;
    assert done.sidecars["q"] == NewSidecar(q, p.draft.value, 0);
    var w2 := Step(w1.(calls := map[0 := Acking(p, UNCLEAR)]), RunBatch(0, 0, 0));
    assert w2.db == done && w2.calls == map[];
    assert CanClarify(done, "q", 0);
    hide Everything, NewSidecar;
    assert "c2" != "c1" && "a2" != "a1";
  }

  lemma FirstHalf()
    ensures AwaitsSecondAnswer(Run(EMPTY, CROSSING[..7]))
  {
    hide Step, Run, Askable;
    Submitted();
    RunUpTo(2); RunUpTo(3); RunUpTo(4); RunUpTo(5); RunUpTo(6);
    Clarifies(Run(EMPTY, CROSSING[..2]));
  }

  lemma SecondHalf(w: World)
    requires AwaitsSecondAnswer(w)
    ensures var leased := Step(Step(w, ClaimOf("c2", "b", 86_000_000)), RunBatch(0, 86_000_000, 86_000_000));
            var ready := Step(leased, AckOf("a2", "b", CLEAR, 86_399_000));
            var p := AckPlan(ready.db, "a2", "b", CLEAR, 86_399_000);
            && "q" in ready.db.questions && "q" in ready.db.sidecars && ready.db.sidecars["q"].responseDeadline == DAY_MS
            && ready.calls == map[0 := Acking(p, CLEAR)] && Prepared(p, CLEAR) && FirstGuard(p, ready.db, 86_399_000)
  {
    hide Step, Prepared, FirstGuard, AckPlan;
    ClaimLands(w, "c2", "b", 86_000_000);
    var leased := Step(Step(w, ClaimOf("c2", "b", 86_000_000)), RunBatch(0, 86_000_000, 86_000_000));
    AckReady(leased, w.db, "c2", "a2", "b", CLEAR, 86_000_000, 86_399_000);
  }

  /** Reachable: the second answer's first statement matches a second before the deadline,
      its second one runs at the deadline, and the question is left behind. */
  lemma CrossingHappens()
    ensures var w := Run(EMPTY, CROSSING);
            && Reachable(w) && w.calls.Keys == {0} && w.calls[0].Acking?
            && var p := w.calls[0].p;
            && FirstGuard(p, w.db, 86_399_000) && Crossed(p, w.db, 86_400_000)
            && AckBatch(p, w.db, 86_399_000, 86_400_000).accepted == Some(true)
            && var after := Step(w, RunBatch(0, 86_399_000, 86_400_000));
            && "q" in after.db.questions && after.db.questions["q"].status == Triaged
            && p.op.key !in after.db.operations
  {
    hide Step, Run, AckPlan, Prepared, FirstGuard, AckBatch, AwaitsSecondAnswer;
    FirstHalf();
    RunUpTo(7); RunUpTo(8); RunUpTo(9);
    assert CROSSING[..10] == CROSSING;
    SecondHalf(Run(EMPTY, CROSSING[..7]));
    LeavesBehind(Run(EMPTY, CROSSING), Run(EMPTY, CROSSING).db, CLEAR);
  }

  lemma LeavesBehind(w: World, db: Db, outcome: Outcome)
    requires "q" in db.questions && w.db == db && outcome == CLEAR
    requires var p := AckPlan(db, "a2", "b", outcome, 86_399_000);
             w.calls == map[0 := Acking(p, outcome)] && Prepared(p, outcome) && FirstGuard(p, db, 86_399_000)
    requires "q" in db.sidecars && db.sidecars["q"].responseDeadline == DAY_MS
    ensures var p := w.calls[0].p;
            && Crossed(p, db, 86_400_000) && AckBatch(p, db, 86_399_000, 86_400_000).accepted == Some(true)
            && var after := Step(w, RunBatch(0, 86_399_000, 86_400_000));
            && "q" in after.db.questions && after.db.questions["q"].status == Triaged
            && p.op.key !in after.db.operations
  {
    var p := w.calls[0].p;
    AckLeavesTriaged(p, outcome, db, 86_399_000, 86_400_000);
    hide AckBatch;
  }
}
