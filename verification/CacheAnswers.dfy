/** The cache, the budget and each effect of a request, written out. */
module CacheAnswers {
  import opened Numerals
  import opened Options
  import opened QueryCache

  // ---------------------------------------------------------------- slots and rows

  /** 64 hexadecimal digits, of which the first eight choose one of 512 slots. */
  lemma SlotExactly(digest: string)
    ensures Slot(digest).Some? <==> |digest| == 64 && forall i | 0 <= i < 64 :: '0' <= digest[i] <= '9' || 'a' <= digest[i] <= 'f'
    ensures Slot(digest).Some? ==> IsNumeral(B16, digest[..8]) && Slot(digest).value == ToNumber(B16, digest[..8]) % 512
  {
    hide ToNumber;
    if |digest| == 64 && IsNumeral(B16, digest) {
      assert forall i | 0 <= i < 8 :: digest[..8][i] == digest[i];
    }
  }

  /** fpl:code: and a number from 1 on, in its usual spelling. */
  lemma RouteKeyExactly(s: string)
    ensures RouteKey(s) <==>
              && |s| >= 10 && s[..9] == "fpl:code:" && s[9] != '0'
              && forall i | 9 <= i < |s| :: s[i] in {'0', '1', '2', '3', '4', '5', '6', '7', '8', '9'}
  {
  }

  /** A stored result may be served: of this snapshot and unit, with no more rows than asked
      for, and within the bounds on every row's texts. */
  lemma ServableExactly(r: Result, snapshotId: string, intent: Intent)
    ensures Servable(r, snapshotId, intent) <==>
              && r.snapshotId == snapshotId && r.unitName == (if intent.entityType == Season then "goals" else intent.metric)
              && |r.rows| <= (if intent.limit < 1 then 1 else if intent.limit < 50 then intent.limit else 50)
              && (forall i | 0 <= i < |r.rows| ::
                    && |r.rows[i].title| <= 160 && (r.rows[i].secondary == None || |r.rows[i].secondary.value| <= 160)
                    && (intent.entityType == Season ==> r.rows[i].routeKey == None)
                    && (intent.entityType != Season ==> r.rows[i].routeKey.Some? && RouteKey(r.rows[i].routeKey.value)))
  {
    hide RouteKey;
  }

  /** A hit needs the slot's row to be this key's under this snapshot, and servable. */
  lemma HitExactly(slots: map<nat, SlotRow>, digest: string, snapshot: Option<string>, intent: Intent)
    ensures ReadCache(slots, digest, snapshot, intent)
            == if snapshot.None? || Slot(digest).None? then NotApplicable
               else
                 var n := Slot(digest).value;
                 if n in slots && slots[n] == SlotRow(digest, snapshot.value, slots[n].result)
                    && Servable(slots[n].result, snapshot.value, intent)
                 then Hit(slots[n].result) else Miss
  {
    hide Servable, Slot;
  }

  /** A servable result is kept while its snapshot is still the published one. */
  lemma KeptExactly(s: Store, digest: string, snapshot: Option<string>, result: Result, intent: Intent)
    ensures WriteCache(s, digest, snapshot, result, intent)
            == if snapshot.Some? && s.snapshot == snapshot && Slot(digest).Some? && Servable(result, snapshot.value, intent)
               then s.slots[Slot(digest).value := SlotRow(digest, snapshot.value, result)] else s.slots
  {
    hide Servable, Slot;
  }

  // ---------------------------------------------------------------- the budget

  function Charges(counter: map<string, nat>, day: string): nat {
    if day in counter then counter[day] else 0
  }

  /** 800 in the advisory counter refuses without a charge. Otherwise a database that
      answers charges the request and lets the first thousand of the day through; one that
      does not lets through what need not fail closed. */
  lemma BudgetAnswer(counter: map<string, nat>, day: string, kv: Option<nat>, up: bool, failClosed: bool)
    ensures EnforceBudget(counter, day, kv, up, failClosed)
            == if kv.Some? && 800 <= kv.value then Verdict(false, counter)
               else if up then Verdict(Charges(counter, day) < 1000, counter[day := Charges(counter, day) + 1])
               else Verdict(!failClosed, counter)
  {
  }

  /** A request within the day's budget is let through, in every world of every run. */
  lemma WithinBudgetPasses(w: World, c: nat, day: string, kv: Option<nat>)
    requires c in w.calls && w.calls[c].Missed? && (kv.None? || kv.value < 800) && Charges(w.store.counter, day) < 1000
    ensures var call, w' := w.calls[c], Step(w, AskBudget(c, day, kv, true));
            && c in w'.calls && w'.calls[c] == Allowed(call.intent, call.digest, call.snapshot)
            && w'.passes == w.passes + [Pass(day, call.failClosed)]
            && w'.store == w.store.(counter := w.store.counter[day := Charges(w.store.counter, day) + 1])
  {
  }

  // ---------------------------------------------------------------- effect by effect

  /** What the executor reads: the rows of the data published now, under the name it is given. */
  lemma QueryAnswer(s: Store, intent: Intent, snapshot: string)
    ensures RunQuery(s, intent, snapshot)
            == Result(if intent in s.data then s.data[intent] else [], snapshot,
                      if intent.entityType == Season then "goals" else intent.metric)
  {
  }

  /** Looking: a request notes the published snapshot, and a hit skips budget and executor. */
  lemma LookAnswers(w: World, c: nat, intent: Intent, digest: string, failClosed: bool, up: bool)
    requires c !in w.calls && (digest !in w.names || w.names[digest] == (intent, w.store.snapshot))
    ensures var begun := Step(w, Begin(c, intent, digest, failClosed));
            var found := ReadCache(w.store.slots, digest, w.store.snapshot, intent);
            && begun == w.(calls := w.calls[c := Looking(intent, digest, w.store.snapshot, failClosed)],
                           names := w.names[digest := (intent, w.store.snapshot)])
            && Step(begun, Look(c, up))
               == begun.(calls := w.calls[c := if up && found.Hit? then Found(intent, w.store.snapshot, found.result)
                                               else Missed(intent, digest, w.store.snapshot, failClosed)])
  {
    hide ReadCache;
    var begun := Step(w, Begin(c, intent, digest, failClosed));
    var found := ReadCache(w.store.slots, digest, w.store.snapshot, intent);
    var next := if up && found.Hit? then Found(intent, w.store.snapshot, found.result) else Missed(intent, digest, w.store.snapshot, failClosed);
    assert begun.calls[c := next] == w.calls[c := next];
  }

  /** A hit is answered, and a computation goes on, exactly if the snapshot still stands. */
  lemma ConfirmAnswers(w: World, c: nat)
    requires c in w.calls
    ensures var call, rest := w.calls[c], w.calls - {c};
            match call
            case Found(intent, snapshot, result) =>
              Step(w, ConfirmHit(c))
              == w.(calls := rest,
                    answers := if w.store.snapshot == snapshot then w.answers + [Answer(intent, snapshot, result, true)] else w.answers)
            case Computed(intent, digest, snapshot, result) =>
              Step(w, ConfirmComputed(c))
              == w.(calls := if w.store.snapshot == snapshot then w.calls[c := Checked(intent, digest, snapshot, result)] else rest)
            case _ => true
  {
  }

  /** Computing, then keeping and answering: a failed write loses the slot, not the answer. */
  lemma ComputeAnswers(w: World, c: nat, up: bool)
    requires c in w.calls
    ensures var call, rest := w.calls[c], w.calls - {c};
            match call
            case Allowed(intent, digest, snapshot) =>
              Step(w, Compute(c))
              == w.(calls := w.calls[c := Computed(intent, digest, snapshot,
                                                   RunQuery(w.store, intent, if snapshot.Some? then snapshot.value else ""))])
            case Checked(intent, digest, snapshot, result) =>
              Step(w, Save(c, up))
              == w.(calls := rest, answers := w.answers + [Answer(intent, snapshot, result, false)],
                    store := if up then w.store.(slots := WriteCache(w.store, digest, snapshot, result, intent)) else w.store)
            case _ => true
  {
    hide RunQuery, WriteCache;
  }

  /** What may happen around the requests: publications of new names or of the same data,
      evictions, and requests that fail. */
  lemma OutsideSteps(w: World, e: Event)
    requires e.Publish? || e.Evict? || e.Failure?
    ensures match e
            case Publish(snapshotId, data) =>
              Step(w, e) == if (snapshotId in w.archive ==> w.archive[snapshotId] == data)
                               && !exists c :: c in w.calls && w.calls[c].snapshot == Some(snapshotId)
                            then w.(store := Store(w.store.slots, Some(snapshotId), data, w.store.counter),
                                    archive := w.archive[snapshotId := data])
                            else w
            case Evict(slot) => Step(w, e) == w.(store := w.store.(slots := w.store.slots - {slot}))
            case Failure(c) => Step(w, e) == w.(calls := w.calls - {c})
  {
  }

  /** A request waits for its own next effect. */
  lemma OtherEffectsWait(w: World, c: nat, e: Event)
    requires c in w.calls
    requires match e
             case Look(d, _) => d == c && !w.calls[c].Looking?
             case ConfirmHit(d) => d == c && !w.calls[c].Found?
             case AskBudget(d, _, _, _) => d == c && !w.calls[c].Missed?
             case Compute(d) => d == c && !w.calls[c].Allowed?
             case ConfirmComputed(d) => d == c && !w.calls[c].Computed?
             case Save(d, _) => d == c && !w.calls[c].Checked?
             case _ => false
    ensures Step(w, e) == w
  {
  }

  /** A run is its steps, one after the other. */
  lemma RunsInOrder(w: World, events: seq<Event>, e: Event)
    ensures Run(w, []) == w && Run(w, events + [e]) == Step(Run(w, events), e)
  {
    assert (events + [e])[..|events + [e]| - 1] == events;
  }
}
