/** The direct-mapped result cache in front of the query executor, and the daily budget
    behind it. Requests interleave with publications, evictions and storage failures. */
module QueryCache {
  import opened Numerals
  import opened Options

  // ---------------------------------------------------------------- results

  datatype EntityType = Player | Match | Season | Opponent | Competition

  /** What of an intent the cache looks at, and the rest of it. */
  datatype Intent = Intent(metric: string, entityType: EntityType, limit: int, rest: string)

  datatype ResultRow = ResultRow(title: string, value: Option<real>, secondary: Option<string>, routeKey: Option<string>)

  datatype Result = Result(rows: seq<ResultRow>, snapshotId: string, unitName: string)

  const CACHE_ROW_LIMIT := 50
  const SLOT_COUNT := 512

  /** One of a fixed number of slots, from the first 32 bits of the key's digest. */
  function Slot(digest: string): Option<nat> {
    if |digest| != 64 || !IsNumeral(B16, digest) then None
    else
      assert forall i | 0 <= i < 8 :: digest[..8][i] == digest[i];
      Some(ToNumber(B16, digest[..8]) % SLOT_COUNT)
  }

  function UnitFor(intent: Intent): string {
    if intent.entityType == Season then "goals" else intent.metric
  }

  function RowLimit(intent: Intent): int {
    var n := if intent.limit < 1 then 1 else intent.limit;
    if n > CACHE_ROW_LIMIT then CACHE_ROW_LIMIT else n
  }

  /** fpl:code: and a number without a leading zero. */
  predicate RouteKey(s: string) {
    && |s| > 9 && s[..9] == "fpl:code:" && '1' <= s[9] <= '9'
    && forall i | 9 <= i < |s| :: '0' <= s[i] <= '9'
  }

  predicate ServableRow(row: ResultRow, intent: Intent) {
    && |row.title| <= 160 && (row.secondary.Some? ==> |row.secondary.value| <= 160)
    && if intent.entityType == Season then row.routeKey.None? else row.routeKey.Some? && RouteKey(row.routeKey.value)
  }

  predicate Servable(result: Result, snapshotId: string, intent: Intent) {
    && result.snapshotId == snapshotId && result.unitName == UnitFor(intent)
    && |result.rows| <= RowLimit(intent)
    && forall i | 0 <= i < |result.rows| :: ServableRow(result.rows[i], intent)
  }

  /** The validation loop over stored rows: the whole result, or nothing. */
  method CachedResult(stored: Result, snapshotId: string, intent: Intent) returns (r: Option<Result>)
    ensures r == if Servable(stored, snapshotId, intent) then Some(stored) else None
  {
    if stored.snapshotId != snapshotId || stored.unitName != UnitFor(intent) || |stored.rows| > RowLimit(intent) {
      return None;
    }
    var rows: seq<ResultRow> := [];
    for i := 0 to |stored.rows|
      invariant rows == stored.rows[..i]
      invariant forall j | 0 <= j < i :: ServableRow(stored.rows[j], intent)
    {
      if !ServableRow(stored.rows[i], intent) {
        return None;
      }
      rows := rows + [stored.rows[i]];
    }
    assert rows == stored.rows;
    r := Some(Result(rows, snapshotId, stored.unitName));
  }

  // ---------------------------------------------------------------- the store

  datatype SlotRow = SlotRow(digest: string, snapshotId: string, result: Result)

  /** The rows each intent has in the data published under a snapshot id. */
  type Data = map<Intent, seq<ResultRow>>

  datatype Store = Store(slots: map<nat, SlotRow>, snapshot: Option<string>, data: Data, counter: map<string, nat>)

  datatype Lookup = Hit(result: Result) | Miss | NotApplicable | CacheDown

  function ReadCache(slots: map<nat, SlotRow>, digest: string, snapshot: Option<string>, intent: Intent): Lookup {
    if Slot(digest).None? || snapshot.None? then NotApplicable
    else
      var slot := Slot(digest).value;
      if slot !in slots || slots[slot].digest != digest || slots[slot].snapshotId != snapshot.value
         || !Servable(slots[slot].result, snapshot.value, intent) then Miss
      else Hit(slots[slot].result)
  }

  /** The insert runs only while the snapshot is still the published one. */
  function WriteCache(s: Store, digest: string, snapshot: Option<string>, result: Result, intent: Intent): map<nat, SlotRow> {
    if Slot(digest).None? || snapshot.None? || !Servable(result, snapshot.value, intent) || s.snapshot != snapshot then s.slots
    else s.slots[Slot(digest).value := SlotRow(digest, snapshot.value, result)]
  }

  /** The executor reads whatever is published now; it labels it as it was told. */
  function RunQuery(s: Store, intent: Intent, snapshot: string): Result {
    Result(if intent in s.data then s.data[intent] else [], snapshot, UnitFor(intent))
  }

  const BUDGET_FAST_LIMIT := 800
  const BUDGET_HARD_LIMIT := 1000

  function Count(counter: map<string, nat>, day: string): nat {
    if day in counter then counter[day] else 0
  }

  /** `kv` is what the advisory counter says, if anything; `up` that the database answers. */
  datatype Verdict = Verdict(allowed: bool, counter: map<string, nat>)

  function EnforceBudget(counter: map<string, nat>, day: string, kv: Option<nat>, up: bool, failClosed: bool): Verdict {
    if kv.Some? && kv.value >= BUDGET_FAST_LIMIT then Verdict(false, counter)
    else if !up then Verdict(!failClosed, counter)
    else
      var count := Count(counter, day) + 1;
      Verdict(count <= BUDGET_HARD_LIMIT, counter[day := count])
  }

  // ---------------------------------------------------------------- the machine

  /** A request between the effects of executeWithCache. */
  datatype Call =
    | Looking(intent: Intent, digest: string, snapshot: Option<string>, failClosed: bool)
    | Found(intent: Intent, snapshot: Option<string>, result: Result)
    | Missed(intent: Intent, digest: string, snapshot: Option<string>, failClosed: bool)
    | Allowed(intent: Intent, digest: string, snapshot: Option<string>)
    | Computed(intent: Intent, digest: string, snapshot: Option<string>, result: Result)
    | Checked(intent: Intent, digest: string, snapshot: Option<string>, result: Result)

  datatype Answer = Answer(intent: Intent, snapshot: Option<string>, result: Result, fromCache: bool)

  /** A request let through to the executor. */
  datatype Pass = Pass(day: string, failClosed: bool)

  /** `archive` is the data of every snapshot id, `names` what each digest was made of. */
  datatype World = World(
    store: Store, archive: map<string, Data>, names: map<string, (Intent, Option<string>)>,
    calls: map<nat, Call>, answers: seq<Answer>, passes: seq<Pass>)

  datatype Event =
    | Publish(snapshotId: string, data: Data)
    | Evict(slot: nat)
    | Begin(c: nat, intent: Intent, digest: string, failClosed: bool)
    | Look(c: nat, up: bool)
    | ConfirmHit(c: nat)
    | AskBudget(c: nat, day: string, kv: Option<nat>, up: bool)
    | Compute(c: nat)
    | ConfirmComputed(c: nat)
    | Save(c: nat, up: bool)
    | Failure(c: nat)

  /** No snapshot id names two data sets, and none is published again while a request
      that read it is still running. */
  predicate MayPublish(w: World, snapshotId: string, data: Data) {
    && (snapshotId in w.archive ==> w.archive[snapshotId] == data)
    && (forall c | c in w.calls :: w.calls[c].snapshot != Some(snapshotId))
  }

  /** Digests do not collide. */
  predicate Names(w: World, digest: string, intent: Intent) {
    digest in w.names ==> w.names[digest] == (intent, w.store.snapshot)
  }

  function SetCall(w: World, c: nat, call: Call): World {
    w.(calls := w.calls[c := call])
  }

  function DropCall(w: World, c: nat): World {
    w.(calls := w.calls - {c})
  }

  function Step(w: World, e: Event): World {
    match e
    case Publish(snapshotId, data) =>
      if !MayPublish(w, snapshotId, data) then w
      else w.(store := w.store.(snapshot := Some(snapshotId), data := data), archive := w.archive[snapshotId := data])
    case Evict(slot) => w.(store := w.store.(slots := w.store.slots - {slot}))
    case Begin(c, intent, digest, failClosed) =>
      if c in w.calls || !Names(w, digest, intent) then w
      else SetCall(w, c, Looking(intent, digest, w.store.snapshot, failClosed)).(names := w.names[digest := (intent, w.store.snapshot)])
    case Failure(c) => DropCall(w, c)
    case _ => if e.c in w.calls then Advance(w, e.c, w.calls[e.c], e) else w
  }

  function Advance(w: World, c: nat, call: Call, e: Event): World {
    match call
    case Looking(intent, digest, snapshot, failClosed) =>
      if !e.Look? then w
      else
        (match if e.up then ReadCache(w.store.slots, digest, snapshot, intent) else CacheDown
         case Hit(result) => SetCall(w, c, Found(intent, snapshot, result))
         case _ => SetCall(w, c, Missed(intent, digest, snapshot, failClosed)))
    case Found(intent, snapshot, result) =>
      if !e.ConfirmHit? then w
      else if w.store.snapshot != snapshot then DropCall(w, c)
      else DropCall(w, c).(answers := w.answers + [Answer(intent, snapshot, result, true)])
    case Missed(intent, digest, snapshot, failClosed) =>
      if !e.AskBudget? then w
      else
        var v := EnforceBudget(w.store.counter, e.day, e.kv, e.up, failClosed);
        var charged := w.(store := w.store.(counter := v.counter));
        if !v.allowed then DropCall(charged, c)
        else SetCall(charged, c, Allowed(intent, digest, snapshot)).(passes := w.passes + [Pass(e.day, failClosed)])
    case Allowed(intent, digest, snapshot) =>
      if !e.Compute? then w
      else SetCall(w, c, Computed(intent, digest, snapshot, RunQuery(w.store, intent, if snapshot.Some? then snapshot.value else "")))
    case Computed(intent, digest, snapshot, result) =>
      if !e.ConfirmComputed? then w
      else if w.store.snapshot != snapshot then DropCall(w, c)
      else SetCall(w, c, Checked(intent, digest, snapshot, result))
    case Checked(intent, digest, snapshot, result) =>
      if !e.Save? then w
      else
        var saved := if e.up then w.(store := w.store.(slots := WriteCache(w.store, digest, snapshot, result, intent))) else w;
        DropCall(saved, c).(answers := w.answers + [Answer(intent, snapshot, result, false)])
  }

  function Run(w: World, events: seq<Event>): World {
    if events == [] then w else Step(Run(w, events[..|events| - 1]), events[|events| - 1])
  }

  const EMPTY := World(Store(map[], None, map[], map[]), map[], map[], map[], [], [])

  // ---------------------------------------------------------------- the invariant

  /** The true result of an intent in the data of a snapshot. */
  function Truth(archive: map<string, Data>, snapshotId: string, intent: Intent): Result
    requires snapshotId in archive
  {
    var data := archive[snapshotId];
    Result(if intent in data then data[intent] else [], snapshotId, UnitFor(intent))
  }

  ghost predicate True(archive: map<string, Data>, snapshot: Option<string>, intent: Intent, result: Result) {
    snapshot.Some? ==> snapshot.value in archive && result == Truth(archive, snapshot.value, intent)
  }

  /** What is published is in the archive; before the first publication there is no data. */
  ghost predicate Published(store: Store, archive: map<string, Data>) {
    match store.snapshot
    case None => store.data == map[]
    case Some(id) => id in archive && archive[id] == store.data
  }

  ghost predicate SlotsTrue(slots: map<nat, SlotRow>, archive: map<string, Data>, names: map<string, (Intent, Option<string>)>) {
    forall n | n in slots ::
      var row := slots[n];
      && Slot(row.digest) == Some(n) && row.digest in names && names[row.digest].1 == Some(row.snapshotId)
      && row.snapshotId in archive && row.result == Truth(archive, row.snapshotId, names[row.digest].0)
  }

  ghost predicate CallTrue(store: Store, archive: map<string, Data>, names: map<string, (Intent, Option<string>)>, call: Call) {
    && (call.snapshot.Some? ==> call.snapshot.value in archive)
    && match call
       case Looking(intent, digest, snapshot, _) => digest in names && names[digest] == (intent, snapshot)
       case Missed(intent, digest, snapshot, _) => digest in names && names[digest] == (intent, snapshot)
       case Allowed(intent, digest, snapshot) => digest in names && names[digest] == (intent, snapshot)
       case Found(intent, snapshot, result) => snapshot.Some? && True(archive, snapshot, intent, result)
       // Rows read while the request's own snapshot was published are true; rows read at
       // any other time belong to a request that will not find its snapshot again.
       case Computed(intent, digest, snapshot, result) =>
         digest in names && names[digest] == (intent, snapshot)
         && (True(archive, snapshot, intent, result) || store.snapshot != snapshot)
       case Checked(intent, digest, snapshot, result) =>
         digest in names && names[digest] == (intent, snapshot) && True(archive, snapshot, intent, result)
  }

  ghost predicate CallsTrue(store: Store, archive: map<string, Data>, names: map<string, (Intent, Option<string>)>, calls: map<nat, Call>) {
    forall c | c in calls :: CallTrue(store, archive, names, calls[c])
  }

  ghost predicate AnswersTrue(archive: map<string, Data>, answers: seq<Answer>) {
    forall i | 0 <= i < |answers| ::
      (answers[i].fromCache ==> answers[i].snapshot.Some?)
      && True(archive, answers[i].snapshot, answers[i].intent, answers[i].result)
  }

  function PassesOn(passes: seq<Pass>, day: string): nat {
    if passes == [] then 0
    else PassesOn(passes[..|passes| - 1], day)
         + if passes[|passes| - 1].day == day && passes[|passes| - 1].failClosed then 1 else 0
  }

  ghost predicate Charged(counter: map<string, nat>, passes: seq<Pass>) {
    forall day :: PassesOn(passes, day) <= Count(counter, day) && PassesOn(passes, day) <= BUDGET_HARD_LIMIT
  }

  ghost predicate Inv(w: World) {
    && Published(w.store, w.archive)
    && SlotsTrue(w.store.slots, w.archive, w.names)
    && CallsTrue(w.store, w.archive, w.names, w.calls)
    && AnswersTrue(w.archive, w.answers)
    && Charged(w.store.counter, w.passes)
  }

  // ---------------------------------------------------------------- steps

  lemma SetCallKeepsInv(w: World, c: nat, call: Call)
    requires Inv(w) && CallTrue(w.store, w.archive, w.names, call)
    ensures Inv(SetCall(w, c, call))
  {
    hide CallTrue, SlotsTrue, AnswersTrue, Charged;
  }

  lemma DropCallKeepsInv(w: World, c: nat)
    requires Inv(w)
    ensures Inv(DropCall(w, c))
  {
    hide CallTrue, SlotsTrue, AnswersTrue, Charged;
  }

  lemma AnswerKeepsInv(w: World, a: Answer)
    requires Inv(w) && True(w.archive, a.snapshot, a.intent, a.result) && (a.fromCache ==> a.snapshot.Some?)
    ensures Inv(w.(answers := w.answers + [a]))
  {
    hide CallTrue, SlotsTrue, Charged, CallsTrue, True;
  }

  lemma PublishKeepsInv(w: World, snapshotId: string, data: Data)
    requires Inv(w) && MayPublish(w, snapshotId, data)
    ensures Inv(Step(w, Publish(snapshotId, data)))
  {
    hide Charged;
    var archive' := w.archive[snapshotId := data];
    var store' := w.store.(snapshot := Some(snapshotId), data := data);
    assert forall id | id in w.archive :: archive'[id] == w.archive[id];
    forall c | c in w.calls
      ensures CallTrue(store', archive', w.names, w.calls[c])
    {
      assert CallTrue(w.store, w.archive, w.names, w.calls[c]);
    }
  }

  lemma EvictKeepsInv(w: World, slot: nat)
    requires Inv(w)
    ensures Inv(Step(w, Evict(slot)))
  {
    hide Charged, AnswersTrue;
    var store' := w.store.(slots := w.store.slots - {slot});
    forall c | c in w.calls
      ensures CallTrue(store', w.archive, w.names, w.calls[c])
    {
      assert CallTrue(w.store, w.archive, w.names, w.calls[c]);
    }
  }

  lemma BeginKeepsInv(w: World, c: nat, intent: Intent, digest: string, failClosed: bool)
    requires Inv(w) && Names(w, digest, intent)
    ensures Inv(SetCall(w, c, Looking(intent, digest, w.store.snapshot, failClosed)).(
                  names := w.names[digest := (intent, w.store.snapshot)]))
  {
    hide Charged, AnswersTrue;
    var names' := w.names[digest := (intent, w.store.snapshot)];
    assert forall d | d in w.names :: names'[d] == w.names[d];
    forall d | d in w.calls
      ensures CallTrue(w.store, w.archive, names', w.calls[d])
    {
      assert CallTrue(w.store, w.archive, w.names, w.calls[d]);
    }
  }

  /** A hit is the truth for its key. */
  lemma HitIsTrue(w: World, intent: Intent, digest: string, snapshot: Option<string>)
    requires Inv(w) && digest in w.names && w.names[digest] == (intent, snapshot)
    requires ReadCache(w.store.slots, digest, snapshot, intent).Hit?
    ensures snapshot.Some? && True(w.archive, snapshot, intent, ReadCache(w.store.slots, digest, snapshot, intent).result)
  {
    hide CallsTrue, AnswersTrue, Charged, Servable;
  }

  lemma PassesAppend(passes: seq<Pass>, p: Pass, day: string)
    ensures PassesOn(passes + [p], day) == PassesOn(passes, day) + if p.day == day && p.failClosed then 1 else 0
  {
    assert (passes + [p])[..|passes + [p]| - 1] == passes;
  }

  lemma BudgetKeepsCharged(counter: map<string, nat>, passes: seq<Pass>, day: string, kv: Option<nat>, up: bool, failClosed: bool)
    requires Charged(counter, passes)
    ensures var v := EnforceBudget(counter, day, kv, up, failClosed);
            Charged(v.counter, if v.allowed then passes + [Pass(day, failClosed)] else passes)
  {
    var v := EnforceBudget(counter, day, kv, up, failClosed);
    forall d
      ensures PassesOn(if v.allowed then passes + [Pass(day, failClosed)] else passes, d) <= Count(v.counter, d)
      ensures PassesOn(if v.allowed then passes + [Pass(day, failClosed)] else passes, d) <= BUDGET_HARD_LIMIT
    {
      PassesAppend(passes, Pass(day, failClosed), d);
      assert PassesOn(passes, d) <= Count(counter, d) && PassesOn(passes, d) <= BUDGET_HARD_LIMIT;
    }
  }

  lemma ChargeKeepsInv(w: World, counter: map<string, nat>, passes: seq<Pass>)
    requires Inv(w) && Charged(counter, passes)
    ensures Inv(w.(store := w.store.(counter := counter), passes := passes))
  {
    hide Charged, AnswersTrue, SlotsTrue;
    var store' := w.store.(counter := counter);
    forall c | c in w.calls
      ensures CallTrue(store', w.archive, w.names, w.calls[c])
    {
      assert CallTrue(w.store, w.archive, w.names, w.calls[c]);
    }
  }

  lemma SaveKeepsInv(w: World, intent: Intent, digest: string, snapshot: Option<string>, result: Result)
    requires Inv(w) && digest in w.names && w.names[digest] == (intent, snapshot) && True(w.archive, snapshot, intent, result)
    ensures Inv(w.(store := w.store.(slots := WriteCache(w.store, digest, snapshot, result, intent))))
  {
    hide Charged, AnswersTrue, Servable;
    var store' := w.store.(slots := WriteCache(w.store, digest, snapshot, result, intent));
    forall c | c in w.calls
      ensures CallTrue(store', w.archive, w.names, w.calls[c])
    {
      assert CallTrue(w.store, w.archive, w.names, w.calls[c]);
    }
  }

  lemma AdvanceKeepsInv(w: World, c: nat, e: Event)
    requires Inv(w) && c in w.calls
    ensures Inv(Advance(w, c, w.calls[c], e))
  {
    var call := w.calls[c];
    assert CallTrue(w.store, w.archive, w.names, call);
    assert Published(w.store, w.archive) && Charged(w.store.counter, w.passes);
    hide Inv, EnforceBudget, ReadCache, WriteCache;
    if call.Allowed? && e.Compute? {
      SetCallKeepsInv(w, c, Computed(call.intent, call.digest, call.snapshot,
                                     RunQuery(w.store, call.intent, if call.snapshot.Some? then call.snapshot.value else "")));
    }
    hide Published, Charged;
    match call
    case Looking(intent, digest, snapshot, failClosed) =>
      if e.Look? {
        if e.up && ReadCache(w.store.slots, digest, snapshot, intent).Hit? {
          HitIsTrue(w, intent, digest, snapshot);
          SetCallKeepsInv(w, c, Found(intent, snapshot, ReadCache(w.store.slots, digest, snapshot, intent).result));
        } else {
          SetCallKeepsInv(w, c, Missed(intent, digest, snapshot, failClosed));
        }
      }
    case Found(intent, snapshot, result) =>
      DropCallKeepsInv(w, c);
      AnswerKeepsInv(DropCall(w, c), Answer(intent, snapshot, result, true));
    case Missed(intent, digest, snapshot, failClosed) =>
      if e.AskBudget? {
        var v := EnforceBudget(w.store.counter, e.day, e.kv, e.up, failClosed);
        var passes := if v.allowed then w.passes + [Pass(e.day, failClosed)] else w.passes;
        BudgetKeepsCharged(w.store.counter, w.passes, e.day, e.kv, e.up, failClosed);
        ChargeKeepsInv(w, v.counter, passes);
        var charged := w.(store := w.store.(counter := v.counter), passes := passes);
        DropCallKeepsInv(charged, c);
        SetCallKeepsInv(charged, c, Allowed(intent, digest, snapshot));
      }
    case Allowed(intent, digest, snapshot) =>
    case Computed(intent, digest, snapshot, result) =>
      DropCallKeepsInv(w, c);
      if w.store.snapshot == snapshot {
        SetCallKeepsInv(w, c, Checked(intent, digest, snapshot, result));
      }
    case Checked(intent, digest, snapshot, result) =>
      if e.Save? {
        if e.up { SaveKeepsInv(w, intent, digest, snapshot, result); }
        var saved := if e.up then w.(store := w.store.(slots := WriteCache(w.store, digest, snapshot, result, intent))) else w;
        DropCallKeepsInv(saved, c);
        AnswerKeepsInv(DropCall(saved, c), Answer(intent, snapshot, result, false));
      }
  }

  lemma StepKeepsInv(w: World, e: Event)
    requires Inv(w)
    ensures Inv(Step(w, e))
  {
    hide Inv, Advance;
    match e
    case Publish(snapshotId, data) => if MayPublish(w, snapshotId, data) { PublishKeepsInv(w, snapshotId, data); }
    case Evict(slot) => EvictKeepsInv(w, slot);
    case Begin(c, intent, digest, failClosed) =>
      if c !in w.calls && Names(w, digest, intent) { BeginKeepsInv(w, c, intent, digest, failClosed); }
    case Failure(c) => DropCallKeepsInv(w, c);
    case _ => if e.c in w.calls { AdvanceKeepsInv(w, e.c, e); }
  }

  lemma {:induction false} RunKeepsInv(w: World, events: seq<Event>)
    requires Inv(w)
    ensures Inv(Run(w, events))
  {
    hide Inv, Step;
    if events != [] {
      RunKeepsInv(w, events[..|events| - 1]);
      StepKeepsInv(Run(w, events[..|events| - 1]), events[|events| - 1]);
    }
  }

  // ---------------------------------------------------------------- theorems over whole runs

  /** The cache is transparent: whatever was hit, missed, evicted, refused or published in
      between, every answer under a snapshot is the true one for its data, so that a hit
      and a computation of one request cannot be told apart by their rows. */
  lemma CacheIsTransparent(events: seq<Event>, i: nat)
    requires i < |Run(EMPTY, events).answers|
    ensures var w := Run(EMPTY, events); var a := w.answers[i];
            && (a.snapshot.Some? ==> a.snapshot.value in w.archive && a.result == Truth(w.archive, a.snapshot.value, a.intent))
            && (a.fromCache ==> a.snapshot.Some?)
  {
    RunKeepsInv(EMPTY, events);
  }

  /** At most 1000 requests of fail-closed routes per UTC day reach the executor, whatever
      the advisory counter says and however often storage fails. */
  lemma BudgetHolds(events: seq<Event>, day: string)
    ensures PassesOn(Run(EMPTY, events).passes, day) <= 1000
  {
    RunKeepsInv(EMPTY, events);
  }

  // ---------------------------------------------------------------- one request, effect by effect

  class Worker {
    var store: Store

    constructor (store: Store)
      ensures this.store == store
    {
      this.store := store;
    }

    /** `None` is a refusal or an error. Nothing else runs in between: a hit answers what
        the executor would, at no charge; a miss is charged first. */
    method ExecuteWithCache(intent: Intent, digest: string, snapshot: Option<string>, allowCompute: bool, failClosed: bool,
                            day: string, kv: Option<nat>, readUp: bool, budgetUp: bool, writeUp: bool,
                            ghost archive: map<string, Data>, ghost names: map<string, (Intent, Option<string>)>)
      returns (r: Option<Result>, fromCache: bool)
      requires Published(store, archive) && SlotsTrue(store.slots, archive, names)
      requires digest in names && names[digest] == (intent, snapshot)
      modifies this
      ensures Published(store, archive) && SlotsTrue(store.slots, archive, names)
      ensures r.Some? ==> store.snapshot == snapshot
      ensures r.Some? && snapshot.Some? ==> r.value == RunQuery(old(store), intent, snapshot.value)
      ensures var hit := readUp && ReadCache(old(store.slots), digest, snapshot, intent).Hit?;
              var v := EnforceBudget(old(store.counter), day, kv, budgetUp, failClosed);
              var current := old(store.snapshot) == snapshot;
              && (r.Some? <==> current && (hit || (allowCompute && v.allowed)))
              && (fromCache <==> current && hit)
              && (fromCache ==> r == Some(ReadCache(old(store.slots), digest, snapshot, intent).result))
              && store == if hit || !allowCompute then old(store)
                          else old(store).(counter := v.counter,
                                           slots := if r.Some? && writeUp
                                                    then WriteCache(old(store), digest, snapshot, r.value, intent) else old(store.slots))
    {
      fromCache := false;
      var cached := if readUp then ReadCache(store.slots, digest, snapshot, intent) else CacheDown;
      if cached.Hit? {
        if store.snapshot != snapshot {
          return None, false;
        }
        return Some(cached.result), true;
      }
      if !allowCompute {
        return None, false;
      }
      var v := EnforceBudget(store.counter, day, kv, budgetUp, failClosed);
      store := store.(counter := v.counter);
      if !v.allowed {
        return None, false;
      }
      var result := RunQuery(store, intent, if snapshot.Some? then snapshot.value else "");
      if store.snapshot != snapshot {
        return None, false;
      }
      if writeUp {
        store := store.(slots := WriteCache(store, digest, snapshot, result, intent));
      }
      r := Some(result);
    }
  }
}
