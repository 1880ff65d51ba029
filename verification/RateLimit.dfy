/** The token bucket of the ingest, in exact arithmetic: fields updated by refill and by
    the acquire loop, against clocks and sleeps chosen by the environment. */
module RateLimit {
  import opened Options

  // ---------------------------------------------------------------- the state and its updates

  datatype State = State(tokens: real, lastRefill: real)

  function Min(a: real, b: real): real {
    if a <= b then a else b
  }

  function Max(a: real, b: real): real {
    if a >= b then a else b
  }

  /** What a stretch of time adds. */
  function Gain(elapsed: real, rate: real): real {
    elapsed * rate
  }

  function Refilled(s: State, capacity: real, rate: real, now: real): State {
    State(Min(capacity, s.tokens + Gain(Max(0.0, now - s.lastRefill), rate)), now)
  }

  function Spent(s: State, n: real): State {
    s.(tokens := s.tokens - n)
  }

  /** Within [0, capacity]; a bucket of negative capacity stays exactly full. */
  predicate InRange(s: State, capacity: real) {
    Min(0.0, capacity) <= s.tokens <= capacity
  }

  lemma GainIsNonNegative(elapsed: real, rate: real)
    requires elapsed >= 0.0 && rate > 0.0
    ensures Gain(elapsed, rate) >= 0.0
  {
  }

  lemma NoGain(rate: real)
    ensures Gain(0.0, rate) == 0.0
  {
  }

  lemma GainsAdd(x: real, y: real, rate: real)
    ensures Gain(x + y, rate) == Gain(x, rate) + Gain(y, rate)
  {
  }

  lemma RefillKeepsRange(s: State, capacity: real, rate: real, now: real)
    requires InRange(s, capacity) && rate > 0.0
    ensures InRange(Refilled(s, capacity, rate, now), capacity) && Refilled(s, capacity, rate, now).tokens >= s.tokens
    ensures Refilled(s, capacity, rate, now).tokens <= s.tokens + Gain(Max(0.0, now - s.lastRefill), rate)
  {
    hide Gain;
    GainIsNonNegative(Max(0.0, now - s.lastRefill), rate);
  }

  /** A refill, written out: the time since the last one, never negative, times the rate on
      top of the tokens, up to the capacity; the reading is the new origin. */
  lemma RefillAnswer(s: State, capacity: real, rate: real, now: real)
    ensures var full := s.tokens + (if now > s.lastRefill then (now - s.lastRefill) * rate else 0.0);
            Refilled(s, capacity, rate, now) == State(if full > capacity then capacity else full, now)
  {
    NoGain(rate);
  }

  // ---------------------------------------------------------------- the bucket in place

  /** The ingest's bucket. `clock` is what time_fn will say next; a sleep moves it. The
      ghost history holds every refill and every spending. */
  class TokenBucket {
    const rate: real
    const capacity: real
    var tokens: real
    var lastRefill: real
    var clock: real
    ghost const start: State
    ghost var turns: seq<Turn>

    ghost predicate Valid()
      reads this
    {
      && rate > 0.0 && InRange(start, capacity) && InRange(Contents(), capacity)
      && Allowed(start, capacity, rate, turns) && Contents() == StateAfter(start, capacity, rate, turns)
    }

    ghost function Contents(): State
      reads this
    {
      State(tokens, lastRefill)
    }

    constructor (ratePerMinute: real, capacity: real, now: real)
      requires ratePerMinute > 0.0
      ensures Valid() && rate == ratePerMinute / 60.0 && this.capacity == capacity
      ensures Contents() == start == State(capacity, now) && clock == now && turns == []
    {
      rate := ratePerMinute / 60.0;
      this.capacity := capacity;
      tokens := capacity;
      lastRefill := now;
      clock := now;
      start, turns := State(capacity, now), [];
    }

    method Refill()
      requires Valid()
      modifies this`tokens, this`lastRefill, this`turns
      ensures Valid() && Contents() == Refilled(old(Contents()), capacity, rate, clock)
      ensures tokens >= old(tokens) && turns == old(turns) + [Turn(clock, 0.0)]
      ensures Contents().tokens >= 0.0 || capacity < 0.0
    {
      RefillKeepsRange(Contents(), capacity, rate, clock);
      HistoryAppend(start, capacity, rate, turns, Turn(clock, 0.0));
      var elapsed := Max(0.0, clock - lastRefill);
      tokens := Min(capacity, tokens + Gain(elapsed, rate));
      lastRefill := clock;
      turns := turns + [Turn(clock, 0.0)];
    }

    method Spend(n: real)
      requires Valid() && 0.0 <= n <= tokens && lastRefill == clock
      modifies this`tokens, this`turns
      ensures Valid() && Contents() == Spent(old(Contents()), n)
      ensures turns == old(turns) + [Turn(clock, n)]
    {
      NoGain(rate);
      HistoryAppend(start, capacity, rate, turns, Turn(clock, n));
      tokens := tokens - n;
      turns := turns + [Turn(clock, n)];
    }

    /** Sleeping advances the clock by at least what was asked; `over` is the excess. */
    method Sleep(duration: real, over: real)
      requires Valid() && duration >= 0.0 && over >= 0.0
      modifies this`clock
      ensures clock == old(clock) + duration + over
      ensures Valid()
    {
      clock := clock + duration + over;
    }

    /** `None` is a ValueError: nothing positive was asked for, or more than fits. Else the
        loop ends after at most one sleep, having spent n tokens. */
    method Acquire(n: int, over: real) returns (sleeps: Option<nat>)
      requires Valid() && over >= 0.0
      modifies this
      ensures Valid()
      ensures sleeps.None? <==> n <= 0 || n as real > capacity
      ensures sleeps.None? ==> Contents() == old(Contents()) && clock == old(clock) && turns == old(turns)
      ensures sleeps.Some? ==>
                var due := Refilled(old(Contents()), capacity, rate, old(clock));
                && sleeps.value <= 1 && (sleeps.value == 0 <==> due.tokens >= n as real)
                && (sleeps.value == 0 ==> Contents() == Spent(due, n as real) && clock == old(clock))
                && (sleeps.value == 1 ==>
                      && clock == old(clock) + (n as real - due.tokens) / rate + over
                      && Contents() == Spent(Refilled(due, capacity, rate, clock), n as real))
      ensures sleeps.Some? ==> Granted(turns) == Granted(old(turns)) + n as real
    {
      if n <= 0 || n as real > capacity {
        return None;
      }
      var slept := 0;
      ghost var due := Refilled(Contents(), capacity, rate, clock);
      while true
        invariant Valid() && slept <= 1
        invariant slept == 0 ==> Contents() == old(Contents()) && clock == old(clock)
        invariant slept == 1 ==> Contents() == due && due.tokens < n as real
                                 && clock == old(clock) + (n as real - due.tokens) / rate + over
        invariant Granted(turns) == Granted(old(turns))
        decreases 1 - slept
      {
        hide Allowed, StateAfter, Granted, InRange, Refilled;
        GrantedAppend(turns, Turn(clock, 0.0));
        Refill();
        if slept == 1 {
          SleepIsEnough(due, capacity, rate, n as real, clock);
        }
        if tokens >= n as real {
          GrantedAppend(turns, Turn(clock, n as real));
          Spend(n as real);
          return Some(slept);
        }
        var shortfall := n as real - tokens;
        ShortfallIsPositive(shortfall, rate);
        Sleep(shortfall / rate, over);
        slept := slept + 1;
      }
    }
  }

  /** A new bucket, or `None` for a ValueError; the capacity defaults to a minute's rate. */
  method OpenBucket(ratePerMinute: real, capacity: Option<int>, now: real) returns (b: Option<TokenBucket>)
    ensures b.None? <==> ratePerMinute <= 0.0
    ensures b.Some? ==>
              && fresh(b.value) && b.value.Valid() && b.value.rate == ratePerMinute / 60.0
              && b.value.capacity == (if capacity.Some? then capacity.value as real else ratePerMinute)
              && b.value.Contents() == State(b.value.capacity, now)
  {
    if ratePerMinute <= 0.0 {
      return None;
    }
    var bucket := new TokenBucket(ratePerMinute, if capacity.Some? then capacity.value as real else ratePerMinute, now);
    b := Some(bucket);
  }

  /** Over the whole life of a bucket, whatever its clock did: the tokens granted from any
      refill to any later moment never exceed the capacity plus the rate times the clock's
      forward steps between them, which is the time between them if it never stepped back. */
  lemma EveryWindow(b: TokenBucket, i: nat, j: nat)
    requires b.Valid() && b.capacity >= 0.0 && i < j <= |b.turns|
    ensures Granted(b.turns[i..j]) <= b.capacity + b.rate * Forward(b.turns[i].now, b.turns[i + 1..j])
    ensures NeverBack(Readings(b.turns[i..j])) ==> Granted(b.turns[i..j]) <= b.capacity + b.rate * (b.turns[j - 1].now - b.turns[i].now)
  {
    hide InRange, Allowed, Granted, StateAfter, Forward, NeverBack;
    WindowOf(b.start, b.capacity, b.rate, b.turns, i, j);
  }

  lemma ShortfallIsPositive(shortfall: real, rate: real)
    requires shortfall > 0.0 && rate > 0.0
    ensures shortfall / rate > 0.0 && Gain(shortfall / rate, rate) == shortfall
  {
  }

  /** After sleeping the shortfall away, the tokens are there. */
  lemma SleepIsEnough(s: State, capacity: real, rate: real, n: real, now: real)
    requires rate > 0.0 && s.tokens < n <= capacity && now >= s.lastRefill + (n - s.tokens) / rate
    ensures Refilled(s, capacity, rate, now).tokens >= n
  {
    hide Gain;
    var wait := (n - s.tokens) / rate;
    ShortfallIsPositive(n - s.tokens, rate);
    GainsAdd(wait, now - s.lastRefill - wait, rate);
    GainIsNonNegative(now - s.lastRefill - wait, rate);
    assert wait + (now - s.lastRefill - wait) == now - s.lastRefill;
  }

  // ---------------------------------------------------------------- grants over a run

  /** One refill at a clock reading, and what was spent after it, if anything. */
  datatype Turn = Turn(now: real, spend: real)

  function After(s: State, capacity: real, rate: real, t: Turn): State {
    Spent(Refilled(s, capacity, rate, t.now), t.spend)
  }

  /** Every turn spends nothing, or no more than the tokens there are. */
  predicate Allowed(s: State, capacity: real, rate: real, turns: seq<Turn>)
    decreases |turns|
  {
    turns == [] ||
    ((turns[0].spend == 0.0 || 0.0 <= turns[0].spend <= Refilled(s, capacity, rate, turns[0].now).tokens)
     && Allowed(After(s, capacity, rate, turns[0]), capacity, rate, turns[1..]))
  }

  function Granted(turns: seq<Turn>): real {
    if turns == [] then 0.0 else turns[0].spend + Granted(turns[1..])
  }

  /** The clock's steps forward; a step back counts for nothing. */
  function Forward(start: real, turns: seq<Turn>): (f: real)
    ensures f >= 0.0
    decreases |turns|
  {
    if turns == [] then 0.0 else Max(0.0, turns[0].now - start) + Forward(turns[0].now, turns[1..])
  }

  function Readings(turns: seq<Turn>): (nows: seq<real>)
    ensures |nows| == |turns| && forall k | 0 <= k < |turns| :: nows[k] == turns[k].now
  {
    seq(|turns|, k requires 0 <= k < |turns| => turns[k].now)
  }

  predicate NeverBack(nows: seq<real>) {
    forall k | 0 <= k < |nows| - 1 :: nows[k] <= nows[k + 1]
  }

  /** With a clock that never steps back the forward steps are the elapsed time. */
  lemma {:induction false} ForwardIsElapsed(turns: seq<Turn>)
    requires turns != [] && NeverBack(Readings(turns))
    ensures Forward(turns[0].now, turns[1..]) == turns[|turns| - 1].now - turns[0].now
  {
    if |turns| > 1 {
      var rest := turns[1..];
      assert Readings(rest) == Readings(turns)[1..];
      ForwardIsElapsed(rest);
    }
  }

  /** From any moment on, whatever the clock does: what is granted is covered by the tokens
      then in the bucket and what the clock's forward steps add. */
  lemma {:induction false} GrantsAreCovered(s: State, capacity: real, rate: real, turns: seq<Turn>)
    requires rate > 0.0 && capacity >= 0.0 && InRange(s, capacity) && Allowed(s, capacity, rate, turns)
    ensures Granted(turns) <= s.tokens + Gain(Forward(s.lastRefill, turns), rate)
    decreases |turns|
  {
    hide Gain;
    if turns == [] {
      NoGain(rate);
    } else {
      var t := turns[0];
      RefillKeepsRange(s, capacity, rate, t.now);
      GrantsAreCovered(After(s, capacity, rate, t), capacity, rate, turns[1..]);
      GainsAdd(Max(0.0, t.now - s.lastRefill), Forward(t.now, turns[1..]), rate);
    }
  }

  function StateAfter(s: State, capacity: real, rate: real, turns: seq<Turn>): State
    decreases |turns|
  {
    if turns == [] then s else StateAfter(After(s, capacity, rate, turns[0]), capacity, rate, turns[1..])
  }

  lemma {:induction false} RangeIsKept(s: State, capacity: real, rate: real, turns: seq<Turn>)
    requires rate > 0.0 && InRange(s, capacity) && Allowed(s, capacity, rate, turns)
    ensures InRange(StateAfter(s, capacity, rate, turns), capacity)
    decreases |turns|
  {
    if turns != [] {
      RefillKeepsRange(s, capacity, rate, turns[0].now);
      RangeIsKept(After(s, capacity, rate, turns[0]), capacity, rate, turns[1..]);
    }
  }

  lemma {:induction false} RunsSplit(s: State, capacity: real, rate: real, before: seq<Turn>, turns: seq<Turn>)
    requires Allowed(s, capacity, rate, before + turns)
    ensures Allowed(s, capacity, rate, before) && Allowed(StateAfter(s, capacity, rate, before), capacity, rate, turns)
    decreases |before|
  {
    var all := before + turns;
    if before == [] {
      assert all == turns;
    } else {
      assert all[1..] == before[1..] + turns;
      RunsSplit(After(s, capacity, rate, before[0]), capacity, rate, before[1..], turns);
    }
  }

  lemma {:induction false} HistoryAppend(s: State, capacity: real, rate: real, turns: seq<Turn>, t: Turn)
    requires Allowed(s, capacity, rate, turns)
    requires t.spend == 0.0 || 0.0 <= t.spend <= Refilled(StateAfter(s, capacity, rate, turns), capacity, rate, t.now).tokens
    ensures Allowed(s, capacity, rate, turns + [t])
    ensures StateAfter(s, capacity, rate, turns + [t]) == After(StateAfter(s, capacity, rate, turns), capacity, rate, t)
    decreases |turns|
  {
    var all := turns + [t];
    if turns == [] {
      assert all == [t] && [t][1..] == [];
    } else {
      assert all[1..] == turns[1..] + [t];
      HistoryAppend(After(s, capacity, rate, turns[0]), capacity, rate, turns[1..], t);
    }
  }

  lemma {:induction false} GrantedAppend(turns: seq<Turn>, t: Turn)
    ensures Granted(turns + [t]) == Granted(turns) + t.spend
  {
    var all := turns + [t];
    if turns == [] {
      assert all == [t] && [t][1..] == [];
    } else {
      assert all[1..] == turns[1..] + [t];
      GrantedAppend(turns[1..], t);
    }
  }

  /** The first turn of a stretch leaves at most the capacity less what it spends. */
  lemma FirstTurn(s: State, capacity: real, rate: real, turns: seq<Turn>)
    requires rate > 0.0 && capacity >= 0.0 && InRange(s, capacity) && turns != [] && Allowed(s, capacity, rate, turns)
    ensures var next := After(s, capacity, rate, turns[0]);
            && InRange(next, capacity) && next.lastRefill == turns[0].now && next.tokens + turns[0].spend <= capacity
            && Allowed(next, capacity, rate, turns[1..])
  {
    RefillKeepsRange(s, capacity, rate, turns[0].now);
  }

  /** The window bound: in any stretch of any run, whatever the clock does, the tokens
      granted never exceed the capacity plus the rate times the clock's forward steps from
      the stretch's first refill on; so never the capacity plus the rate times its length
      when the clock does not step back within it. */
  lemma WindowBound(s: State, capacity: real, rate: real, before: seq<Turn>, window: seq<Turn>)
    requires rate > 0.0 && capacity >= 0.0 && InRange(s, capacity) && window != []
    requires Allowed(s, capacity, rate, before + window)
    ensures Granted(window) <= capacity + rate * Forward(window[0].now, window[1..])
    ensures NeverBack(Readings(window)) ==> Granted(window) <= capacity + rate * (window[|window| - 1].now - window[0].now)
  {
    hide Allowed, Refilled, After, StateAfter, InRange, Forward, NeverBack;
    RunsSplit(s, capacity, rate, before, window);
    RangeIsKept(s, capacity, rate, before);
    var mid := StateAfter(s, capacity, rate, before);
    FirstTurn(mid, capacity, rate, window);
    GrantsAreCovered(After(mid, capacity, rate, window[0]), capacity, rate, window[1..]);
    if NeverBack(Readings(window)) { ForwardIsElapsed(window); }
  }

  lemma WindowOf(s: State, capacity: real, rate: real, turns: seq<Turn>, i: nat, j: nat)
    requires rate > 0.0 && capacity >= 0.0 && InRange(s, capacity) && i < j <= |turns| && Allowed(s, capacity, rate, turns)
    ensures Granted(turns[i..j]) <= capacity + rate * Forward(turns[i].now, turns[i + 1..j])
    ensures NeverBack(Readings(turns[i..j])) ==> Granted(turns[i..j]) <= capacity + rate * (turns[j - 1].now - turns[i].now)
  {
    hide *;
    var before, window, after := turns[..i], turns[i..j], turns[j..];
    assert turns == (before + window) + after;
    assert window[1..] == turns[i + 1..j];
    RunsSplit(s, capacity, rate, before + window, after);
    WindowBound(s, capacity, rate, before, window);
  }

  // ---------------------------------------------------------------- when the bound holds

  predicate IsWhole(x: real) {
    x == x.Floor as real
  }

  predicate WholeSpends(turns: seq<Turn>) {
    forall t | t in turns :: IsWhole(t.spend)
  }

  /** A stretch of readings that does not end before it begins, and the bound's value there. */
  predicate IsWindow(nows: seq<real>, i: nat, j: nat) {
    i < j <= |nows| && nows[i] <= nows[j - 1]
  }

  function Limit(capacity: real, rate: real, nows: seq<real>, i: nat, j: nat): real
    requires i < j <= |nows|
  {
    capacity + rate * (nows[j - 1] - nows[i])
  }

  /** Every allowed spending at these readings, of whole tokens or of any amounts, keeps to
      the bound in every window. */
  ghost predicate Bounded(s: State, capacity: real, rate: real, whole: bool, nows: seq<real>) {
    forall turns: seq<Turn>, i: nat, j: nat
      | Readings(turns) == nows && IsWindow(nows, i, j) && Allowed(s, capacity, rate, turns) && (whole ==> WholeSpends(turns)) ::
      Granted(turns[i..j]) <= Limit(capacity, rate, nows, i, j)
  }

  /** All there is to take. */
  function Take(tokens: real, whole: bool): real {
    if whole then tokens.Floor as real else tokens
  }

  /** The eager spending: at each reading all there is. */
  function Eager(s: State, capacity: real, rate: real, whole: bool, nows: seq<real>): (turns: seq<Turn>)
    ensures |turns| == |nows| && forall k | 0 <= k < |nows| :: turns[k].now == nows[k]
    decreases |nows|
  {
    if nows == [] then []
    else
      var due := Refilled(s, capacity, rate, nows[0]);
      var n := Take(due.tokens, whole);
      [Turn(nows[0], n)] + Eager(Spent(due, n), capacity, rate, whole, nows[1..])
  }

  lemma TakeIsAllowed(s: State, capacity: real, whole: bool)
    requires capacity >= 0.0 && InRange(s, capacity)
    ensures var n := Take(s.tokens, whole); 0.0 <= n <= s.tokens && InRange(Spent(s, n), capacity) && (whole ==> IsWhole(n))
  {
  }

  lemma {:induction false} EagerIsAllowed(s: State, capacity: real, rate: real, whole: bool, nows: seq<real>)
    requires rate > 0.0 && capacity >= 0.0 && InRange(s, capacity)
    ensures var turns := Eager(s, capacity, rate, whole, nows);
            Allowed(s, capacity, rate, turns) && (whole ==> WholeSpends(turns))
    decreases |nows|
  {
    if nows != [] {
      hide Take, Refilled, IsWhole;
      RefillKeepsRange(s, capacity, rate, nows[0]);
      var due := Refilled(s, capacity, rate, nows[0]);
      TakeIsAllowed(due, capacity, whole);
      var n := Take(due.tokens, whole);
      EagerIsAllowed(Spent(due, n), capacity, rate, whole, nows[1..]);
      var turns := Eager(s, capacity, rate, whole, nows);
      assert turns[0] == Turn(nows[0], n) && turns[1..] == Eager(Spent(due, n), capacity, rate, whole, nows[1..]);
    }
  }

  lemma RefillKeepsLead(e: State, s: State, lead: real, capacity: real, rate: real, now: real)
    requires rate > 0.0 && lead >= 0.0 && InRange(s, capacity) && lead + e.tokens >= s.tokens && e.tokens <= capacity
    requires e.lastRefill == s.lastRefill || e.tokens == capacity
    ensures lead + Refilled(e, capacity, rate, now).tokens >= Refilled(s, capacity, rate, now).tokens
  {
    hide Gain;
    GainIsNonNegative(Max(0.0, now - e.lastRefill), rate);
  }

  lemma TakeKeepsLead(tokens: real, lead: real, spend: real, whole: bool)
    requires lead >= 0.0 && lead + tokens >= spend && (whole ==> IsWhole(lead) && IsWhole(spend))
    ensures lead + Take(tokens, whole) - spend >= 0.0
    ensures whole ==> IsWhole(lead + Take(tokens, whole) - spend)
  {
    if whole {
      var a, b, c := lead.Floor, tokens.Floor, spend.Floor;
      assert a + b + 1 > c;
      assert lead + Take(tokens, whole) - spend == (a + b - c) as real;
    }
  }

  /** Nothing grants more than being eager: a spending that is behind the eager one, and
      has no more tokens left than it is behind and the eager one has, stays behind. */
  lemma {:induction false} EagerLeads(e: State, s: State, lead: real, capacity: real, rate: real, whole: bool, turns: seq<Turn>)
    requires rate > 0.0 && capacity >= 0.0 && InRange(e, capacity) && InRange(s, capacity)
    requires lead >= 0.0 && lead + e.tokens >= s.tokens && (whole ==> IsWhole(lead))
    requires e.lastRefill == s.lastRefill || e.tokens == capacity
    requires Allowed(s, capacity, rate, turns) && (whole ==> WholeSpends(turns))
    ensures Granted(turns) <= lead + Granted(Eager(e, capacity, rate, whole, Readings(turns)))
    decreases |turns|
  {
    if turns != [] {
      hide Take, Refilled, IsWhole, Gain;
      var t, rest, nows := turns[0], turns[1..], Readings(turns);
      RefillKeepsRange(e, capacity, rate, t.now);
      RefillKeepsRange(s, capacity, rate, t.now);
      RefillKeepsLead(e, s, lead, capacity, rate, t.now);
      var due := Refilled(e, capacity, rate, t.now);
      TakeIsAllowed(due, capacity, whole);
      TakeKeepsLead(due.tokens, lead, t.spend, whole);
      var n := Take(due.tokens, whole);
      RefillReads(e, capacity, rate, t.now);
      RefillReads(s, capacity, rate, t.now);
      EagerLeads(Spent(due, n), After(s, capacity, rate, t), lead + n - t.spend, capacity, rate, whole, rest);
      assert Readings(rest) == nows[1..];
      var all := Eager(e, capacity, rate, whole, nows);
      assert all[0].spend == n && all[1..] == Eager(Spent(due, n), capacity, rate, whole, nows[1..]);
    }
  }

  lemma RefillReads(s: State, capacity: real, rate: real, now: real)
    ensures Refilled(s, capacity, rate, now).lastRefill == now
  {
  }

  /** A full bucket is full after any refill. */
  lemma FullStaysFull(s: State, capacity: real, rate: real, now: real)
    requires rate > 0.0 && s.tokens == capacity
    ensures Refilled(s, capacity, rate, now) == State(capacity, now)
  {
    hide Gain;
    GainIsNonNegative(Max(0.0, now - s.lastRefill), rate);
  }

  lemma {:induction false} EagerPrefix(s: State, capacity: real, rate: real, whole: bool, nows: seq<real>, n: nat)
    requires n <= |nows|
    ensures Eager(s, capacity, rate, whole, nows)[..n] == Eager(s, capacity, rate, whole, nows[..n])
    decreases n
  {
    if n > 0 {
      hide Refilled, Take;
      var due := Refilled(s, capacity, rate, nows[0]);
      assert nows[..n][1..] == nows[1..][..n - 1];
      EagerPrefix(Spent(due, Take(due.tokens, whole)), capacity, rate, whole, nows[1..], n - 1);
    }
  }

  /** Idle up to reading i, eager from there on. */
  function Burst(capacity: real, rate: real, whole: bool, nows: seq<real>, i: nat): (turns: seq<Turn>)
    requires i < |nows|
    ensures |turns| == |nows| && forall k | 0 <= k < |nows| :: turns[k].now == nows[k]
    decreases i
  {
    if i == 0 then Eager(State(capacity, nows[0]), capacity, rate, whole, nows)
    else [Turn(nows[0], 0.0)] + Burst(capacity, rate, whole, nows[1..], i - 1)
  }

  lemma EagerFromFull(s: State, capacity: real, rate: real, whole: bool, nows: seq<real>)
    requires rate > 0.0 && capacity >= 0.0 && s.tokens == capacity && nows != []
    ensures var turns := Eager(State(capacity, nows[0]), capacity, rate, whole, nows);
            Allowed(s, capacity, rate, turns) && (whole ==> WholeSpends(turns))
  {
    var full := State(capacity, nows[0]);
    FullStaysFull(s, capacity, rate, nows[0]);
    FullStaysFull(full, capacity, rate, nows[0]);
    EagerIsAllowed(s, capacity, rate, whole, nows);
    hide Refilled, Allowed, Take, WholeSpends;
    assert Eager(s, capacity, rate, whole, nows) == Eager(full, capacity, rate, whole, nows);
  }

  lemma {:induction false} BurstIsAllowed(s: State, capacity: real, rate: real, whole: bool, nows: seq<real>, i: nat)
    requires rate > 0.0 && capacity >= 0.0 && s.tokens == capacity && i < |nows|
    ensures var turns := Burst(capacity, rate, whole, nows, i);
            && Allowed(s, capacity, rate, turns) && (whole ==> WholeSpends(turns))
            && turns[i..] == Eager(State(capacity, nows[i]), capacity, rate, whole, nows[i..])
    decreases i
  {
    FullStaysFull(s, capacity, rate, nows[0]);
    if i == 0 {
      EagerFromFull(s, capacity, rate, whole, nows);
      hide Eager, Allowed;
      assert nows[0..] == nows;
    } else {
      hide *;
      var rest := Burst(capacity, rate, whole, nows[1..], i - 1);
      BurstIsAllowed(State(capacity, nows[0]), capacity, rate, whole, nows[1..], i - 1);
      IdleTurn(s, capacity, rate, nows[0], rest);
      var turns := [Turn(nows[0], 0.0)] + rest;
      assert turns == Burst(capacity, rate, whole, nows, i) by { BurstStep(capacity, rate, whole, nows, i); }
      assert turns[i..] == rest[i - 1..] && nows[1..][i - 1..] == nows[i..] && nows[1..][i - 1] == nows[i];
    }
  }

  lemma BurstStep(capacity: real, rate: real, whole: bool, nows: seq<real>, i: nat)
    requires 0 < i < |nows|
    ensures Burst(capacity, rate, whole, nows, i) == [Turn(nows[0], 0.0)] + Burst(capacity, rate, whole, nows[1..], i - 1)
  {
  }

  /** A full bucket may be left alone. */
  lemma IdleTurn(s: State, capacity: real, rate: real, now: real, rest: seq<Turn>)
    requires rate > 0.0 && s.tokens == capacity && Allowed(State(capacity, now), capacity, rate, rest)
    ensures Allowed(s, capacity, rate, [Turn(now, 0.0)] + rest)
    ensures WholeSpends(rest) ==> WholeSpends([Turn(now, 0.0)] + rest)
  {
    FullStaysFull(s, capacity, rate, now);
    var turns := [Turn(now, 0.0)] + rest;
    hide Refilled;
    assert turns[1..] == rest && After(s, capacity, rate, turns[0]) == State(capacity, now);
  }

  /** The most that a window can grant: the eager spending's from a full bucket. */
  function Most(capacity: real, rate: real, whole: bool, nows: seq<real>): real
    requires nows != []
  {
    Granted(Eager(State(capacity, nows[0]), capacity, rate, whole, nows))
  }

  /** No spending grants more in a window, and one grants as much. */
  lemma MostIsMost(s: State, capacity: real, rate: real, whole: bool, nows: seq<real>, i: nat, j: nat)
    requires rate > 0.0 && capacity >= 0.0 && s.tokens == capacity && i < j <= |nows|
    ensures forall turns | Readings(turns) == nows && Allowed(s, capacity, rate, turns) && (whole ==> WholeSpends(turns)) ::
              Granted(turns[i..j]) <= Most(capacity, rate, whole, nows[i..j])
    ensures exists turns :: Readings(turns) == nows && Allowed(s, capacity, rate, turns) && (whole ==> WholeSpends(turns))
                            && Granted(turns[i..j]) == Most(capacity, rate, whole, nows[i..j])
  {
    hide *;
    FullIsInRange(s, capacity);
    forall turns | Readings(turns) == nows && Allowed(s, capacity, rate, turns) && (whole ==> WholeSpends(turns))
      ensures Granted(turns[i..j]) <= Most(capacity, rate, whole, nows[i..j])
    {
      WindowIsLed(s, capacity, rate, whole, turns, i, j);
    }
    var turns := BurstGrantsMost(s, capacity, rate, whole, nows, i, j);
  }

  lemma BurstGrantsMost(s: State, capacity: real, rate: real, whole: bool, nows: seq<real>, i: nat, j: nat) returns (turns: seq<Turn>)
    requires rate > 0.0 && capacity >= 0.0 && s.tokens == capacity && i < j <= |nows|
    ensures Readings(turns) == nows && Allowed(s, capacity, rate, turns) && (whole ==> WholeSpends(turns))
    ensures Granted(turns[i..j]) == Most(capacity, rate, whole, nows[i..j])
  {
    hide Allowed, Granted, Eager, WholeSpends, Burst;
    turns := Burst(capacity, rate, whole, nows, i);
    BurstIsAllowed(s, capacity, rate, whole, nows, i);
    EagerPrefix(State(capacity, nows[i]), capacity, rate, whole, nows[i..], j - i);
    assert Readings(turns) == nows;
    assert turns[i..j] == turns[i..][..j - i] && nows[i..j] == nows[i..][..j - i];
  }

  lemma FullIsInRange(s: State, capacity: real)
    requires s.tokens == capacity
    ensures InRange(s, capacity)
  {
  }

  lemma NothingIsWhole()
    ensures IsWhole(0.0)
  {
  }

  lemma WindowIsLed(s: State, capacity: real, rate: real, whole: bool, turns: seq<Turn>, i: nat, j: nat)
    requires rate > 0.0 && capacity >= 0.0 && InRange(s, capacity) && i < j <= |turns|
    requires Allowed(s, capacity, rate, turns) && (whole ==> WholeSpends(turns))
    ensures Granted(turns[i..j]) <= Most(capacity, rate, whole, Readings(turns)[i..j])
  {
    hide Allowed, Granted, Eager, InRange, IsWhole, StateAfter, Refilled;
    var before, window, after := turns[..i], turns[i..j], turns[j..];
    var full := State(capacity, turns[i].now);
    FullIsInRange(full, capacity);
    NothingIsWhole();
    assert turns == (before + window) + after;
    RunsSplit(s, capacity, rate, before + window, after);
    RunsSplit(s, capacity, rate, before, window);
    RangeIsKept(s, capacity, rate, before);
    var mid := StateAfter(s, capacity, rate, before);
    assert mid.tokens <= capacity by { InRangeIsCapped(mid, capacity); }
    EagerLeads(full, mid, 0.0, capacity, rate, whole, window);
    assert Readings(window) == Readings(turns)[i..j];
  }

  lemma InRangeIsCapped(s: State, capacity: real)
    requires InRange(s, capacity)
    ensures s.tokens <= capacity
  {
  }

  /** Exactly when: from the full bucket, every window of every allowed spending keeps to
      the bound if and only if the eager spending does in each window. */
  lemma BoundedExactly(s: State, capacity: real, rate: real, whole: bool, nows: seq<real>)
    requires rate > 0.0 && capacity >= 0.0 && s.tokens == capacity
    ensures Bounded(s, capacity, rate, whole, nows)
            <==> forall i: nat, j: nat | IsWindow(nows, i, j) ::
                   Most(capacity, rate, whole, nows[i..j]) <= Limit(capacity, rate, nows, i, j)
  {
    hide Allowed, Granted, Most, WholeSpends, Limit;
    forall i: nat, j: nat | IsWindow(nows, i, j)
      ensures Bounded(s, capacity, rate, whole, nows) ==> Most(capacity, rate, whole, nows[i..j]) <= Limit(capacity, rate, nows, i, j)
      ensures forall turns | Readings(turns) == nows && Allowed(s, capacity, rate, turns) && (whole ==> WholeSpends(turns)) ::
                Granted(turns[i..j]) <= Most(capacity, rate, whole, nows[i..j])
    {
      MostIsMost(s, capacity, rate, whole, nows, i, j);
    }
  }

  /** What refills of an emptied bucket give: each at most the capacity. */
  function Flow(capacity: real, rate: real, start: real, nows: seq<real>): real
    decreases |nows|
  {
    if nows == [] then 0.0
    else Min(capacity, Gain(Max(0.0, nows[0] - start), rate)) + Flow(capacity, rate, nows[0], nows[1..])
  }

  lemma {:induction false} EmptiedFlows(start: real, capacity: real, rate: real, nows: seq<real>)
    ensures Granted(Eager(State(0.0, start), capacity, rate, false, nows)) == Flow(capacity, rate, start, nows)
    decreases |nows|
  {
    if nows != [] {
      hide Gain;
      EmptiedFlows(nows[0], capacity, rate, nows[1..]);
      var due := Refilled(State(0.0, start), capacity, rate, nows[0]);
      assert Spent(due, due.tokens) == State(0.0, nows[0]);
      var all := Eager(State(0.0, start), capacity, rate, false, nows);
      assert all[1..] == Eager(State(0.0, nows[0]), capacity, rate, false, nows[1..]);
    }
  }

  lemma MostFlows(capacity: real, rate: real, nows: seq<real>)
    requires rate > 0.0 && nows != []
    ensures Most(capacity, rate, false, nows) == capacity + Flow(capacity, rate, nows[0], nows[1..])
  {
    hide Flow;
    var full := State(capacity, nows[0]);
    FullStaysFull(full, capacity, rate, nows[0]);
    EmptiedFlows(nows[0], capacity, rate, nows[1..]);
    var all := Eager(full, capacity, rate, false, nows);
    assert Spent(full, capacity) == State(0.0, nows[0]);
    assert all[0].spend == capacity && all[1..] == Eager(State(0.0, nows[0]), capacity, rate, false, nows[1..]);
  }

  /** For amounts of any kind the condition is one on the readings alone: in no window do
      the later refills of an emptied bucket give more than the window's time. */
  lemma AmountsBoundedExactly(s: State, capacity: real, rate: real, nows: seq<real>)
    requires rate > 0.0 && capacity >= 0.0 && s.tokens == capacity
    ensures Bounded(s, capacity, rate, false, nows)
            <==> forall i: nat, j: nat | IsWindow(nows, i, j) ::
                   Flow(capacity, rate, nows[i], nows[i + 1..j]) <= rate * (nows[j - 1] - nows[i])
  {
    BoundedExactly(s, capacity, rate, false, nows);
    hide Bounded, Flow, Most;
    forall i: nat, j: nat | IsWindow(nows, i, j)
      ensures Most(capacity, rate, false, nows[i..j]) == capacity + Flow(capacity, rate, nows[i], nows[i + 1..j])
    {
      var window := nows[i..j];
      assert window[1..] == nows[i + 1..j];
      MostFlows(capacity, rate, window);
    }
  }

  /** In particular the bound holds whenever the readings never step back. */
  lemma ForwardIsBounded(s: State, capacity: real, rate: real, whole: bool, nows: seq<real>)
    requires rate > 0.0 && capacity >= 0.0 && s.tokens == capacity && NeverBack(nows)
    ensures Bounded(s, capacity, rate, whole, nows)
  {
    hide Allowed, Forward, Granted, WholeSpends;
    forall turns: seq<Turn>, i: nat, j: nat | Readings(turns) == nows && IsWindow(nows, i, j) && Allowed(s, capacity, rate, turns)
      ensures Granted(turns[i..j]) <= Limit(capacity, rate, nows, i, j)
    {
      assert Readings(turns[i..j]) == nows[i..j];
      WindowOf(s, capacity, rate, turns, i, j);
    }
  }

  /** A step back alone breaks nothing: no window of these readings has a later refill. */
  lemma StepBackCanBeHarmless(s: State, whole: bool)
    requires s.tokens == 1.0
    ensures !NeverBack([1.0, 0.0]) && Bounded(s, 1.0, 1.0, whole, [1.0, 0.0])
  {
    hide Allowed, Granted, WholeSpends;
    var nows := [1.0, 0.0];
    assert nows[0] > nows[1];
    forall turns, i: nat, j: nat
      | Readings(turns) == nows && IsWindow(nows, i, j) && Allowed(s, 1.0, 1.0, turns)
      ensures Granted(turns[i..j]) <= Limit(1.0, 1.0, nows, i, j)
    {
      assert j == i + 1 && Readings(turns[i..j]) == nows[i..j];
      WindowOf(s, 1.0, 1.0, turns, i, j);
    }
  }

  /** How a step back is paid for: the refill takes the earlier reading as its new origin,
      and the same second is granted twice. */
  lemma BackwardClockBreaksTheBound()
    ensures var window := [Turn(1.0, 1.0), Turn(0.0, 0.0), Turn(1.0, 1.0)];
            Allowed(State(1.0, 1.0), 1.0, 1.0, window) && Granted(window) == 2.0
            && window[2].now - window[0].now == 0.0
  {
    var window := [Turn(1.0, 1.0), Turn(0.0, 0.0), Turn(1.0, 1.0)];
    var second := [Turn(0.0, 0.0), Turn(1.0, 1.0)];
    var third := [Turn(1.0, 1.0)];
    assert window[1..] == second && second[1..] == third && third[1..] == [];
    assert Granted(third) == 1.0 && Granted(second) == 1.0;
    assert Allowed(State(0.0, 0.0), 1.0, 1.0, third) by { assert After(State(0.0, 0.0), 1.0, 1.0, third[0]) == State(0.0, 1.0); }
    assert After(State(0.0, 1.0), 1.0, 1.0, second[0]) == State(0.0, 0.0);
    assert After(State(1.0, 1.0), 1.0, 1.0, window[0]) == State(0.0, 1.0);
  }
}
