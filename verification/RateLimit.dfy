/** The token bucket over real time, with a clock that may go backwards, and the backoff. */
module RateLimit {
  import opened Options

  /** Rate and capacity of a bucket. */
  datatype Config = Config(rate: real, capacity: real)
  {
    predicate Valid() {
      rate > 0.0 && capacity > 0.0
    }
  }

  datatype Level = Level(tokens: real, last: real)

  predicate Within(c: Config, s: Level) {
    0.0 <= s.tokens <= c.capacity
  }

  function Min(a: real, b: real): real {
    if a <= b then a else b
  }

  function Max(a: real, b: real): real {
    if a >= b then a else b
  }

  /** Tokens for the time since the last refill, none when the clock did not advance. */
  function Refilled(c: Config, s: Level, now: real): Level {
    if now > s.last then Level(Min(c.capacity, s.tokens + (now - s.last) * c.rate), now) else s
  }

  function Granted(c: Config, s: Level, now: real, amount: real): bool {
    Refilled(c, s, now).tokens >= amount
  }

  function Consumed(c: Config, s: Level, now: real, amount: real): Level {
    var r := Refilled(c, s, now);
    if r.tokens >= amount then r.(tokens := r.tokens - amount) else r
  }

  /** Seconds until the amount is there. */
  function Wait(c: Config, s: Level, now: real, amount: real): real
    requires c.rate > 0.0
  {
    var r := Refilled(c, s, now);
    if r.tokens >= amount then 0.0 else (amount - r.tokens) / c.rate
  }

  // ------------------------------------------------------- the imperative form

  class TokenBucket {
    const config: Config
    var tokens: real
    var last: real

    constructor (config: Config, start: real)
      requires config.Valid()
      ensures this.config == config && State() == Level(config.capacity, start)
    {
      this.config := config;
      tokens := config.capacity;
      last := start;
    }

    function State(): Level
      reads this
    {
      Level(tokens, last)
    }

    predicate Valid()
      reads this
    {
      config.Valid() && Within(config, State())
    }

    method Refill(now: real)
      modifies this
      ensures State() == Refilled(config, old(State()), now)
    {
      var elapsed := now - last;
      if elapsed > 0.0 {
        var filled := tokens + elapsed * config.rate;
        tokens := if config.capacity <= filled then config.capacity else filled;
        last := now;
      }
    }

    /** None when the amount is refused as not positive. */
    method TryConsume(now: real, amount: real) returns (granted: Option<bool>)
      requires Valid()
      modifies this
      ensures Valid()
      ensures amount <= 0.0 ==> granted.None? && State() == old(State())
      ensures amount > 0.0 ==>
        && granted == Some(Granted(config, old(State()), now, amount))
        && State() == Consumed(config, old(State()), now, amount)
    {
      if amount <= 0.0 { return None; }
      RefillWithin(config, State(), now);
      Refill(now);
      if tokens >= amount {
        tokens := tokens - amount;
        return Some(true);
      }
      granted := Some(false);
    }

    method WaitTime(now: real, amount: real) returns (wait: real)
      requires Valid()
      modifies this
      ensures Valid() && State() == Refilled(config, old(State()), now)
      ensures wait == Wait(config, old(State()), now, amount)
    {
      RefillWithin(config, State(), now);
      Refill(now);
      if tokens >= amount { return 0.0; }
      wait := (amount - tokens) / config.rate;
    }

    /** The blocking form: each turn reads the clock to refill and, when the amount is not
        there, once more against the deadline. None while the readings run out undecided. */
    method ConsumeBlocking(clock: seq<Reading>, amount: real, deadline: Option<real>)
      returns (granted: Option<bool>, turns: nat)
      requires Valid()
      modifies this
      ensures turns <= |clock|
      ensures forall k | 0 <= k < turns && (granted.None? || k + 1 < turns) ::
        WaitsOn(config, old(State()), clock, k, amount, deadline)
      ensures granted == Some(true) ==>
        && 0 < turns
        && Granted(config, LevelAfter(config, old(State()), clock[..turns - 1]), clock[turns - 1].refill, amount)
        && State() == Consumed(config, LevelAfter(config, old(State()), clock[..turns - 1]),
                               clock[turns - 1].refill, amount)
      ensures granted != Some(true) ==>
        && Valid() && State() == LevelAfter(config, old(State()), clock[..turns])
        && (granted == Some(false) ==>
              && deadline.Some? && 0 < turns && tokens < amount
              && clock[turns - 1].check + Pause(config, State(), amount) > deadline.value)
        && (granted.None? ==> turns == |clock|)
    {
      turns := 0;
      while turns < |clock|
        invariant 0 <= turns <= |clock| && Valid()
        invariant State() == LevelAfter(config, old(State()), clock[..turns])
        invariant forall k | 0 <= k < turns :: WaitsOn(config, old(State()), clock, k, amount, deadline)
      {
        assert clock[..turns + 1][..turns] == clock[..turns];
        RefillWithin(config, State(), clock[turns].refill);
        Refill(clock[turns].refill);
        turns := turns + 1;
        if tokens >= amount {
          tokens := tokens - amount;
          return Some(true), turns;
        }
        var wait := Min((amount - tokens) / config.rate, 0.1);
        if deadline.Some? && clock[turns - 1].check + wait > deadline.value {
          return Some(false), turns;
        }
      }
      granted := None;
    }
  }

  /** How long a turn of the blocking form waits: for the missing tokens, a tenth of a second at
      most. */
  function Pause(c: Config, s: Level, amount: real): real
    requires c.rate > 0.0
  {
    Min((amount - s.tokens) / c.rate, 0.1)
  }

  /** The two clock readings of one turn of the blocking form. */
  datatype Reading = Reading(refill: real, check: real)

  /** In turn k the level does not suffice and the deadline, if any, is not passed by the wait. */
  predicate WaitsOn(c: Config, s: Level, clock: seq<Reading>, k: nat, amount: real, deadline: Option<real>)
    requires k < |clock| && c.rate > 0.0
  {
    var level := LevelAfter(c, s, clock[..k + 1]);
    && level.tokens < amount
    && (deadline.Some? ==> clock[k].check + Pause(c, level, amount) <= deadline.value)
  }

  function LevelAfter(c: Config, s: Level, clock: seq<Reading>): Level {
    if |clock| == 0 then s
    else Refilled(c, LevelAfter(c, s, clock[..|clock| - 1]), clock[|clock| - 1].refill)
  }

  // ---------------------------------------------------------------- theorems

  /** The tokens that accrue while the clock advances. */
  function Accrual(c: Config, from: real, to: real): real {
    c.rate * (to - from)
  }

  lemma AccrualAdds(c: Config, from: real, mid: real, to: real)
    ensures Accrual(c, from, mid) + Accrual(c, mid, to) == Accrual(c, from, to)
  {
  }

  lemma RefillWithin(c: Config, s: Level, now: real)
    requires c.Valid() && Within(c, s)
    ensures Within(c, Refilled(c, s, now))
    ensures Refilled(c, s, now).last == Max(s.last, now)
    ensures s.tokens <= Refilled(c, s, now).tokens <= s.tokens + Accrual(c, s.last, Max(s.last, now))
  {
    if now > s.last { assert (now - s.last) * c.rate > 0.0; }
  }

  /** A call with a clock reading: a request for an amount, or a look at the level (amount 0). */
  datatype Call = Call(now: real, amount: real)

  function Step(c: Config, s: Level, call: Call): Level {
    if call.amount > 0.0 then Consumed(c, s, call.now, call.amount) else Refilled(c, s, call.now)
  }

  function After(c: Config, s: Level, calls: seq<Call>): Level {
    if |calls| == 0 then s
    else Step(c, After(c, s, calls[..|calls| - 1]), calls[|calls| - 1])
  }

  /** The tokens granted by a series of calls. */
  function Total(c: Config, s: Level, calls: seq<Call>): real {
    if |calls| == 0 then 0.0
    else
      var before, call := After(c, s, calls[..|calls| - 1]), calls[|calls| - 1];
      Total(c, s, calls[..|calls| - 1])
      + (if call.amount > 0.0 && Granted(c, before, call.now, call.amount) then call.amount else 0.0)
  }

  /** The greatest clock reading so far. */
  function RunningMax(start: real, calls: seq<Call>): real {
    if |calls| == 0 then start
    else Max(RunningMax(start, calls[..|calls| - 1]), calls[|calls| - 1].now)
  }

  /** Tokens are conserved: what was granted plus what is left is at most what there was plus
      the refill for the advance of the running maximum of the clock. */
  lemma {:induction false} TokensConserved(c: Config, s: Level, calls: seq<Call>)
    requires c.Valid() && Within(c, s)
    ensures Within(c, After(c, s, calls))
    ensures After(c, s, calls).last == RunningMax(s.last, calls)
    ensures Total(c, s, calls) + After(c, s, calls).tokens
            <= s.tokens + Accrual(c, s.last, RunningMax(s.last, calls))
  {
    hide Accrual, Refilled, Within;
    if |calls| > 0 {
      var init, call := calls[..|calls| - 1], calls[|calls| - 1];
      TokensConserved(c, s, init);
      var before := After(c, s, init);
      StepConserved(c, before, call);
      AccrualAdds(c, s.last, RunningMax(s.last, init), RunningMax(s.last, calls));
    } else {
      NoAccrual(c, s.last);
    }
  }

  lemma NoAccrual(c: Config, at: real)
    ensures Accrual(c, at, at) == 0.0
  {
  }

  lemma StepConserved(c: Config, s: Level, call: Call)
    requires c.Valid() && Within(c, s)
    ensures
      var s' := Step(c, s, call);
      var granted := if call.amount > 0.0 && Granted(c, s, call.now, call.amount) then call.amount else 0.0;
      && Within(c, s') && s'.last == Max(s.last, call.now)
      && granted + s'.tokens <= s.tokens + Accrual(c, s.last, s'.last)
  {
    hide Accrual;
    RefillWithin(c, s, call.now);
  }

  lemma {:induction false} AfterSplits(c: Config, s: Level, a: seq<Call>, b: seq<Call>)
    ensures After(c, s, a + b) == After(c, After(c, s, a), b)
    ensures Total(c, s, a + b) == Total(c, s, a) + Total(c, After(c, s, a), b)
  {
    if |b| == 0 {
      assert a + b == a;
    } else {
      AfterSplits(c, s, a, b[..|b| - 1]);
      assert (a + b)[..|a + b| - 1] == a + b[..|b| - 1];
    }
  }

  /** The sliding window: between any two calls of any history, whatever the clock did, at most
      the capacity plus the rate times the advance of the running maximum was granted. */
  lemma WindowBound(c: Config, s: Level, before: seq<Call>, window: seq<Call>)
    requires c.Valid() && Within(c, s)
    ensures
      Total(c, s, before + window) - Total(c, s, before)
      <= c.capacity + Accrual(c, RunningMax(s.last, before), RunningMax(s.last, before + window))
    ensures Within(c, After(c, s, before + window))
  {
    hide Accrual, After, Total, RunningMax;
    AfterSplits(c, s, before, window);
    TokensConserved(c, s, before);
    TokensConserved(c, s, before + window);
    TokensConserved(c, After(c, s, before), window);
  }

  /** Waiting the announced time is enough exactly when nothing had to be awaited, or the amount
      fits the bucket and the clock had not gone backwards when the wait was computed. */
  lemma WaitSufficesIff(c: Config, s: Level, now: real, amount: real)
    requires c.Valid() && Within(c, s) && amount > 0.0
    ensures
      var wait := Wait(c, s, now, amount);
      && wait >= 0.0
      && (Granted(c, Refilled(c, s, now), now + wait, amount) <==>
            wait == 0.0 || (amount <= c.capacity && now >= s.last))
  {
    RefillWithin(c, s, now);
    var r := Refilled(c, s, now);
    var wait := Wait(c, s, now, amount);
    if r.tokens < amount {
      assert wait * c.rate == amount - r.tokens;
      assert wait > 0.0;
      if now >= s.last {
        assert r.last == now;
        assert (now + wait - r.last) * c.rate == amount - r.tokens;
      } else {
        assert r == s;
        assert (now + wait - s.last) < wait;
        assert (now + wait - s.last) * c.rate < wait * c.rate;
      }
    }
  }

  /** More than the capacity is never granted, however long one waits. */
  lemma {:induction false} OverCapacityNeverGranted(
      c: Config, s: Level, calls: seq<Call>, now: real, amount: real)
    requires c.Valid() && Within(c, s) && amount > c.capacity
    ensures !Granted(c, After(c, s, calls), now, amount)
  {
    TokensConserved(c, s, calls);
    RefillWithin(c, After(c, s, calls), now);
  }

  /** The blocking form does not refuse amounts that are not positive: such a request is always
      granted, and lifts the level above the capacity exactly when it hands back more than is
      missing. */
  lemma NegativeAmountsOverfill(c: Config, s: Level, now: real, amount: real)
    requires c.Valid() && Within(c, s) && amount <= 0.0
    ensures Granted(c, s, now, amount)
    ensures Within(c, Consumed(c, s, now, amount)) <==>
      -amount <= c.capacity - Refilled(c, s, now).tokens
  {
    RefillWithin(c, s, now);
  }

  // ------------------------------------------------------------------ backoff

  /** The base delay, doubled n times. */
  function Doubled(baseDelay: real, n: nat): real {
    if n == 0 then baseDelay else 2.0 * Doubled(baseDelay, n - 1)
  }

  function Jittered(delay: real, jitter: real): real {
    delay * (1.0 + jitter * 0.1)
  }

  /** Exponential backoff with a cap; `jitter` is the drawn fraction of the ten percent. */
  function Backoff(attempt: nat, baseDelay: real, maxDelay: real, jitter: real): real {
    Jittered(Min(Doubled(baseDelay, attempt), maxDelay), jitter)
  }

  /** Whatever was drawn, a delay lies between its unjittered value and a tenth above the cap,
      and the unjittered delays never decrease. */
  lemma BackoffGrowsToItsCap(attempt: nat, baseDelay: real, maxDelay: real, jitter: real)
    requires baseDelay >= 0.0 && maxDelay >= 0.0 && 0.0 <= jitter <= 1.0
    ensures Backoff(attempt, baseDelay, maxDelay, 0.0) <= Backoff(attempt + 1, baseDelay, maxDelay, 0.0)
    ensures Backoff(attempt, baseDelay, maxDelay, 0.0) <= Backoff(attempt, baseDelay, maxDelay, jitter)
    ensures Backoff(attempt, baseDelay, maxDelay, jitter) <= maxDelay * 1.1
  {
    hide Jittered;
    DoubledGrows(baseDelay, attempt);
    var d := Min(Doubled(baseDelay, attempt), maxDelay);
    JitterBounds(d, jitter);
    JitterBounds(d, 0.0);
    JitterBounds(Min(Doubled(baseDelay, attempt + 1), maxDelay), 0.0);
  }

  lemma {:induction false} DoubledGrows(baseDelay: real, n: nat)
    requires baseDelay >= 0.0
    ensures 0.0 <= Doubled(baseDelay, n) <= Doubled(baseDelay, n + 1)
  {
    if n > 0 { DoubledGrows(baseDelay, n - 1); }
  }

  lemma JitterBounds(d: real, jitter: real)
    requires d >= 0.0 && 0.0 <= jitter <= 1.0
    ensures d <= Jittered(d, jitter) <= d * 1.1
    ensures jitter == 0.0 ==> Jittered(d, jitter) == d
  {
    assert d * jitter <= d * 1.0;
    assert d * (1.0 + jitter * 0.1) == d + (d * jitter) * 0.1;
  }

  /** The delays are exactly these: the first one is the base delay, every further one twice the one
      before, both cut at the cap, and jitter adds its fraction of a tenth. */
  lemma BackoffDoubles(attempt: nat, baseDelay: real, maxDelay: real, jitter: real)
    requires baseDelay >= 0.0 && maxDelay >= 0.0
    ensures Backoff(0, baseDelay, maxDelay, 0.0) == (if baseDelay <= maxDelay then baseDelay else maxDelay)
    ensures
      var d := Backoff(attempt, baseDelay, maxDelay, 0.0);
      && Backoff(attempt + 1, baseDelay, maxDelay, 0.0) == (if 2.0 * d <= maxDelay then 2.0 * d else maxDelay)
      && Backoff(attempt, baseDelay, maxDelay, jitter) == d + d * jitter / 10.0
  {
    var d := Min(Doubled(baseDelay, attempt), maxDelay);
    DoubledGrows(baseDelay, attempt);
    assert d * (1.0 + jitter * 0.1) == d + d * jitter / 10.0;
    assert Jittered(d, 0.0) == d;
  }

  /** A turn of the blocking form never waits longer than a tenth of a second nor longer than the
      missing tokens take, and it waits one of the two. */
  lemma PauseExactly(c: Config, s: Level, amount: real)
    requires c.Valid() && s.tokens < amount
    ensures
      var p := Pause(c, s, amount);
      && 0.0 < p <= 1.0 / 10.0 && s.tokens + p * c.rate <= amount
      && (p == 1.0 / 10.0 || s.tokens + p * c.rate == amount)
  {
    var missing := (amount - s.tokens) / c.rate;
    assert missing * c.rate == amount - s.tokens;
    assert missing > 0.0;
    Scaled(Pause(c, s, amount), missing, c.rate);
  }

  lemma Scaled(a: real, b: real, factor: real)
    requires a <= b && factor > 0.0
    ensures a * factor <= b * factor
  {
    assert (b - a) * factor >= 0.0;
  }
}
