/** The token bucket in front of the model calls (internal/brain/rate_limiter.go), with times in
    seconds and real arithmetic. The readings of the clock are inputs. */
module RateLimiting {
  datatype Bucket = Bucket(tokens: real, lastRefill: real)

  function Earned(dt: real, rate: real): real {
    dt * rate
  }

  /** The tokens that dt seconds bring. */
  function Refill(rpm: int, dt: real): real {
    Earned(dt, rpm as real / 60.0)
  }

  /** The tokens at time now, before a call takes one. */
  function Level(rpm: int, b: Bucket, now: real): real {
    var refilled := b.tokens + Refill(rpm, now - b.lastRefill);
    if refilled > rpm as real then rpm as real else refilled
  }

  predicate Verdict(rpm: int, b: Bucket, now: real) {
    Level(rpm, b, now) >= 1.0
  }

  function Next(rpm: int, b: Bucket, now: real): Bucket {
    Bucket(Level(rpm, b, now) - (if Verdict(rpm, b, now) then 1.0 else 0.0), now)
  }

  /** The bucket made at time start, after calls of Allow at the given times. */
  function After(rpm: int, start: real, times: seq<real>): Bucket {
    if times == [] then Bucket(rpm as real, start)
    else Next(rpm, After(rpm, start, times[..|times| - 1]), times[|times| - 1])
  }

  predicate Allowed(rpm: int, start: real, times: seq<real>, i: nat)
    requires i < |times|
  {
    Verdict(rpm, After(rpm, start, times[..i]), times[i])
  }

  /** How many of the calls from call i on were allowed. */
  function Count(rpm: int, start: real, times: seq<real>, i: nat): nat {
    if i >= |times| then 0
    else Count(rpm, start, times[..|times| - 1], i) + if Allowed(rpm, start, times, |times| - 1) then 1 else 0
  }

  /** The clock never goes back. */
  predicate Monotone(start: real, times: seq<real>) {
    && (forall i :: 0 <= i < |times| ==> start <= times[i])
    && forall i, j :: 0 <= i < j < |times| ==> times[i] <= times[j]
  }

  predicate Reads(start: real, times: seq<real>, now: real) {
    Monotone(start, times) && start <= now && forall i :: 0 <= i < |times| ==> times[i] <= now
  }

  /** What the window that begins with call i still leaves at time now: the bound on its calls minus
      the calls it has allowed. */
  function Room(rpm: int, start: real, times: seq<real>, i: nat, now: real): real
    requires i < |times|
  {
    rpm as real + Refill(rpm, now - times[i]) - Count(rpm, start, times, i) as real
  }

  lemma RefillAdds(rpm: int, a: real, b: real)
    ensures Refill(rpm, a) + Refill(rpm, b) == Refill(rpm, a + b)
  {
  }

  lemma RefillNotNegative(rpm: int, a: real)
    requires rpm >= 0 && a >= 0.0
    ensures Refill(rpm, a) >= 0.0
  {
  }

  lemma InitTimes(start: real, times: seq<real>, now: real)
    requires times != [] && Reads(start, times, now)
    ensures Reads(start, times[..|times| - 1], times[|times| - 1])
  {
  }

  /** One more call moves every window's room by the refill less the call. */
  lemma RoomStep(rpm: int, start: real, init: seq<real>, t: real, i: nat, now: real)
    requires i < |init|
    ensures Room(rpm, start, init + [t], i, now)
            == Room(rpm, start, init, i, t) + Refill(rpm, now - t)
               - if Verdict(rpm, After(rpm, start, init), t) then 1.0 else 0.0
  {
    assert (init + [t])[..|init|] == init;
    RefillAdds(rpm, t - init[i], now - t);
    assert (t - init[i]) + (now - t) == now - init[i];
    hide Refill, Verdict, After;
  }

  lemma RoomOfLast(rpm: int, start: real, init: seq<real>, t: real, now: real)
    ensures Room(rpm, start, init + [t], |init|, now)
            == rpm as real + Refill(rpm, now - t) - if Verdict(rpm, After(rpm, start, init), t) then 1.0 else 0.0
  {
    assert (init + [t])[..|init|] == init;
    assert Count(rpm, start, init, |init|) == 0;
    hide Refill, Verdict, After;
  }

  /** The level is the least room of all windows, the empty one included. */
  ghost predicate IsLeastRoom(rpm: int, start: real, times: seq<real>, now: real, level: real) {
    && level <= rpm as real
    && (forall i :: 0 <= i < |times| ==> level <= Room(rpm, start, times, i, now))
    && (level == rpm as real || exists i :: 0 <= i < |times| && level == Room(rpm, start, times, i, now))
  }

  lemma {:induction false} LevelIsLeastRoom(rpm: int, start: real, times: seq<real>, now: real)
    requires rpm >= 0 && Reads(start, times, now)
    ensures IsLeastRoom(rpm, start, times, now, Level(rpm, After(rpm, start, times), now))
  {
    if times == [] {
      RefillNotNegative(rpm, now - start);
    } else {
      var init, t := times[..|times| - 1], times[|times| - 1];
      assert times == init + [t];
      InitTimes(start, times, now);
      LevelIsLeastRoom(rpm, start, init, t);
      hide *;
      LeastRoomStep(rpm, start, init, t, now);
    }
  }

  lemma LevelStep(rpm: int, start: real, init: seq<real>, t: real, now: real)
    ensures var b := After(rpm, start, init);
            var moved := Level(rpm, b, t) - (if Verdict(rpm, b, t) then 1.0 else 0.0) + Refill(rpm, now - t);
            Level(rpm, After(rpm, start, init + [t]), now) == if moved > rpm as real then rpm as real else moved
  {
    assert (init + [t])[..|init|] == init;
    hide Refill;
  }

  lemma LeastRoomStep(rpm: int, start: real, init: seq<real>, t: real, now: real)
    requires IsLeastRoom(rpm, start, init, t, Level(rpm, After(rpm, start, init), t))
    ensures IsLeastRoom(rpm, start, init + [t], now, Level(rpm, After(rpm, start, init + [t]), now))
  {
    var times := init + [t];
    var level0 := Level(rpm, After(rpm, start, init), t);
    var level := Level(rpm, After(rpm, start, times), now);
    LevelStep(rpm, start, init, t, now);
    RoomOfLast(rpm, start, init, t, now);
    hide Level, After, Verdict, Refill, Room;
    forall i | 0 <= i < |times| ensures level <= Room(rpm, start, times, i, now) {
      if i < |init| {
        RoomStep(rpm, start, init, t, i, now);
      }
    }
    if level != rpm as real {
      if level0 == rpm as real {
        assert level == Room(rpm, start, times, |init|, now);
      } else {
        var i :| 0 <= i < |init| && level0 == Room(rpm, start, init, i, t);
        RoomStep(rpm, start, init, t, i, now);
        assert level == Room(rpm, start, times, i, now);
      }
    }
  }

  /** Main result: a call is allowed exactly when, for every window of calls that ends with it, the
      allowed calls with this one stay within rpm + T * rpm / 60. The limiter never lets a window
      through that is over the bound, and never refuses a call that all windows have room for. */
  lemma AllowedIff(rpm: int, start: real, times: seq<real>, now: real)
    requires rpm >= 0 && Reads(start, times, now)
    ensures Verdict(rpm, After(rpm, start, times), now)
            <==> rpm >= 1
                 && forall i :: 0 <= i < |times| ==>
                      Count(rpm, start, times, i) as real + 1.0 <= rpm as real + Refill(rpm, now - times[i])
  {
    LevelIsLeastRoom(rpm, start, times, now);
    hide Level, After, Refill, Count;
    var level := Level(rpm, After(rpm, start, times), now);
    forall i | 0 <= i < |times|
      ensures Room(rpm, start, times, i, now) >= 1.0
              <==> Count(rpm, start, times, i) as real + 1.0 <= rpm as real + Refill(rpm, now - times[i])
    {
    }
  }

  lemma {:induction false} TokensInRange(rpm: int, start: real, times: seq<real>)
    requires rpm >= 0 && Monotone(start, times)
    ensures var b := After(rpm, start, times);
            0.0 <= b.tokens <= rpm as real && start <= b.lastRefill
                && b.lastRefill == (if times == [] then start else times[|times| - 1])
  {
    if times != [] {
      var n := |times| - 1;
      TokensInRange(rpm, start, times[..n]);
      var b := After(rpm, start, times[..n]);
      RefillNotNegative(rpm, times[n] - b.lastRefill);
      hide Refill;
    }
  }

  /** The bound itself: the calls from i on, up to the last one, within T seconds. */
  lemma WindowBound(rpm: int, start: real, times: seq<real>, i: nat)
    requires rpm >= 0 && Monotone(start, times) && i < |times|
    ensures var T := times[|times| - 1] - times[i];
            Count(rpm, start, times, i) as real <= rpm as real + Refill(rpm, T)
  {
    var now := times[|times| - 1];
    LevelIsLeastRoom(rpm, start, times, now);
    TokensInRange(rpm, start, times);
    var b := After(rpm, start, times);
    assert now - b.lastRefill == 0.0;
    RefillNotNegative(rpm, 0.0);
    assert Level(rpm, b, now) <= Room(rpm, start, times, i, now);
    hide After, Refill, Count;
  }

  // ---- Waiting ----

  function Readings(clock: nat -> real, n: nat): (r: seq<real>)
    ensures |r| == n
  {
    seq(n, i requires 0 <= i => clock(i))
  }

  /** Two readings are at least the length of a sleep apart. */
  ghost predicate Ticks(clock: nat -> real) {
    forall i: nat, j: nat :: j == i + 1 ==> clock(j) >= clock(i) + 0.1
  }

  lemma TicksAt(clock: nat -> real, n: nat)
    requires Ticks(clock)
    ensures clock(n + 1) >= clock(n) + 0.1
  {
  }

  lemma NextReading(clock: nat -> real, n: nat, before: seq<real>)
    ensures before + Readings(clock, n + 1) == before + Readings(clock, n) + [clock(n)]
  {
    assert Readings(clock, n + 1) == Readings(clock, n) + [clock(n)];
  }

  predicate NoneAllowed(rpm: int, start: real, times: seq<real>, k: nat) {
    forall i :: k <= i < |times| ==> !Allowed(rpm, start, times, i)
  }

  /** Of the calls from k on exactly the last is allowed. */
  predicate OnlyLastAllowed(rpm: int, start: real, times: seq<real>, k: nat) {
    && k < |times| && Allowed(rpm, start, times, |times| - 1)
    && forall i :: k <= i < |times| - 1 ==> !Allowed(rpm, start, times, i)
  }

  /** Later calls do not change earlier verdicts. */
  lemma EarlierVerdicts(rpm: int, start: real, times: seq<real>, more: seq<real>, i: nat)
    requires i < |times|
    ensures Allowed(rpm, start, times + more, i) <==> Allowed(rpm, start, times, i)
  {
    assert (times + more)[..i] == times[..i];
  }

  lemma OneMore(rpm: int, start: real, times: seq<real>, t: real, k: nat)
    requires k <= |times| && NoneAllowed(rpm, start, times, k)
    ensures if Allowed(rpm, start, times + [t], |times|) then OnlyLastAllowed(rpm, start, times + [t], k)
            else NoneAllowed(rpm, start, times + [t], k)
  {
    forall i | k <= i < |times| ensures !Allowed(rpm, start, times + [t], i) {
      EarlierVerdicts(rpm, start, times, [t], i);
    }
    hide Allowed;
  }

  /** A refused call before calls of which only the last is allowed. */
  lemma StillRefused(rpm: int, start: real, times: seq<real>, more: seq<real>)
    requires times != [] && !Allowed(rpm, start, times, |times| - 1)
    requires OnlyLastAllowed(rpm, start, times + more, |times|)
    ensures OnlyLastAllowed(rpm, start, times + more, |times| - 1)
  {
    EarlierVerdicts(rpm, start, times, more, |times| - 1);
    hide Allowed;
  }

  /** The tokens that n sleeps of a tenth of a second bring at least. */
  function LeastTokens(rpm: int, n: nat): real {
    (n * rpm) as real / 600.0
  }

  /** Positive while n sleeps need not have brought a whole token. */
  function Missing(rpm: int, n: int): int {
    600 - n * rpm
  }

  lemma BelowOne(rpm: int, n: nat)
    requires rpm >= 1 && LeastTokens(rpm, n) < 1.0
    ensures 0 < Missing(rpm, n) && Missing(rpm, n + 1) < Missing(rpm, n)
  {
    assert (n + 1) * rpm == n * rpm + rpm;
  }

  lemma SleepRefills(rpm: int, n: nat, tokens: real, dt: real)
    requires rpm >= 1 && dt >= 0.1 && tokens >= LeastTokens(rpm, n)
    ensures tokens + Refill(rpm, dt) >= LeastTokens(rpm, n + 1)
  {
    assert (n + 1) * rpm == n * rpm + rpm;
    RefillNotNegative(rpm, dt - 0.1);
    RefillAdds(rpm, 0.1, dt - 0.1);
  }

  /** Wait after its calls of Allow at clock(0), ..., clock(n). */
  ghost predicate Tried(rpm: int, start: real, before: seq<real>, clock: nat -> real, n: nat, calls: seq<real>,
      ok: bool, tokens: real) {
    && calls == before + Readings(clock, n + 1)
    && (n == 0 || Missing(rpm, n - 1) > 0)
    && if ok then OnlyLastAllowed(rpm, start, calls, |before|)
       else NoneAllowed(rpm, start, calls, |before|) && LeastTokens(rpm, n) <= tokens < 1.0
  }

  lemma FirstTry(rpm: int, start: real, before: seq<real>, clock: nat -> real, calls: seq<real>, ok: bool, tokens: real)
    requires calls == before + [clock(0)] && (ok <==> Allowed(rpm, start, calls, |calls| - 1))
    requires !ok ==> 0.0 <= tokens < 1.0
    ensures Tried(rpm, start, before, clock, 0, calls, ok, tokens)
  {
    assert Readings(clock, 1) == [clock(0)];
    OneMore(rpm, start, before, clock(0), |before|);
    hide Allowed, Readings;
  }

  lemma NextTry(rpm: int, start: real, before: seq<real>, clock: nat -> real, n: nat, tried: seq<real>, had: real,
      ok: bool, tokens: real)
    requires rpm >= 1 && Tried(rpm, start, before, clock, n, tried, false, had) && clock(n + 1) >= clock(n) + 0.1
    requires var calls := tried + [clock(n + 1)]; ok <==> Allowed(rpm, start, calls, |calls| - 1)
    requires !ok ==> tokens == had + Refill(rpm, clock(n + 1) - clock(n)) < 1.0
    ensures Tried(rpm, start, before, clock, n + 1, tried + [clock(n + 1)], ok, tokens)
    ensures 0 < Missing(rpm, n) && Missing(rpm, n + 1) < Missing(rpm, n)
  {
    BelowOne(rpm, n);
    NextReading(clock, n + 1, before);
    OneMore(rpm, start, tried, clock(n + 1), |before|);
    SleepRefills(rpm, n, had, clock(n + 1) - clock(n));
    hide Allowed, Readings, Missing, Refill, LeastTokens, OnlyLastAllowed, NoneAllowed;
  }

  lemma Waited(rpm: int, start: real, before: seq<real>, clock: nat -> real, n: nat, calls: seq<real>, tokens: real)
    requires Tried(rpm, start, before, clock, n, calls, true, tokens)
    ensures calls == before + Readings(clock, n + 1) && (n == 0 || (n - 1) * rpm < 600)
    ensures OnlyLastAllowed(rpm, start, calls, |before|)
  {
  }

  /** What one more call does. */
  lemma CallStep(rpm: int, start: real, times: seq<real>, now: real)
    ensures After(rpm, start, times + [now]) == Next(rpm, After(rpm, start, times), now)
    ensures Allowed(rpm, start, times + [now], |times|) <==> Verdict(rpm, After(rpm, start, times), now)
  {
    assert (times + [now])[..|times|] == times;
    hide Next, Verdict;
  }

  lemma NextIs(rpm: int, b: Bucket, now: real)
    ensures var refilled := b.tokens + Earned(now - b.lastRefill, rpm as real / 60.0);
            var level := if refilled > rpm as real then rpm as real else refilled;
            && Refill(rpm, now - b.lastRefill) == Earned(now - b.lastRefill, rpm as real / 60.0)
            && (Verdict(rpm, b, now) <==> level >= 1.0)
            && Next(rpm, b, now) == Bucket(if level >= 1.0 then level - 1.0 else level, now)
  {
  }

  lemma MonotoneStep(start: real, times: seq<real>, now: real)
    requires Monotone(start, times) && now >= if times == [] then start else times[|times| - 1]
    ensures Monotone(start, times + [now])
  {
  }

  /** The fields of a limiter are what its calls make of a new bucket. */
  ghost predicate Fields(rpm: int, start: real, calls: seq<real>, maxTokens: real, refillRate: real, b: Bucket) {
    && rpm >= 1 && maxTokens == rpm as real && refillRate == rpm as real / 60.0
    && Monotone(start, calls) && b == After(rpm, start, calls)
  }

  /** One call of Allow, on the fields. */
  lemma FieldsStep(rpm: int, start: real, calls: seq<real>, maxTokens: real, refillRate: real, b: Bucket, now: real)
    requires Fields(rpm, start, calls, maxTokens, refillRate, b) && now >= b.lastRefill
    ensures var refilled := b.tokens + Earned(now - b.lastRefill, refillRate);
            var level := if refilled > maxTokens then maxTokens else refilled;
            var after := if level >= 1.0 then level - 1.0 else level;
            && Fields(rpm, start, calls + [now], maxTokens, refillRate, Bucket(after, now))
            && (Allowed(rpm, start, calls + [now], |calls + [now]| - 1) <==> level >= 1.0)
            && (level < 1.0 ==> level == b.tokens + Refill(rpm, now - b.lastRefill))
            && rpm >= 1 && after >= 0.0
  {
    TokensInRange(rpm, start, calls);
    MonotoneStep(start, calls, now);
    CallStep(rpm, start, calls, now);
    NextIs(rpm, b, now);
    TokensInRange(rpm, start, calls + [now]);
    hide After, Monotone, Allowed, Level, Next, Verdict, Refill, Earned;
  }

  class RateLimiter {
    var tokens: real
    const maxTokens: real
    const refillRate: real
    var lastRefill: real

    ghost const rpm: int
    ghost const start: real
    ghost var calls: seq<real>

    /** The fields are what the calls so far make of a new bucket. */
    ghost predicate Valid()
      reads this
    {
      Fields(rpm, start, calls, maxTokens, refillRate, Bucket(tokens, lastRefill))
    }

    constructor (limit: int, now: real)
      requires limit >= 1
      ensures Valid() && rpm == limit && start == now && calls == []
    {
      tokens := limit as real;
      maxTokens := limit as real;
      refillRate := limit as real / 60.0;
      lastRefill := now;
      rpm, start, calls := limit, now, [];
    }

    method Allow(now: real) returns (ok: bool)
      requires Valid() && now >= lastRefill
      modifies this
      ensures Valid() && calls == old(calls) + [now] && lastRefill == now
      ensures ok <==> Allowed(rpm, start, calls, |calls| - 1)
      ensures !ok ==> tokens == old(tokens) + Refill(rpm, now - old(lastRefill)) < 1.0
      ensures rpm >= 1 && tokens >= 0.0
    {
      ghost var b, before := Bucket(tokens, lastRefill), calls;
      FieldsStep(rpm, start, before, maxTokens, refillRate, b, now);
      hide Fields, After, Allowed, Earned, Refill;
      var elapsed := now - lastRefill;
      lastRefill := now;
      tokens := tokens + Earned(elapsed, refillRate);
      if tokens > maxTokens {
        tokens := maxTokens;
      }
      calls := calls + [now];
      ok := tokens >= 1.0;
      if ok {
        tokens := tokens - 1.0;
      }
    }

    /** Wait, when every reading of the clock is at least a tenth of a second after the one before.
        It returns after n sleeps, with (n - 1) * rpm < 600. All its calls but the last are
        refused, so it spends exactly one token. */
    method Wait(clock: nat -> real) returns (n: nat)
      requires Valid() && clock(0) >= lastRefill
      requires Ticks(clock)
      modifies this
      ensures Valid() && Tried(rpm, start, old(calls), clock, n, calls, true, tokens)
    {
      hide *;
      n := 0;
      ghost var before := calls;
      var ok := Allow(clock(0));
      FirstTry(rpm, start, before, clock, calls, ok, tokens);
      while !ok
        invariant Valid() && lastRefill == clock(n) && Tried(rpm, start, before, clock, n, calls, ok, tokens)
        decreases Missing(rpm, n)
      {
        n, ok := Retry(clock, n, before);
      }
    }

    /** One sleep and one more call. */
    method Retry(clock: nat -> real, n: nat, ghost before: seq<real>) returns (next: nat, ok: bool)
      requires Valid() && Ticks(clock) && lastRefill == clock(n)
      requires Tried(rpm, start, before, clock, n, calls, false, tokens)
      modifies this
      ensures Valid() && next == n + 1 && lastRefill == clock(next)
      ensures Tried(rpm, start, before, clock, next, calls, ok, tokens)
      ensures 0 < Missing(rpm, n) && Missing(rpm, next) < Missing(rpm, n)
    {
      hide *;
      ghost var tried, had := calls, tokens;
      var now := clock(n + 1);
      TicksAt(clock, n);
      ok := Allow(now);
      NextTry(rpm, start, before, clock, n, tried, had, ok, tokens);
      next := n + 1;
    }

    /** A model call: one try, and Wait if it fails. Exactly one of all the calls of Allow that this
        makes is allowed, the last. */
    method SpendOne(first: real, clock: nat -> real)
      requires Valid() && lastRefill <= first <= clock(0)
      requires Ticks(clock)
      modifies this
      ensures Valid() && old(calls) < calls && OnlyLastAllowed(rpm, start, calls, |old(calls)|)
    {
      var ok := Allow(first);
      if !ok {
        ghost var tried := calls;
        var n := Wait(clock);
        Waited(rpm, start, tried, clock, n, calls, tokens);
        StillRefused(rpm, start, tried, Readings(clock, n + 1));
      }
    }
  }
}
