/** internal/tools/retry/retry.go: bounded exponential backoff in 64-bit arithmetic. */
module Retry {
  import opened Arithmetic
  import opened Wrappers

  const HALF: int := 0x8000_0000_0000_0000

  /** Go's `time.Duration`, a signed 64-bit count of nanoseconds. */
  type Duration = d: int | -HALF <= d < HALF

  const MILLISECOND: int := 1_000_000

  /** Two's-complement truncation to 64 bits. */
  function Wrap(x: int): (d: Duration)
  {
    var m := x % WORD;
    if m >= HALF then m - WORD else m
  }

  /** `initial << (attempt - 1)` wraps silently; the cap is compared after the shift. */
  function Delay(initial: Duration, maximum: Duration, attempt: int): Duration
  {
    if attempt <= 1 then
      if maximum > 0 && initial > maximum then maximum else initial
    else
      var delay := Wrap(initial * Pow2(attempt - 1));
      if maximum > 0 && delay > maximum then maximum else delay
  }

  /** How long attempt `attempt` should wait if shifting were exact. */
  function Ideal(initial: Duration, maximum: Duration, attempt: int): int
    requires attempt >= 1
  {
    var exact := initial * Pow2(attempt - 1);
    if maximum > 0 && exact > maximum then maximum else exact
  }

  /** Whatever the shift does, a positive maximum is never exceeded. */
  lemma DelayBounded(initial: Duration, maximum: Duration, attempt: int)
    requires maximum > 0
    ensures Delay(initial, maximum, attempt) <= maximum
  {
  }

  /** Without overflow the computed delay is the ideal one. */
  lemma DelayIsIdeal(initial: Duration, maximum: Duration, attempt: int)
    requires attempt >= 1
    requires 0 <= initial * Pow2(attempt - 1) < HALF
    ensures Delay(initial, maximum, attempt) == Ideal(initial, maximum, attempt)
  {
    if attempt == 1 {
      assert Pow2(0) == 1;
    }
  }

  lemma IdealGrows(initial: Duration, maximum: Duration, b: int)
    requires initial >= 0 && b > 1
    ensures Ideal(initial, maximum, b - 1) <= Ideal(initial, maximum, b)
    ensures 0 <= initial * Pow2(b - 2) <= initial * Pow2(b - 1)
  {
    Doubled(initial, Pow2(b - 2));
  }

  /** Without overflow the delays never decrease. */
  lemma {:induction false} DelayMonotone(initial: Duration, maximum: Duration, a: int, b: int)
    requires 1 <= a <= b
    requires initial >= 0 && initial * Pow2(b - 1) < HALF
    ensures Delay(initial, maximum, a) <= Delay(initial, maximum, b)
    decreases b - a
  {
    if a < b {
      hide Delay;
      hide Ideal;
      hide Pow2;
      IdealGrows(initial, maximum, b);
      DelayMonotone(initial, maximum, a, b - 1);
      DelayIsIdeal(initial, maximum, b - 1);
      DelayIsIdeal(initial, maximum, b);
    }
  }

  /** The first attempt whose shift does not fit has a negative delay. */
  lemma {:induction false} FirstOverflow(initial: Duration, maximum: Duration, b: int) returns (k: int)
    requires initial >= 0 && b >= 1 && initial * Pow2(b - 1) >= HALF
    ensures 1 < k <= b && Delay(initial, maximum, k) < 0
    decreases b
  {
    assert Pow2(0) == 1;
    var p := Pow2(b - 2);
    assert initial * Pow2(b - 1) == 2 * (initial * p);
    if initial * p >= HALF {
      k := FirstOverflow(initial, maximum, b - 1);
    } else {
      k := b;
    }
  }

  /** Up to attempt `b` no delay is shorter than an earlier one exactly if that attempt's shift fits. */
  lemma DelaysGrowIff(initial: Duration, maximum: Duration, b: int)
    requires initial >= 0 && b >= 1
    ensures (forall i, j :: 1 <= i <= j <= b ==> Delay(initial, maximum, i) <= Delay(initial, maximum, j))
            <==> initial * Pow2(b - 1) < HALF
  {
    if initial * Pow2(b - 1) < HALF {
      forall i, j | 1 <= i <= j <= b ensures Delay(initial, maximum, i) <= Delay(initial, maximum, j) {
        SmallerShift(initial, j, b);
        DelayMonotone(initial, maximum, i, j);
      }
    } else {
      var k := FirstOverflow(initial, maximum, b);
      assert Delay(initial, maximum, 1) >= 0 > Delay(initial, maximum, k);
    }
  }

  lemma {:induction false} SmallerShift(initial: Duration, j: int, b: int)
    requires initial >= 0 && 1 <= j <= b
    ensures initial * Pow2(j - 1) <= initial * Pow2(b - 1)
    decreases b - j
  {
    if j < b {
      SmallerShift(initial, j, b - 1);
      Doubled(initial, Pow2(b - 2));
    }
  }

  lemma Doubled(x: int, p: nat)
    ensures x * (2 * p) == 2 * (x * p) && (x >= 0 ==> 0 <= x * p <= x * (2 * p))
  {
  }

  /** One nanosecond doubled 63 times is negative, so the wait is skipped. */
  lemma DelayOverflows()
    ensures Delay(1, 2000 * MILLISECOND, 64) == -HALF < Delay(1, 2000 * MILLISECOND, 63)
  {
    Pow2At63();
  }

  lemma Pow2At63()
    ensures Pow2(63) == HALF && Pow2(62) == HALF / 2
  {
    Pow2At31();
    Pow2Add(31, 31);
  }

  lemma Pow2At31()
    ensures Pow2(31) == 0x8000_0000
  {
    assert Pow2(7) == 0x80 && Pow2(8) == 0x100;
    Pow2Add(8, 8);
    Pow2Add(16, 8);
    Pow2Add(24, 7);
  }

  /** `Retryable` is optional: a nil classifier retries nothing. */
  datatype Config<!E> = Config(attempts: int, initialDelay: Duration, maximumDelay: Duration,
                               retryable: Option<E -> bool>)
  {
    function Attempts(): (n: nat)
      ensures n >= 1
    {
      if attempts <= 0 then 1 else attempts
    }

    predicate Retries(e: E)
    {
      retryable.Some? && retryable.value(e)
    }
  }

  /** Everything a call of `Do` leaves behind; `exhausted` marks its last line, after the loop. */
  datatype Run<S, T, E> = Run(world: S, result: Result<T, E>, calls: nat, delays: seq<Duration>, exhausted: bool)

  /**
   * `Do` from attempt number `attempt` on. `operation` and `wait` act on a world `S`: what they
   * change and what they answer may differ from call to call.
   */
  function DoFrom<S, T, E>(cfg: Config<E>, operation: S -> (S, Result<T, E>), wait: (S, Duration) -> (S, Option<E>),
                           exhausted: E, world: S, attempt: nat): Run<S, T, E>
    decreases cfg.Attempts() + 1 - attempt
  {
    if attempt > cfg.Attempts() then
      Run(world, Err(exhausted), 0, [], true)
    else
      var (w1, r) := operation(world);
      if r.Ok? || !cfg.Retries(r.error) || attempt == cfg.Attempts() then
        Run(w1, r, 1, [], false)
      else
        var delay := Delay(cfg.initialDelay, cfg.maximumDelay, attempt);
        var (w2, stop) := wait(w1, delay);
        if stop.Some? then
          Run(w2, Err(stop.value), 1, [delay], false)
        else
          var rest := DoFrom(cfg, operation, wait, exhausted, w2, attempt + 1);
          rest.(calls := rest.calls + 1, delays := [delay] + rest.delays)
  }

  method Do<S, T, E>(cfg: Config<E>, operation: S -> (S, Result<T, E>), wait: (S, Duration) -> (S, Option<E>),
                     exhausted: E, world: S) returns (run: Run<S, T, E>)
    ensures run == DoFrom(cfg, operation, wait, exhausted, world, 1)
  {
    hide Delay;
    var attempts := cfg.Attempts();
    var attempt: nat, w, calls: nat, delays: seq<Duration> := 1, world, 0, [];
    while attempt <= attempts
      invariant 1 <= attempt <= attempts + 1
      invariant var rest := DoFrom(cfg, operation, wait, exhausted, w, attempt);
                DoFrom(cfg, operation, wait, exhausted, world, 1)
                == rest.(calls := calls + rest.calls, delays := delays + rest.delays)
    {
      var (w1, r) := operation(w);
      calls := calls + 1;
      if r.Ok? {
        return Run(w1, r, calls, delays, false);
      }
      if !cfg.Retries(r.error) || attempt == attempts {
        return Run(w1, r, calls, delays, false);
      }
      var delay := Delay(cfg.initialDelay, cfg.maximumDelay, attempt);
      var (w2, stop) := wait(w1, delay);
      delays := delays + [delay];
      if stop.Some? {
        return Run(w2, Err(stop.value), calls, delays, false);
      }
      w, attempt := w2, attempt + 1;
    }
    return Run(w, Err(exhausted), calls, delays, true);
  }

  /** The sum of the waits. */
  function Total(delays: seq<Duration>): int
  {
    if delays == [] then 0 else delays[0] + Total(delays[1..])
  }

  /**
   * The line after the loop is never reached, the operation is called at least once and at most
   * `Attempts` times with a wait between two calls, wait number i is `Delay(i)`, and the waits add
   * up to at most (attempts - 1) times a positive maximum.
   */
  lemma {:induction false} DoIsBounded<S, T, E>(cfg: Config<E>, operation: S -> (S, Result<T, E>),
                                                wait: (S, Duration) -> (S, Option<E>), exhausted: E, world: S,
                                                attempt: nat)
    requires 1 <= attempt <= cfg.Attempts()
    ensures var run := DoFrom(cfg, operation, wait, exhausted, world, attempt);
            && !run.exhausted
            && 1 <= run.calls <= cfg.Attempts() + 1 - attempt
            && run.calls - 1 <= |run.delays| <= run.calls
            && |run.delays| <= cfg.Attempts() - attempt
            && (forall i :: 0 <= i < |run.delays| ==>
                  run.delays[i] == Delay(cfg.initialDelay, cfg.maximumDelay, attempt + i))
            && (cfg.maximumDelay > 0 ==> Total(run.delays) <= (cfg.Attempts() - attempt) * cfg.maximumDelay)
    decreases cfg.Attempts() - attempt
  {
    hide Delay;
    var (w1, r) := operation(world);
    if r.Err? && cfg.Retries(r.error) && attempt < cfg.Attempts() {
      var delay := Delay(cfg.initialDelay, cfg.maximumDelay, attempt);
      if cfg.maximumDelay > 0 {
        DelayBounded(cfg.initialDelay, cfg.maximumDelay, attempt);
      }
      var (w2, stop) := wait(w1, delay);
      if stop.Some? {
        assert [delay][1..] == [];
        MulAtLeast(cfg.Attempts() - attempt, 1, cfg.maximumDelay);
      } else {
        DoIsBounded(cfg, operation, wait, exhausted, w2, attempt + 1);
        var rest := DoFrom(cfg, operation, wait, exhausted, w2, attempt + 1);
        assert ([delay] + rest.delays)[1..] == rest.delays;
        assert (cfg.Attempts() - attempt) * cfg.maximumDelay
            == (cfg.Attempts() - (attempt + 1)) * cfg.maximumDelay + cfg.maximumDelay;
      }
    } else {
      MulAtLeast(cfg.Attempts() - attempt, 0, cfg.maximumDelay);
    }
  }

  lemma MulAtLeast(x: int, y: int, z: int)
    requires x >= y
    ensures z > 0 ==> y * z <= x * z
  {
  }

  lemma DefaultDelays()
    ensures Delay(250 * MILLISECOND, 2000 * MILLISECOND, 1) == 250 * MILLISECOND
    ensures Delay(250 * MILLISECOND, 2000 * MILLISECOND, 2) == 500 * MILLISECOND
    ensures Delay(250 * MILLISECOND, 2000 * MILLISECOND, 3) == 1000 * MILLISECOND
    ensures Delay(250 * MILLISECOND, 2000 * MILLISECOND, 4) == 2000 * MILLISECOND
  {
    assert Pow2(1) == 2 && Pow2(2) == 4 && Pow2(3) == 8;
  }

  /** Five attempts from 250 ms capped at 2 s wait 250, 500, 1000 and 2000 ms: 3.75 s when all are needed. */
  lemma DefaultBackoff(delays: seq<Duration>)
    requires |delays| <= 4
    requires forall i :: 0 <= i < |delays| ==> delays[i] == Delay(250 * MILLISECOND, 2000 * MILLISECOND, 1 + i)
    ensures Total(delays) <= 3750 * MILLISECOND
    ensures |delays| == 4 <==> Total(delays) == 3750 * MILLISECOND
  {
    hide Delay;
    DefaultDelays();
    var waits := [250 * MILLISECOND, 500 * MILLISECOND, 1000 * MILLISECOND, 2000 * MILLISECOND];
    assert delays == waits[..|delays|];
    if |delays| > 0 { TotalTail(delays); }
    if |delays| > 1 { TotalTail(delays[1..]); }
    if |delays| > 2 { TotalTail(delays[2..]); }
    if |delays| > 3 { TotalTail(delays[3..]); }
    assert Total(delays[|delays|..]) == 0;
  }

  lemma TotalTail(delays: seq<Duration>)
    requires delays != []
    ensures Total(delays) == delays[0] + Total(delays[1..])
  {
  }

  /**
   * The induction principle for callers of `Do`: what every call of the operation keeps and every
   * wait keeps, the whole run keeps; and the answer of the run is an answer of one of its calls, or
   * a refused wait.
   */
  lemma {:induction false} DoInvariant<S(!new), T(!new), E(!new)>(
    cfg: Config<E>, operation: S -> (S, Result<T, E>), wait: (S, Duration) -> (S, Option<E>), exhausted: E,
    world: S, attempt: nat, inv: S -> bool, post: (S, Result<T, E>) -> bool)
    requires 1 <= attempt <= cfg.Attempts()
    requires inv(world)
    requires forall s :: inv(s) ==> post(operation(s).0, operation(s).1)
    requires forall s :: inv(s) && operation(s).1.Err? ==> inv(operation(s).0)
    requires forall s, d :: inv(s) ==> inv(wait(s, d).0)
    requires forall s, d :: inv(s) && wait(s, d).1.Some? ==> post(wait(s, d).0, Err(wait(s, d).1.value))
    ensures var run := DoFrom(cfg, operation, wait, exhausted, world, attempt); post(run.world, run.result)
    decreases cfg.Attempts() - attempt
  {
    hide Delay;
    var (w1, r) := operation(world);
    assert post(w1, r);
    if r.Err? && cfg.Retries(r.error) && attempt < cfg.Attempts() {
      var (w2, stop) := wait(w1, Delay(cfg.initialDelay, cfg.maximumDelay, attempt));
      if stop.None? {
        DoInvariant(cfg, operation, wait, exhausted, w2, attempt + 1, inv, post);
      }
    }
  }

  // ---- when a run stops ----

  /** The number of attempts a caller asks for; none or a negative number means one. */
  function Asked<E>(cfg: Config<E>): nat
  {
    if cfg.attempts >= 1 then cfg.attempts else 1
  }

  /** What the classifier says of an answer that is an error. */
  predicate MayRepeat<T, E>(cfg: Config<E>, r: Result<T, E>)
  {
    match cfg.retryable
    case None => false
    case Some(classifier) => r.Err? && classifier(r.error)
  }

  /** The world in which call number `k` is made, the first being number 1, if all before it are repeated. */
  function WorldBefore<S, T, E>(cfg: Config<E>, operation: S -> (S, Result<T, E>),
                                wait: (S, Duration) -> (S, Option<E>), world: S, k: nat): S
    requires k >= 1
    decreases k
  {
    if k == 1 then world
    else wait(operation(WorldBefore(cfg, operation, wait, world, k - 1)).0,
              Delay(cfg.initialDelay, cfg.maximumDelay, k - 1)).0
  }

  /** The first `n` calls answer errors to be repeated, and the waits after them pass. */
  ghost predicate AllRepeated<S, T, E>(cfg: Config<E>, operation: S -> (S, Result<T, E>),
                                       wait: (S, Duration) -> (S, Option<E>), world: S, n: nat)
  {
    forall k :: 1 <= k <= n ==>
      var (w, r) := operation(WorldBefore(cfg, operation, wait, world, k));
      MayRepeat(cfg, r) && wait(w, Delay(cfg.initialDelay, cfg.maximumDelay, k)).1.None?
  }

  lemma FirstWorld<S, T, E>(cfg: Config<E>, operation: S -> (S, Result<T, E>), wait: (S, Duration) -> (S, Option<E>),
                            world: S)
    ensures WorldBefore(cfg, operation, wait, world, 1) == world
  {
  }

  /** The last of the repeated calls, and those before it. */
  lemma Repeated<S, T, E>(cfg: Config<E>, operation: S -> (S, Result<T, E>), wait: (S, Duration) -> (S, Option<E>),
                          world: S, k: nat)
    requires k >= 1 && AllRepeated(cfg, operation, wait, world, k)
    ensures AllRepeated(cfg, operation, wait, world, k - 1)
    ensures var w := WorldBefore(cfg, operation, wait, world, k);
            var (w', stop) := wait(operation(w).0, Delay(cfg.initialDelay, cfg.maximumDelay, k));
            && MayRepeat(cfg, operation(w).1) && stop.None?
            && WorldBefore(cfg, operation, wait, world, k + 1) == w'
  {
    hide Delay;
    hide MayRepeat;
  }

  /** One call that is repeated, and the rest. */
  lemma OneRepeat<S, T, E>(cfg: Config<E>, operation: S -> (S, Result<T, E>), wait: (S, Duration) -> (S, Option<E>),
                           exhausted: E, w: S, k: nat)
    requires 1 <= k < Asked(cfg) && MayRepeat(cfg, operation(w).1)
    requires wait(operation(w).0, Delay(cfg.initialDelay, cfg.maximumDelay, k)).1.None?
    ensures var whole := DoFrom(cfg, operation, wait, exhausted, w, k);
            var rest := DoFrom(cfg, operation, wait, exhausted,
                               wait(operation(w).0, Delay(cfg.initialDelay, cfg.maximumDelay, k)).0, k + 1);
            && whole.world == rest.world && whole.result == rest.result && whole.exhausted == rest.exhausted
            && whole.calls == 1 + rest.calls && |whole.delays| == 1 + |rest.delays|
  {
    hide Delay;
  }

  /** The calls after the first `k - 1` of them. */
  lemma {:induction false} Repeats<S, T, E>(cfg: Config<E>, operation: S -> (S, Result<T, E>),
                                            wait: (S, Duration) -> (S, Option<E>), exhausted: E, world: S, k: nat)
    requires 1 <= k <= Asked(cfg) && AllRepeated(cfg, operation, wait, world, k - 1)
    ensures var whole := DoFrom(cfg, operation, wait, exhausted, world, 1);
            var rest := DoFrom(cfg, operation, wait, exhausted, WorldBefore(cfg, operation, wait, world, k), k);
            && whole.world == rest.world && whole.result == rest.result && whole.exhausted == rest.exhausted
            && whole.calls == k - 1 + rest.calls && |whole.delays| == k - 1 + |rest.delays|
    decreases k
  {
    hide Delay;
    hide DoFrom;
    hide MayRepeat;
    hide WorldBefore;
    hide AllRepeated;
    if k > 1 {
      Repeated(cfg, operation, wait, world, k - 1);
      Repeats(cfg, operation, wait, exhausted, world, k - 1);
      OneRepeat(cfg, operation, wait, exhausted, WorldBefore(cfg, operation, wait, world, k - 1), k - 1);
    } else {
      FirstWorld(cfg, operation, wait, world);
    }
  }

  /**
   * If the first `k - 1` answers are errors to be repeated and their waits pass, the run stops with answer
   * number `k` exactly if that is no error to be repeated or it is the last attempt; otherwise it stops there
   * with the error of the wait, or goes on to another call.
   */
  lemma DoStops<S, T, E>(cfg: Config<E>, operation: S -> (S, Result<T, E>), wait: (S, Duration) -> (S, Option<E>),
                         exhausted: E, world: S, k: nat)
    requires 1 <= k <= Asked(cfg) && AllRepeated(cfg, operation, wait, world, k - 1)
    ensures var run := DoFrom(cfg, operation, wait, exhausted, world, 1);
            var (w, r) := operation(WorldBefore(cfg, operation, wait, world, k));
            var (w', stop) := wait(w, Delay(cfg.initialDelay, cfg.maximumDelay, k));
            if !MayRepeat(cfg, r) || k == Asked(cfg) then
              run.calls == k && |run.delays| == k - 1 && run.world == w && run.result == r
            else if stop.Some? then
              run.calls == k && |run.delays| == k && run.world == w' && run.result == Err(stop.value)
            else run.calls > k
  {
    hide Delay;
    Repeats(cfg, operation, wait, exhausted, world, k);
    var (w, r) := operation(WorldBefore(cfg, operation, wait, world, k));
    var (w', stop) := wait(w, Delay(cfg.initialDelay, cfg.maximumDelay, k));
    if MayRepeat(cfg, r) && k < Asked(cfg) && stop.None? {
      DoIsBounded(cfg, operation, wait, exhausted, w', k + 1);
    }
  }
}
