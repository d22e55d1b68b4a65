/**
 * When certificates are replaced: internal/tools/certs/certs.go (`Expired` and the regeneration) and
 * the tick loop of internal/controllers/certificates/reconciler.go, over real time.
 */
module Deadline {
  import opened Wrappers

  type Time = real

  /** `margin`: age at which the request object counts as expired; `gap`: longest time between successful
      checks; `issuing`: longest time a regeneration takes; `duration`: lifetime of a certificate from the
      creation of its request. */
  datatype Config = Config(margin: Time, gap: Time, issuing: Time, duration: Time)
  {
    predicate Valid()
    {
      margin >= 0.0 && gap > 0.0 && issuing >= 0.0 && duration > 0.0
    }
  }

  /** Creation times of the request object in the cluster, if any, and of the request behind the served certificate. */
  datatype Certs = Certs(request: Option<Time>, served: Time)

  /** Age strictly above the margin. */
  predicate Expired(created: Time, now: Time, margin: Time)
  {
    margin - (now - created) < 0.0
  }

  /** What a check at some time does. */
  datatype Outcome =
    | Kept                                       // the request is young enough: nothing happens
    | Reissued(created: Time, installed: Time)
    | Aborted                                    // the request could not be read or deleted
    | FailedBefore                               // the old request is gone, no new one was created
    | FailedAfter(created: Time)                 // a new request exists, its certificate was never installed

  datatype Check = Check(at: Time, outcome: Outcome)
  {
    predicate Succeeds()
    {
      outcome.Kept? || outcome.Reissued?
    }

    /** When it is over. */
    function Over(): Time
    {
      match outcome
      case Reissued(_, installed) => installed
      case FailedAfter(created) => created
      case _ => at
    }
  }

  function After(s: Certs, c: Check): Certs
  {
    match c.outcome
    case Kept => s
    case Reissued(created, installed) => Certs(Some(created), created)
    case Aborted => s
    case FailedBefore => s.(request := None)
    case FailedAfter(created) => s.(request := Some(created))
  }

  predicate Possible(cfg: Config, s: Certs, c: Check)
  {
    var regenerates := s.request.None? || Expired(s.request.value, c.at, cfg.margin);
    match c.outcome
    case Kept => !regenerates
    case Reissued(created, installed) => regenerates && c.at <= created <= installed <= c.at + cfg.issuing
    case Aborted => true
    case FailedBefore => regenerates
    case FailedAfter(created) => regenerates && c.at <= created <= c.at + cfg.issuing
  }

  /**
   * Checks follow one another, each with a possible outcome, and consecutive successful ones are at most
   * `gap` apart. `last` is the last successful check; the last check of all was over at `over`.
   */
  predicate Legal(cfg: Config, s: Certs, last: Time, over: Time, run: seq<Check>)
    decreases |run|
  {
    run != [] ==>
      && over <= run[0].at
      && (run[0].Succeeds() ==> run[0].at <= last + cfg.gap)
      && Possible(cfg, s, run[0])
      && Legal(cfg, After(s, run[0]), if run[0].Succeeds() then run[0].at else last, run[0].Over(), run[1..])
  }

  /** The creation time of the certificate served at time `t`. */
  function ServedAt(s: Certs, run: seq<Check>, t: Time): Time
    decreases |run|
  {
    if run == [] then s.served
    else if run[0].outcome.Reissued? && t < run[0].outcome.installed then s.served
    else ServedAt(After(s, run[0]), run[1..], t)
  }

  function Max(a: Time, b: Time): Time
  {
    if a > b then a else b
  }

  /** The last successful check is over, and the next one would be due. */
  function Horizon(cfg: Config, last: Time, done: Time, run: seq<Check>): Time
    decreases |run|
  {
    if run == [] then Max(last + cfg.gap, done)
    else if run[0].Succeeds() then Horizon(cfg, run[0].at, run[0].Over(), run[1..])
    else Horizon(cfg, last, done, run[1..])
  }

  /** The failures that leave a new request without its certificate. */
  function LateFailures(run: seq<Check>): nat
    decreases |run|
  {
    if run == [] then 0 else (if run[0].outcome.FailedAfter? then 1 else 0) + LateFailures(run[1..])
  }

  /** The last check, at `last` and over at `over`, found or made the request young enough, and it is the served one. */
  predicate Checked(cfg: Config, s: Certs, last: Time, over: Time)
  {
    && s.request == Some(s.served) && !Expired(s.served, last, cfg.margin)
    && last <= over <= last + cfg.issuing && s.served <= over
  }

  /**
   * At every instant of every run with at most `n` late failures, and any number of earlier failures, the
   * served certificate is valid, until the next successful check is overdue.
   */
  ghost predicate Tolerates(cfg: Config, n: nat)
  {
    forall s: Certs, last: Time, over: Time, run: seq<Check>, t: Time ::
      (&& Checked(cfg, s, last, over) && Legal(cfg, s, last, over, run)
       && LateFailures(run) <= n && t <= Horizon(cfg, last, over, run))
      ==> t <= ServedAt(s, run, t) + cfg.duration
  }

  /** The greatest age a served certificate can reach with `n` late failures. */
  function Bound(cfg: Config, n: nat): Time
  {
    if n == 0 then cfg.margin + cfg.gap + cfg.issuing else Bound(cfg, n - 1) + cfg.margin + cfg.gap
  }

  lemma {:induction false} BoundIs(cfg: Config, n: nat)
    ensures Bound(cfg, n) == (n + 1) as real * (cfg.margin + cfg.gap) + cfg.issuing
  {
    if n > 0 {
      BoundIs(cfg, n - 1);
    }
  }

  lemma {:induction false} BoundGrows(cfg: Config, m: nat, n: nat)
    requires cfg.Valid() && m <= n
    ensures cfg.margin + cfg.gap + cfg.issuing <= Bound(cfg, m) <= Bound(cfg, n)
  {
    if m < n {
      BoundGrows(cfg, m, n - 1);
    } else if m > 0 {
      BoundGrows(cfg, m - 1, n - 1);
    }
  }

  /** With `n` late failures to come, the served certificate outlasts the worst of them. */
  predicate Outlasts(cfg: Config, s: Certs, last: Time, over: Time, n: nat)
  {
    && last + Bound(cfg, n) - cfg.margin <= s.served + cfg.duration
    && (s.request.Some? ==>
          && s.request.value <= over
          && (s.request.value <= last + cfg.gap ==> s.request.value + Bound(cfg, n) <= s.served + cfg.duration))
  }

  lemma CheckOutlasts(cfg: Config, s: Certs, last: Time, over: Time, c: Check, n: nat)
    requires cfg.Valid() && Bound(cfg, n) <= cfg.duration
    requires Outlasts(cfg, s, last, over, n) && Legal(cfg, s, last, over, [c])
    requires c.outcome.FailedAfter? ==> n > 0
    ensures Outlasts(cfg, After(s, c), if c.Succeeds() then c.at else last, c.Over(),
                     if c.outcome.FailedAfter? then n - 1 else n)
  {
    BoundGrows(cfg, 0, n);
  }

  lemma {:induction false} ServedLongEnough(cfg: Config, s: Certs, last: Time, over: Time, done: Time, run: seq<Check>,
                                            t: Time, n: nat)
    requires cfg.Valid() && Bound(cfg, n) <= cfg.duration
    requires Outlasts(cfg, s, last, over, n) && done <= last + cfg.issuing
    requires Legal(cfg, s, last, over, run) && LateFailures(run) <= n
    requires t <= Horizon(cfg, last, done, run)
    ensures t <= ServedAt(s, run, t) + cfg.duration
    decreases |run|
  {
    BoundGrows(cfg, 0, n);
    if run != [] {
      var c := run[0];
      if !(c.outcome.Reissued? && t < c.outcome.installed) {
        assert [c][1..] == [];
        CheckOutlasts(cfg, s, last, over, c, n);
        var m := if c.outcome.FailedAfter? then n - 1 else n;
        BoundGrows(cfg, m, n);
        ServedLongEnough(cfg, After(s, c), if c.Succeeds() then c.at else last, c.Over(),
                         if c.Succeeds() then c.Over() else done, run[1..], t, m);
      }
    }
  }

  // ---- the worst run ----

  function Min(a: Time, b: Time): Time
  {
    if a < b then a else b
  }

  /** Enough checks to let a request grow as old as the margin. */
  function Waits(cfg: Config): nat
    requires cfg.Valid()
  {
    (cfg.margin / cfg.gap).Floor + 1
  }

  lemma WaitsReach(cfg: Config)
    requires cfg.Valid()
    ensures Waits(cfg) as real * cfg.gap >= cfg.margin
  {
    var w := Waits(cfg) as real;
    assert w >= cfg.margin / cfg.gap;
    assert w * cfg.gap >= cfg.margin / cfg.gap * cfg.gap;
  }

  /** The request of `q` is exactly as old as the margin; the next check comes as late as it may. */
  function Worst(cfg: Config, q: Time, n: nat): seq<Check>
    requires cfg.Valid()
    decreases n, 0
  {
    var f := q + cfg.margin + cfg.gap;
    if n == 0 then [Check(f, Reissued(f + cfg.issuing, f + cfg.issuing))]
    else [Check(f, FailedAfter(f)), Check(f, Kept)] + Keeping(cfg, f, f, Waits(cfg), n - 1)
  }

  /** Checks that keep the request of `q` until it is as old as the margin. */
  function Keeping(cfg: Config, q: Time, x: Time, waits: nat, n: nat): seq<Check>
    requires cfg.Valid()
    decreases n, waits + 1
  {
    if x >= q + cfg.margin || waits == 0 then Worst(cfg, q, n)
    else
      var y := Min(x + cfg.gap, q + cfg.margin);
      [Check(y, Kept)] + Keeping(cfg, q, y, waits - 1, n)
  }

  /** A legal run with `n` late failures that serves the old certificate until the bound is reached. */
  ghost predicate Starves(cfg: Config, s: Certs, last: Time, run: seq<Check>, n: nat, t: Time, end: Time)
  {
    && Legal(cfg, s, last, last, run) && LateFailures(run) == n
    && end <= Horizon(cfg, last, last, run)
    && (t < end ==> ServedAt(s, run, t) == s.served)
  }

  lemma {:induction false} WorstStarves(cfg: Config, s: Certs, q: Time, n: nat, t: Time)
    requires cfg.Valid() && s.request == Some(q)
    ensures Starves(cfg, s, q + cfg.margin, Worst(cfg, q, n), n, t, q + Bound(cfg, n))
    decreases n, 0
  {
    var f, run := q + cfg.margin + cfg.gap, Worst(cfg, q, n);
    if n == 0 {
      assert run[1..] == [];
    } else {
      var late, rest := s.(request := Some(f)), Keeping(cfg, f, f, Waits(cfg), n - 1);
      WaitsReach(cfg);
      KeepingStarves(cfg, late, f, f, Waits(cfg), n - 1, t);
      assert run[1..] == [Check(f, Kept)] + rest && run[1..][1..] == rest;
      assert Legal(cfg, late, q + cfg.margin, f, run[1..]);
    }
  }

  lemma {:induction false} KeepingStarves(cfg: Config, s: Certs, q: Time, x: Time, waits: nat, n: nat, t: Time)
    requires cfg.Valid() && s.request == Some(q)
    requires q <= x <= q + cfg.margin && x + waits as real * cfg.gap >= q + cfg.margin
    ensures Starves(cfg, s, x, Keeping(cfg, q, x, waits, n), n, t, q + Bound(cfg, n))
    decreases n, waits + 1
  {
    if x >= q + cfg.margin || waits == 0 {
      WorstStarves(cfg, s, q, n, t);
    } else {
      var y := Min(x + cfg.gap, q + cfg.margin);
      var run := Keeping(cfg, q, x, waits, n);
      assert waits as real * cfg.gap == (waits - 1) as real * cfg.gap + cfg.gap;
      assert (waits - 1) as real * cfg.gap >= 0.0;
      KeepingStarves(cfg, s, q, y, waits - 1, n, t);
      assert run[1..] == Keeping(cfg, q, y, waits - 1, n);
    }
  }

  lemma Refutes(cfg: Config, n: nat, s: Certs, last: Time, over: Time, run: seq<Check>, t: Time)
    requires Checked(cfg, s, last, over) && Legal(cfg, s, last, over, run)
    requires LateFailures(run) <= n && t <= Horizon(cfg, last, over, run) && t > ServedAt(s, run, t) + cfg.duration
    ensures !Tolerates(cfg, n)
  {
    hide Checked;
    hide Legal;
    hide LateFailures;
    hide Horizon;
    hide ServedAt;
  }

  lemma BoundExceeded(cfg: Config, n: nat)
    requires cfg.Valid() && Bound(cfg, n) > cfg.duration
    ensures !Tolerates(cfg, n)
  {
    var s, last := Certs(Some(0.0), 0.0), cfg.margin;
    var t := (Bound(cfg, n) + cfg.duration) / 2.0;
    var run := Worst(cfg, 0.0, n);
    WorstStarves(cfg, s, 0.0, n, t);
    assert Checked(cfg, s, last, last) && Legal(cfg, s, last, last, run) && LateFailures(run) <= n;
    assert t <= Horizon(cfg, last, last, run) && t > ServedAt(s, run, t) + cfg.duration;
    Refutes(cfg, n, s, last, last, run, t);
  }

  /**
   * The bound is exact for every number of late failures, that is, of new requests whose certificate was
   * never installed: later checks look at the age of such a request, not at the certificate served.
   */
  lemma TolerationIff(cfg: Config, n: nat)
    requires cfg.Valid()
    ensures Tolerates(cfg, n) <==> (n + 1) as real * (cfg.margin + cfg.gap) + cfg.issuing <= cfg.duration
  {
    BoundIs(cfg, n);
    if Bound(cfg, n) <= cfg.duration {
      forall s: Certs, last: Time, over: Time, run: seq<Check>, t: Time |
        && Checked(cfg, s, last, over) && Legal(cfg, s, last, over, run)
        && LateFailures(run) <= n && t <= Horizon(cfg, last, over, run)
        ensures t <= ServedAt(s, run, t) + cfg.duration
      {
        ServedLongEnough(cfg, s, last, over, over, run, t, n);
      }
    } else {
      BoundExceeded(cfg, n);
    }
  }

  /** Without late failures, whatever else fails: the rotation deadline. */
  lemma DeadlineIff(cfg: Config)
    requires cfg.Valid()
    ensures Tolerates(cfg, 0) <==> cfg.margin + cfg.gap + cfg.issuing <= cfg.duration
  {
    TolerationIff(cfg, 0);
    assert (0 + 1) as real * (cfg.margin + cfg.gap) == cfg.margin + cfg.gap;
  }

  lemma EnoughGaps(duration: Time, gap: Time) returns (n: nat)
    requires duration > 0.0 && gap > 0.0
    ensures n as real * gap > duration
  {
    var steps := duration / gap;
    n := steps.Floor + 1;
    assert n as real > steps;
    assert steps * gap == duration;
  }

  lemma LongEnough(steps: real, margin: Time, gap: Time)
    requires steps >= 0.0 && margin >= 0.0 && gap > 0.0
    ensures (steps + 1.0) * (margin + gap) >= steps * gap
  {
    assert (steps + 1.0) * (margin + gap) == steps * margin + steps * gap + (margin + gap);
    assert steps * margin >= 0.0;
  }

  /** No configuration tolerates any number of late failures. */
  lemma LateFailuresExpire(cfg: Config) returns (n: nat)
    requires cfg.Valid()
    ensures !Tolerates(cfg, n)
  {
    hide Tolerates;
    n := EnoughGaps(cfg.duration, cfg.gap);
    LongEnough(n as real, cfg.margin, cfg.gap);
    assert (n + 1) as real == n as real + 1.0;
    TolerationIff(cfg, n);
  }

  /** The check at startup only compares margin and duration, which admits configurations that expire. */
  lemma StartupCheckAdmitsExpiry(duration: Time, gap: Time)
    requires duration > 0.0 && gap > 0.0
    ensures var cfg := Config(duration, gap, 0.0, duration);
            cfg.Valid() && !(cfg.margin > cfg.duration) && !Tolerates(cfg, 0)
  {
    DeadlineIff(Config(duration, gap, 0.0, duration));
  }
}
