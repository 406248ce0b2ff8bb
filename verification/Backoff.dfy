/**
 The exponential backoff of reconnection and the loop that uses it.

 Durations are nanoseconds in 64-bit signed integers; the delay is computed in floating point,
 modelled by exact reals, and converted.  A value outside the 64-bit range converts to whatever
 the machine makes of it, `outside` (on amd64 the smallest 64-bit integer, on arm64 the nearest).
 */
module Backoff {
  import opened Prelude
  import opened Connection

  const SECOND: int := 1_000_000_000
  const TWO63: int := 0x8000_0000_0000_0000

  datatype BackoffConfig = BackoffConfig(initialDelay: int, factor: real, maxDelay: int, maxDuration: int)

  const DEFAULT: BackoffConfig := BackoffConfig(5 * SECOND, 2.0, 600 * SECOND, 3600 * SECOND)

  /** Initial delay at least a nanosecond, a delay that does not shrink, limits that allow waiting. */
  predicate Sensible(cfg: BackoffConfig)
  {
    0 < cfg.initialDelay < TWO63 && cfg.factor >= 1.0 && 0 < cfg.maxDelay < TWO63 && 0 <= cfg.maxDuration
  }

  /** initial * factor^attempt, before it is converted and capped. */
  function Raw(cfg: BackoffConfig, attempt: nat): real
  {
    if attempt == 0 then cfg.initialDelay as real else Raw(cfg, attempt - 1) * cfg.factor
  }

  function Power(x: real, n: nat): real
  {
    if n == 0 then 1.0 else x * Power(x, n - 1)
  }

  lemma {:induction false} RawIsPower(cfg: BackoffConfig, attempt: nat)
    ensures Raw(cfg, attempt) == cfg.initialDelay as real * Power(cfg.factor, attempt)
  {
    if attempt > 0 {
      RawIsPower(cfg, attempt - 1);
      var (i, f, p) := (cfg.initialDelay as real, cfg.factor, Power(cfg.factor, attempt - 1));
      assert i * p * f == i * (f * p);
    }
  }

  /** Towards zero. */
  function Truncated(x: real): int
  {
    if x >= 0.0 then x.Floor else -(-x).Floor
  }

  predicate Fits(x: real)
  {
    -TWO63 <= Truncated(x) < TWO63
  }

  type Conversion = real -> int

  function Converted(x: real, outside: Conversion): int
  {
    if Fits(x) then Truncated(x) else outside(x)
  }

  function Min(x: int, y: int): int { if x <= y then x else y }

  /** What the code computes. */
  function Delay(cfg: BackoffConfig, attempt: nat, outside: Conversion): int
  {
    Min(Converted(Raw(cfg, attempt), outside), cfg.maxDelay)
  }

  /** What it is meant to be. */
  function Capped(cfg: BackoffConfig, attempt: nat): int
  {
    Min(Truncated(Raw(cfg, attempt)), cfg.maxDelay)
  }

  method NextDelay(cfg: BackoffConfig, attempt: int, outside: Conversion) returns (d: int)
    ensures d == Delay(cfg, if attempt < 0 then 0 else attempt, outside)
    ensures d <= cfg.maxDelay
  {
    var delay := cfg.initialDelay as real;
    var i := 0;
    while i < attempt
      invariant 0 <= i && (i <= attempt || i == 0)
      invariant delay == Raw(cfg, i)
    {
      delay := delay * cfg.factor;
      i := i + 1;
    }
    d := Converted(delay, outside);
    if d > cfg.maxDelay {
      return cfg.maxDelay;
    }
  }

  predicate IsExhausted(cfg: BackoffConfig, elapsed: int)
  {
    elapsed >= cfg.maxDuration
  }

  lemma {:induction false} RawGrows(cfg: BackoffConfig, m: nat, n: nat)
    requires Sensible(cfg) && m <= n
    ensures 1.0 <= cfg.initialDelay as real <= Raw(cfg, m) <= Raw(cfg, n)
    decreases n
  {
    if n > 0 {
      RawGrows(cfg, if m < n then m else n - 1, n - 1);
      Grows(Raw(cfg, n - 1), cfg.factor);
      assert Raw(cfg, n) == Raw(cfg, n - 1) * cfg.factor;
    }
  }

  lemma Grows(x: real, f: real)
    requires x >= 0.0 && f >= 1.0
    ensures x * f >= x
  {
  }

  /** The capped delay never shrinks, stays within the cap, and is never below both bounds. */
  lemma CappedGrows(cfg: BackoffConfig, m: nat, n: nat)
    requires Sensible(cfg) && m <= n
    ensures Min(cfg.initialDelay, cfg.maxDelay) <= Capped(cfg, m) <= Capped(cfg, n) <= cfg.maxDelay
  {
    RawGrows(cfg, m, n);
  }

  /** The computed delay is the intended one exactly when the product still fits in 64 bits, or the
      machine converts a larger one to something at or above the cap. */
  lemma DelayIsCappedIff(cfg: BackoffConfig, attempt: nat, outside: Conversion)
    requires Sensible(cfg)
    ensures Delay(cfg, attempt, outside) == Capped(cfg, attempt) <==>
            Raw(cfg, attempt) < TWO63 as real || outside(Raw(cfg, attempt)) >= cfg.maxDelay
  {
    RawGrows(cfg, 0, attempt);
  }

  // ----- the reconnection loop

  /** One pass: the time it took besides its planned sleep, and whether its dial succeeded. */
  datatype Pass = Pass(extra: nat, dialed: bool)

  datatype Outcome = Reconnected | GivenUp | Trying

  /** How the loop ended, how many dials it made and how long it meant to sleep altogether. */
  datatype Report = Report(outcome: Outcome, dials: nat, planned: nat)

  function Slept(delay: int): nat
  {
    if delay < 0 then 0 else delay
  }

  function Loop(cfg: BackoffConfig, outside: Conversion, passes: seq<Pass>, attempt: nat, elapsed: nat, planned: nat): Report
    decreases |passes|
  {
    if IsExhausted(cfg, elapsed) then Report(GivenUp, attempt, planned)
    else if passes == [] then Report(Trying, attempt, planned)
    else
      var sleep := Slept(Delay(cfg, attempt, outside));
      if passes[0].dialed then Report(Reconnected, attempt + 1, planned + sleep)
      else Loop(cfg, outside, passes[1..], attempt + 1, elapsed + sleep + passes[0].extra, planned + sleep)
  }

  /** The loop over the passes it gets to make, moving the connection's machine at its end. */
  method ReconnectionLoop(cfg: BackoffConfig, outside: Conversion, peerIdValid: bool, started: nat, passes: seq<Pass>, machine: ConnectionStateMachine)
    returns (r: Report)
    requires machine.Valid()
    modifies machine
    ensures r == if peerIdValid then Loop(cfg, outside, passes, 0, started, 0) else Report(GivenUp, 0, 0)
    ensures machine.state == match r.outcome
                             case Reconnected => Moved(old(machine.state), ReconnectDirect)
                             case GivenUp => Moved(old(machine.state), BackoffExhausted)
                             case Trying => old(machine.state)
    ensures old(machine.state) == Reconnecting ==>
              (machine.state == Connected <==> r.outcome == Reconnected) && (machine.state == Disconnected <==> r.outcome == GivenUp)
  {
    if !peerIdValid {
      var moved := machine.Transition(BackoffExhausted);
      return Report(GivenUp, 0, 0);
    }
    var attempt: nat, elapsed: nat, planned: nat := 0, started, 0;
    while attempt < |passes|
      invariant 0 <= attempt <= |passes|
      invariant machine.state == old(machine.state)
      invariant Loop(cfg, outside, passes, 0, started, 0) == Loop(cfg, outside, passes[attempt..], attempt, elapsed, planned)
    {
      if IsExhausted(cfg, elapsed) {
        var moved := machine.Transition(BackoffExhausted);
        return Report(GivenUp, attempt, planned);
      }
      var delay := NextDelay(cfg, attempt, outside);
      planned := planned + Slept(delay);
      if passes[attempt].dialed {
        var moved := machine.Transition(ReconnectDirect);
        return Report(Reconnected, attempt + 1, planned);
      }
      elapsed := elapsed + Slept(delay) + passes[attempt].extra;
      assert passes[attempt..][1..] == passes[attempt + 1..];
      attempt := attempt + 1;
    }
    if IsExhausted(cfg, elapsed) {
      var moved := machine.Transition(BackoffExhausted);
      return Report(GivenUp, attempt, planned);
    }
    return Report(Trying, attempt, planned);
  }

  // ----- how the loop ends

  /** The time that has passed when pass k begins, if the earlier ones failed. */
  function ElapsedBefore(cfg: BackoffConfig, outside: Conversion, passes: seq<Pass>, started: nat, k: nat): nat
    requires k <= |passes|
  {
    if k == 0 then started
    else ElapsedBefore(cfg, outside, passes, started, k - 1) + Slept(Delay(cfg, k - 1, outside)) + passes[k - 1].extra
  }

  /** The first k dials failed, each made in time. */
  ghost predicate FailedInTime(cfg: BackoffConfig, outside: Conversion, passes: seq<Pass>, started: nat, k: nat)
  {
    && k <= |passes|
    && forall i: nat | i < k :: !passes[i].dialed && ElapsedBefore(cfg, outside, passes, started, i) < cfg.maxDuration
  }

  /** A dial that is made in time and succeeds, after k that failed. */
  ghost predicate SucceedsAt(cfg: BackoffConfig, outside: Conversion, passes: seq<Pass>, started: nat, k: nat)
  {
    && FailedInTime(cfg, outside, passes, started, k) && k < |passes|
    && passes[k].dialed && ElapsedBefore(cfg, outside, passes, started, k) < cfg.maxDuration
  }

  /** The duration is over after k dials that failed. */
  ghost predicate RunsOutAt(cfg: BackoffConfig, outside: Conversion, passes: seq<Pass>, started: nat, k: nat)
  {
    FailedInTime(cfg, outside, passes, started, k) && ElapsedBefore(cfg, outside, passes, started, k) >= cfg.maxDuration
  }

  /** The loop at pass k. */
  function LoopAt(cfg: BackoffConfig, outside: Conversion, passes: seq<Pass>, started: nat, k: nat): Report
    requires k <= |passes|
  {
    Loop(cfg, outside, passes[k..], k, ElapsedBefore(cfg, outside, passes, started, k), PlannedBefore(cfg, outside, k))
  }

  lemma LoopNext(cfg: BackoffConfig, outside: Conversion, passes: seq<Pass>, started: nat, k: nat)
    requires k <= |passes|
    ensures var over := IsExhausted(cfg, ElapsedBefore(cfg, outside, passes, started, k));
            LoopAt(cfg, outside, passes, started, k) ==
            if over then Report(GivenUp, k, PlannedBefore(cfg, outside, k))
            else if k == |passes| then Report(Trying, k, PlannedBefore(cfg, outside, k))
            else if passes[k].dialed then Report(Reconnected, k + 1, PlannedBefore(cfg, outside, k + 1))
            else LoopAt(cfg, outside, passes, started, k + 1)
  {
    if k < |passes| {
      assert passes[k..][1..] == passes[k + 1..];
    }
  }

  lemma OneMoreFailure(cfg: BackoffConfig, outside: Conversion, passes: seq<Pass>, started: nat, k: nat)
    requires FailedInTime(cfg, outside, passes, started, k) && k < |passes|
    requires !passes[k].dialed && !IsExhausted(cfg, ElapsedBefore(cfg, outside, passes, started, k))
    ensures FailedInTime(cfg, outside, passes, started, k + 1)
  {
  }

  /** How a report tells what happened. */
  ghost predicate Tells(cfg: BackoffConfig, outside: Conversion, passes: seq<Pass>, started: nat, r: Report)
  {
    && r.planned == PlannedBefore(cfg, outside, r.dials)
    && match r.outcome
       case Reconnected => r.dials > 0 && SucceedsAt(cfg, outside, passes, started, r.dials - 1)
       case GivenUp => RunsOutAt(cfg, outside, passes, started, r.dials)
       case Trying =>
         && r.dials == |passes| && FailedInTime(cfg, outside, passes, started, |passes|)
         && !IsExhausted(cfg, ElapsedBefore(cfg, outside, passes, started, |passes|))
  }

  lemma {:induction false} LoopFrom(cfg: BackoffConfig, outside: Conversion, passes: seq<Pass>, started: nat, k: nat)
    requires FailedInTime(cfg, outside, passes, started, k)
    ensures Tells(cfg, outside, passes, started, LoopAt(cfg, outside, passes, started, k))
    decreases |passes| - k
  {
    LoopNext(cfg, outside, passes, started, k);
    if !IsExhausted(cfg, ElapsedBefore(cfg, outside, passes, started, k)) && k < |passes| && !passes[k].dialed {
      OneMoreFailure(cfg, outside, passes, started, k);
      LoopFrom(cfg, outside, passes, started, k + 1);
    }
  }

  /** A dial that ends the loop comes after every dial that failed in time. */
  lemma EndIsLast(cfg: BackoffConfig, outside: Conversion, passes: seq<Pass>, started: nat, j: nat, k: nat)
    requires SucceedsAt(cfg, outside, passes, started, j) || RunsOutAt(cfg, outside, passes, started, j)
    requires FailedInTime(cfg, outside, passes, started, k)
    ensures k <= j
  {
  }

  /** Two ways to end exclude each other, and each can happen at one dial only. */
  lemma OneEnd(cfg: BackoffConfig, outside: Conversion, passes: seq<Pass>, started: nat, j: nat, k: nat)
    ensures SucceedsAt(cfg, outside, passes, started, j) && SucceedsAt(cfg, outside, passes, started, k) ==> j == k
    ensures RunsOutAt(cfg, outside, passes, started, j) && RunsOutAt(cfg, outside, passes, started, k) ==> j == k
    ensures SucceedsAt(cfg, outside, passes, started, j) ==> !RunsOutAt(cfg, outside, passes, started, k)
  {
    var ended := (i: nat) => SucceedsAt(cfg, outside, passes, started, i) || RunsOutAt(cfg, outside, passes, started, i);
    if ended(j) && ended(k) {
      EndIsLast(cfg, outside, passes, started, j, k);
      EndIsLast(cfg, outside, passes, started, k, j);
    }
  }

  /** For every trace: the loop has reconnected exactly when some dial succeeds after only failures,
      all made before the duration was over, and has given up exactly when the duration was over
      first; the dials it reports are those, and the planned sleep what comes before them. */
  lemma LoopOutcome(cfg: BackoffConfig, outside: Conversion, passes: seq<Pass>, started: nat)
    ensures var r := Loop(cfg, outside, passes, 0, started, 0);
            && r.planned == PlannedBefore(cfg, outside, r.dials)
            && (r.outcome == Reconnected <==> exists k: nat :: SucceedsAt(cfg, outside, passes, started, k))
            && (r.outcome == GivenUp <==> exists k: nat :: RunsOutAt(cfg, outside, passes, started, k))
            && (forall k: nat :: SucceedsAt(cfg, outside, passes, started, k) ==> r.dials == k + 1)
            && (forall k: nat :: RunsOutAt(cfg, outside, passes, started, k) ==> r.dials == k)
  {
    LoopFrom(cfg, outside, passes, started, 0);
    assert passes[0..] == passes;
    var r := Loop(cfg, outside, passes, 0, started, 0);
    forall k: nat
      ensures SucceedsAt(cfg, outside, passes, started, k) ==> r.outcome == Reconnected && r.dials == k + 1
      ensures RunsOutAt(cfg, outside, passes, started, k) ==> r.outcome == GivenUp && r.dials == k
    {
      if r.outcome == Reconnected {
        OneEnd(cfg, outside, passes, started, r.dials - 1, k);
      } else if r.outcome == GivenUp {
        OneEnd(cfg, outside, passes, started, r.dials, k);
        OneEnd(cfg, outside, passes, started, k, r.dials);
      }
    }
  }

  /** Planned sleep overshoots the maximum duration by at most one capped delay, whatever the
      configuration and however the conversions come out. */
  lemma {:induction false} PlannedSleepIsBounded(
      cfg: BackoffConfig, outside: Conversion, passes: seq<Pass>, attempt: nat, elapsed: nat, planned: nat)
    requires 0 <= cfg.maxDelay && 0 <= cfg.maxDuration
    requires planned <= elapsed && planned <= cfg.maxDuration + cfg.maxDelay
    ensures Loop(cfg, outside, passes, attempt, elapsed, planned).planned <= cfg.maxDuration + cfg.maxDelay
    decreases |passes|
  {
    if !IsExhausted(cfg, elapsed) && passes != [] {
      var sleep := Slept(Delay(cfg, attempt, outside));
      if !passes[0].dialed {
        PlannedSleepIsBounded(cfg, outside, passes[1..], attempt + 1, elapsed + sleep + passes[0].extra, planned + sleep);
      }
    }
  }

  /** The sleep planned before the nth dial. */
  function PlannedBefore(cfg: BackoffConfig, outside: Conversion, n: nat): nat
  {
    if n == 0 then 0 else PlannedBefore(cfg, outside, n - 1) + Slept(Delay(cfg, n - 1, outside))
  }

  /** When the sleep planned before dial n exhausts the duration, the loop makes at most n dials
      and is over once it has made them. */
  lemma {:induction false} DialsAreBounded(
      cfg: BackoffConfig, outside: Conversion, n: nat, passes: seq<Pass>, attempt: nat, elapsed: nat, planned: nat)
    requires PlannedBefore(cfg, outside, n) >= cfg.maxDuration
    requires attempt <= n && elapsed >= PlannedBefore(cfg, outside, attempt)
    ensures var r := Loop(cfg, outside, passes, attempt, elapsed, planned);
            r.dials <= n && (r.outcome == Trying ==> attempt + |passes| < n)
    decreases |passes|
  {
    if !IsExhausted(cfg, elapsed) && passes != [] && !passes[0].dialed {
      var sleep := Slept(Delay(cfg, attempt, outside));
      DialsAreBounded(cfg, outside, n, passes[1..], attempt + 1, elapsed + sleep + passes[0].extra, planned + sleep);
    }
  }

  /** Whatever its passes take, the loop is over once it has made n dials. */
  ghost predicate EndsWithin(cfg: BackoffConfig, outside: Conversion, n: nat)
  {
    forall passes: seq<Pass>, started: nat ::
      var r := Loop(cfg, outside, passes, 0, started, 0);
      r.dials <= n && (|passes| >= n ==> r.outcome != Trying)
  }

  /** Exactly when the sleep planned before dial n exhausts the duration, for every configuration
      and every conversion. */
  lemma EndsWithinIff(cfg: BackoffConfig, outside: Conversion, n: nat)
    ensures EndsWithin(cfg, outside, n) <==> PlannedBefore(cfg, outside, n) >= cfg.maxDuration
  {
    if PlannedBefore(cfg, outside, n) >= cfg.maxDuration {
      forall passes: seq<Pass>, started: nat
        ensures var r := Loop(cfg, outside, passes, 0, started, 0);
                r.dials <= n && (|passes| >= n ==> r.outcome != Trying)
      {
        DialsAreBounded(cfg, outside, n, passes, 0, started, 0);
      }
    } else {
      forall k: nat | k < 0 + n
        ensures PlannedBefore(cfg, outside, k) < cfg.maxDuration
      {
        PlannedIsMonotone(cfg, outside, k, n);
      }
      FailuresAddUp(cfg, outside, n, 0);
      assert Loop(cfg, outside, Failures(n), 0, 0, 0).outcome == Trying;
    }
  }

  /** The sleep that is meant to be planned before the nth dial. */
  function IntendedBefore(cfg: BackoffConfig, n: nat): int
  {
    if n == 0 then 0 else IntendedBefore(cfg, n - 1) + Capped(cfg, n - 1)
  }

  lemma {:induction false} IntendedGrows(cfg: BackoffConfig, n: nat)
    requires Sensible(cfg)
    ensures IntendedBefore(cfg, n) >= n * Min(cfg.initialDelay, cfg.maxDelay)
  {
    if n > 0 {
      IntendedGrows(cfg, n - 1);
      CappedGrows(cfg, n - 1, n - 1);
      var m := Min(cfg.initialDelay, cfg.maxDelay);
      assert n * m == (n - 1) * m + m;
    }
  }

  /** A number of dials that is enough for every sensible configuration. */
  function DialBound(cfg: BackoffConfig): (n: nat)
    requires Sensible(cfg)
    ensures n * Min(cfg.initialDelay, cfg.maxDelay) >= cfg.maxDuration
  {
    var m := Min(cfg.initialDelay, cfg.maxDelay);
    var n := cfg.maxDuration / m;
    assert cfg.maxDuration == n * m + cfg.maxDuration % m;
    assert (n + 1) * m == n * m + m;
    n + 1
  }

  /** The dials that the intended delays allow, from n on. */
  function DialsFrom(cfg: BackoffConfig, n: nat): (d: nat)
    requires Sensible(cfg) && n <= DialBound(cfg)
    ensures n <= d <= DialBound(cfg) && IntendedBefore(cfg, d) >= cfg.maxDuration
    ensures forall k: nat | n <= k < d :: IntendedBefore(cfg, k) < cfg.maxDuration
    decreases DialBound(cfg) - n
  {
    IntendedGrows(cfg, n);
    if IntendedBefore(cfg, n) >= cfg.maxDuration then n else DialsFrom(cfg, n + 1)
  }

  lemma {:induction false} PlannedIsIntended(cfg: BackoffConfig, outside: Conversion, n: nat)
    requires Sensible(cfg) && forall a: nat | a < n :: Delay(cfg, a, outside) == Capped(cfg, a)
    ensures PlannedBefore(cfg, outside, n) == IntendedBefore(cfg, n)
  {
    if n > 0 {
      PlannedIsIntended(cfg, outside, n - 1);
      CappedGrows(cfg, n - 1, n - 1);
    }
  }

  /** For any factor of at least 1 and positive delays the loop terminates: after the dials that the
      intended delays allow, and not always before, provided that those delays come out as
      intended.  With exact arithmetic, or a conversion that saturates, all of them do. */
  lemma LoopTerminates(cfg: BackoffConfig, outside: Conversion)
    requires Sensible(cfg)
    requires forall a: nat | a < DialsFrom(cfg, 0) :: Delay(cfg, a, outside) == Capped(cfg, a)
    ensures forall n: nat :: EndsWithin(cfg, outside, n) <==> n >= DialsFrom(cfg, 0)
  {
    var d := DialsFrom(cfg, 0);
    forall n: nat
      ensures EndsWithin(cfg, outside, n) <==> n >= d
    {
      EndsWithinIff(cfg, outside, n);
      if n >= d {
        PlannedIsIntended(cfg, outside, d);
        PlannedIsMonotone(cfg, outside, d, n);
      } else {
        PlannedIsIntended(cfg, outside, n);
      }
    }
  }

  // ----- the default settings

  lemma DefaultRaw(n: nat, seconds: int)
    requires Raw(DEFAULT, n) == (seconds * SECOND) as real
    ensures Raw(DEFAULT, n + 1) == (2 * seconds * SECOND) as real
  {
  }

  lemma DefaultDelay(n: nat, seconds: nat, outside: Conversion)
    requires Raw(DEFAULT, n) == (seconds * SECOND) as real && seconds <= 10240
    ensures Delay(DEFAULT, n, outside) == Min(seconds, 600) * SECOND
    ensures PlannedBefore(DEFAULT, outside, n + 1) == PlannedBefore(DEFAULT, outside, n) + Min(seconds, 600) * SECOND
    ensures Raw(DEFAULT, n + 1) == (2 * seconds * SECOND) as real
  {
    DefaultRaw(n, seconds);
  }

  lemma DefaultPlanned(outside: Conversion)
    ensures PlannedBefore(DEFAULT, outside, 11) == 3035 * SECOND
    ensures PlannedBefore(DEFAULT, outside, 12) == 3635 * SECOND
  {
    DefaultDelay(0, 5, outside);
    DefaultDelay(1, 10, outside);
    DefaultDelay(2, 20, outside);
    DefaultDelay(3, 40, outside);
    DefaultDelay(4, 80, outside);
    DefaultDelay(5, 160, outside);
    DefaultDelay(6, 320, outside);
    DefaultDelay(7, 640, outside);
    DefaultDelay(8, 1280, outside);
    DefaultDelay(9, 2560, outside);
    DefaultDelay(10, 5120, outside);
    DefaultDelay(11, 10240, outside);
  }

  /** By default at most twelve dials are made, so only attempts 0 to 11 are ever asked for. */
  lemma DefaultMakesAtMostTwelveDials(outside: Conversion, passes: seq<Pass>, started: nat)
    ensures var r := Loop(DEFAULT, outside, passes, 0, started, 0);
            r.dials <= 12 && (|passes| >= 12 ==> r.outcome != Trying)
  {
    DefaultPlanned(outside);
    DialsAreBounded(DEFAULT, outside, 12, passes, 0, started, 0);
  }

  /** The default settings are among those for which LoopTerminates holds, whatever the conversion. */
  lemma DefaultDelaysAreIntended(outside: Conversion)
    ensures DialsFrom(DEFAULT, 0) == 12
    ensures forall a: nat | a < 12 :: Delay(DEFAULT, a, outside) == Capped(DEFAULT, a)
  {
    DefaultPlanned(outside);
    forall a: nat | a < 12
      ensures Delay(DEFAULT, a, outside) == Capped(DEFAULT, a)
    {
      DefaultOverflowsAtAttempt31();
      RawGrows(DEFAULT, a, 30);
      DelayIsCappedIff(DEFAULT, a, outside);
    }
    PlannedIsIntended(DEFAULT, outside, 11);
    PlannedIsIntended(DEFAULT, outside, 12);
    var d := DialsFrom(DEFAULT, 0);
    if d < 12 {
      PlannedIsIntended(DEFAULT, outside, d);
      PlannedIsMonotone(DEFAULT, outside, d, 11);
    }
  }

  /** By default a loop gives up exactly when the last dial of an unbroken series of failures ends an
      hour or more after the start. */
  lemma DefaultGivesUpAfterAnHour(outside: Conversion, passes: seq<Pass>)
    ensures Loop(DEFAULT, outside, passes, 0, 0, 0).outcome == GivenUp <==>
            exists k: nat :: FailedInTime(DEFAULT, outside, passes, 0, k)
                             && ElapsedBefore(DEFAULT, outside, passes, 0, k) >= 3_600_000_000_000
  {
    LoopOutcome(DEFAULT, outside, passes, 0);
    if k: nat :| RunsOutAt(DEFAULT, outside, passes, 0, k) {
      assert FailedInTime(DEFAULT, outside, passes, 0, k);
    }
    if k: nat :| FailedInTime(DEFAULT, outside, passes, 0, k) && ElapsedBefore(DEFAULT, outside, passes, 0, k) >= 3_600_000_000_000 {
      assert RunsOutAt(DEFAULT, outside, passes, 0, k);
    }
  }

  function Failures(n: nat): seq<Pass>
  {
    seq(n, i => Pass(0, false))
  }

  /** Without anything but the planned sleeps, n failures lead to just before dial n. */
  lemma {:induction false} FailuresAddUp(cfg: BackoffConfig, outside: Conversion, n: nat, attempt: nat)
    requires forall k: nat | k < attempt + n :: PlannedBefore(cfg, outside, k) < cfg.maxDuration
    ensures var e := PlannedBefore(cfg, outside, attempt);
            var f := PlannedBefore(cfg, outside, attempt + n);
            Loop(cfg, outside, Failures(n), attempt, e, e) ==
            Report(if f >= cfg.maxDuration then GivenUp else Trying, attempt + n, f)
    decreases n
  {
    if n > 0 {
      assert Failures(n)[1..] == Failures(n - 1);
      FailuresAddUp(cfg, outside, n - 1, attempt + 1);
    }
  }

  lemma {:induction false} PlannedIsMonotone(cfg: BackoffConfig, outside: Conversion, m: nat, n: nat)
    requires m <= n
    ensures PlannedBefore(cfg, outside, m) <= PlannedBefore(cfg, outside, n)
    decreases n
  {
    if m < n {
      PlannedIsMonotone(cfg, outside, m, n - 1);
    }
  }

  /** The twelve are made when every dial fails at once. */
  lemma DefaultCanMakeTwelveDials(outside: Conversion)
    ensures Loop(DEFAULT, outside, Failures(12), 0, 0, 0) == Report(GivenUp, 12, 3635 * SECOND)
  {
    DefaultPlanned(outside);
    forall k: nat | k < 12
      ensures PlannedBefore(DEFAULT, outside, k) < DEFAULT.maxDuration
    {
      PlannedIsMonotone(DEFAULT, outside, k, 11);
    }
    FailuresAddUp(DEFAULT, outside, 12, 0);
  }

  lemma {:induction false} DefaultDoubles(n: nat, k: nat, seconds: int)
    requires Raw(DEFAULT, n) == (seconds * SECOND) as real
    ensures Raw(DEFAULT, n + k) == (Doubled(seconds, k) * SECOND) as real
    decreases k
  {
    if k > 0 {
      DefaultRaw(n, seconds);
      DefaultDoubles(n + 1, k - 1, 2 * seconds);
    }
  }

  function Doubled(x: int, k: nat): int
    decreases k
  {
    if k == 0 then x else Doubled(2 * x, k - 1)
  }

  /** The default product outgrows 64 bits at attempt 31, which a longer duration would reach. */
  lemma DefaultOverflowsAtAttempt31()
    ensures Raw(DEFAULT, 30) < TWO63 as real <= Raw(DEFAULT, 31)
  {
    DefaultDoubles(0, 10, 5);
    assert Doubled(5, 10) == 5120;
    DefaultDoubles(10, 10, 5120);
    assert Doubled(5120, 10) == 5242880;
    DefaultDoubles(20, 10, 5242880);
    assert Doubled(5242880, 10) == 5368709120;
    DefaultRaw(30, 5368709120);
  }

  /** Past an overflow to a value that is not positive the loop no longer waits between dials: the
      planned sleep stops growing, however many passes are made. */
  lemma {:induction false} OverflowStopsWaiting(cfg: BackoffConfig, outside: Conversion, n: nat, attempt: nat, elapsed: nat, planned: nat)
    requires Sensible(cfg) && Raw(cfg, attempt) >= TWO63 as real && elapsed < cfg.maxDuration
    requires forall x | x >= TWO63 as real :: outside(x) <= 0
    ensures Loop(cfg, outside, Failures(n), attempt, elapsed, planned) == Report(Trying, attempt + n, planned)
    decreases n
  {
    if n > 0 {
      RawGrows(cfg, attempt, attempt + 1);
      assert Failures(n)[1..] == Failures(n - 1);
      OverflowStopsWaiting(cfg, outside, n - 1, attempt + 1, elapsed, planned);
    }
  }
}
