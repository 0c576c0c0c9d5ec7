/** The circuit breaker of platform_sdk/resilience.py.

    Time is a `real` read from a monotonic clock that starts at or after zero. */
module Resilience {

  import opened Common

  /** Construction-time settings; neither is validated by the source. */
  datatype Settings = Settings(threshold: int, recovery: real)

  /** The two mutable fields, `_failures` and `_open_until`. */
  datatype Breaker = Breaker(failures: nat, openUntil: real)

  const INITIAL := Breaker(0, 0.0)

  predicate Open(b: Breaker, cfg: Settings, now: real) {
    b.failures >= cfg.threshold && now < b.openUntil
  }

  function Succeeded(b: Breaker): Breaker {
    b.(failures := 0)
  }

  function Failed(b: Breaker, cfg: Settings, now: real): Breaker {
    var n := b.failures + 1;
    Breaker(n, if n >= cfg.threshold then now + cfg.recovery else b.openUntil)
  }

  class CircuitBreaker {
    const settings: Settings
    var failures: nat
    var openUntil: real

    function State(): Breaker
      reads this
    {
      Breaker(failures, openUntil)
    }

    constructor (settings: Settings)
      ensures this.settings == settings && State() == INITIAL
    {
      this.settings := settings;
      failures, openUntil := 0, 0.0;
    }

    method IsOpen(now: real) returns (open: bool)
      ensures open <==> Open(State(), settings, now)
    {
      if failures < settings.threshold {
        return false;
      }
      if now >= openUntil {
        return false;
      }
      return true;
    }

    method RecordSuccess()
      modifies this
      ensures State() == Succeeded(old(State()))
    {
      failures := 0;
    }

    method RecordFailure(now: real)
      modifies this
      ensures State() == Failed(old(State()), settings, now)
    {
      failures := failures + 1;
      if failures >= settings.threshold {
        openUntil := now + settings.recovery;
      }
    }
  }

  // ----- What the two fields mean, over every history -----

  datatype Event = Success | Failure(at: real)

  function Replay(cfg: Settings, history: seq<Event>): Breaker {
    if history == [] then INITIAL
    else
      var before := Replay(cfg, history[..|history| - 1]);
      match history[|history| - 1]
      case Success => Succeeded(before)
      case Failure(at) => Failed(before, cfg, at)
  }

  /** Failures recorded since the last success. */
  function Streak(history: seq<Event>): nat {
    if history == [] || history[|history| - 1].Success? then 0
    else 1 + Streak(history[..|history| - 1])
  }

  function LastFailure(history: seq<Event>): Option<real> {
    if history == [] then None
    else if history[|history| - 1].Failure? then Some(history[|history| - 1].at)
    else LastFailure(history[..|history| - 1])
  }

  /** The breaker is open exactly while the streak has reached the threshold and less than the
      recovery time has passed since the last failure. It holds for every threshold, also zero
      and negative ones. */
  lemma {:induction false} BreakerMeaning(cfg: Settings, history: seq<Event>, now: real)
    requires now >= 0.0
    ensures Replay(cfg, history).failures == Streak(history)
    ensures Open(Replay(cfg, history), cfg, now) <==>
              && Streak(history) >= cfg.threshold
              && LastFailure(history).Some?
              && now < LastFailure(history).value + cfg.recovery
  {
    FieldsMeaning(cfg, history);
  }

  lemma {:induction false} FieldsMeaning(cfg: Settings, history: seq<Event>)
    ensures var b := Replay(cfg, history);
            && b.failures == Streak(history)
            && (LastFailure(history).None? ==> b.openUntil == 0.0)
            && (b.failures >= cfg.threshold && LastFailure(history).Some? ==>
                  b.openUntil == LastFailure(history).value + cfg.recovery)
  {
    if history != [] {
      FieldsMeaning(cfg, history[..|history| - 1]);
    }
  }
}
