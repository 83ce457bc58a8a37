/** The timer of a collector (cgi-bin/src/collector/scheduler.js): one pending timer between
    callbacks, exponential backoff after failures.

    Delays are reals. A timer is pending from the moment it is set until it fires or is cleared. */
module Scheduler {
  import opened Options

  datatype Retry = Retry(initialDelayMs: int, maximumDelayMs: int, multiplier: real)

  /** The retry check of validateJobConfig. */
  predicate ValidRetry(r: Retry) {
    1 <= r.initialDelayMs <= r.maximumDelayMs <= 86400000 && 1.0 <= r.multiplier <= 100.0
  }

  datatype Settings = Settings(intervalMs: int, retry: Retry)

  function Pow(base: real, exponent: nat): real {
    if exponent == 0 then 1.0 else base * Pow(base, exponent - 1)
  }

  function Grown(r: Retry, exponent: nat): real { r.initialDelayMs as real * Pow(r.multiplier, exponent) }

  function MinReal(a: real, b: real): real { if a < b then a else b }

  /** calculateNextDelay. */
  function NextDelay(success: bool, consecutiveFailures: nat, s: Settings): real {
    if success then s.intervalMs as real
    else
      var exponent := if consecutiveFailures > 1 then consecutiveFailures - 1 else 0;
      MinReal(s.retry.maximumDelayMs as real, Grown(s.retry, exponent))
  }

  // ---------------------------------------------------------------- the scheduler as a state machine

  /** `pending` maps each pending timer to its delay; `next` is the name of the next timer. */
  datatype State = State(timer: Option<nat>, stopped: bool, failures: nat, pending: map<nat, real>, next: nat)

  const INITIAL := State(None, true, 0, map[], 0)

  /** schedule. */
  function Scheduled(s: State, delay: real): State {
    if s.stopped then s
    else s.(timer := Some(s.next), pending := s.pending[s.next := delay], next := s.next + 1)
  }

  /** execute, for what its run returned. */
  function Executed(s: State, success: bool, settings: Settings): State {
    if s.stopped then s
    else
      var failures := if success then 0 else s.failures + 1;
      Scheduled(s.(failures := failures), NextDelay(success, failures, settings))
  }

  datatype Event = Started(success: bool) | Fired(id: nat, success: bool) | Stopped

  /** A timer can only fire while it is pending. */
  predicate Possible(s: State, e: Event) { e.Fired? ==> e.id in s.pending }

  function Step(s: State, e: Event, settings: Settings): State {
    match e
    case Started(success) => if !s.stopped then s else Executed(s.(stopped := false), success, settings)
    case Fired(id, success) => Executed(s.(pending := s.pending - {id}), success, settings)
    case Stopped =>
      s.(stopped := true, timer := None, pending := if s.timer.Some? then s.pending - {s.timer.value} else s.pending)
  }

  /** A run from the beginning: every event was possible when it happened. */
  predicate Run(events: seq<Event>, settings: Settings) {
    events == [] || (Run(events[..|events| - 1], settings)
                     && Possible(After(events[..|events| - 1], settings), events[|events| - 1]))
  }

  function After(events: seq<Event>, settings: Settings): State {
    if events == [] then INITIAL else Step(After(events[..|events| - 1], settings), events[|events| - 1], settings)
  }

  /** Between callbacks. */
  predicate Settled(s: State) {
    (s.stopped ==> s.pending == map[] && s.timer == None)
    && (!s.stopped ==> s.timer.Some? && s.pending.Keys == {s.timer.value} && s.timer.value < s.next)
  }

  lemma StepSettles(s: State, e: Event, settings: Settings)
    requires Settled(s) && Possible(s, e)
    ensures Settled(Step(s, e, settings))
    ensures e.Stopped? ==> Step(s, e, settings).pending == map[]
  {
    match e {
      case Started(_) =>
      case Fired(id, _) => assert s.pending - {id} == map[];
      case Stopped => if s.timer.Some? { assert s.pending - {s.timer.value} == map[]; }
    }
  }

  /** In every run there is exactly one pending timer between callbacks while the scheduler is
      started, and none once it is stopped. */
  lemma {:induction false} OnePending(events: seq<Event>, settings: Settings)
    requires Run(events, settings)
    ensures Settled(After(events, settings))
    ensures var s := After(events, settings);
      (s.stopped ==> |s.pending| == 0) && (!s.stopped ==> |s.pending| == 1 && s.timer.value in s.pending)
  {
    if events == [] {
    } else {
      var before := events[..|events| - 1];
      OnePending(before, settings);
      StepSettles(After(before, settings), events[|events| - 1], settings);
    }
    var s := After(events, settings);
    if !s.stopped { assert |s.pending.Keys| == |{s.timer.value}| == 1; }
  }

  // ---------------------------------------------------------------- backoff

  /** The events that ran a cycle: a start of a stopped scheduler, or a timer. */
  predicate Ran(events: seq<Event>, i: nat, settings: Settings)
    requires i < |events|
  {
    match events[i]
    case Started(_) => After(events[..i], settings).stopped
    case Fired(_, _) => true
    case Stopped => false
  }

  /** How many of the last cycles failed, counted in the events themselves. A stop does not
      start the count anew. */
  function FailuresIn(events: seq<Event>, settings: Settings): nat {
    if events == [] then 0
    else
      var n := |events| - 1;
      var before := FailuresIn(events[..n], settings);
      if !Ran(events, n, settings) then before
      else if events[n].success then 0 else before + 1
  }

  function DelayAfter(k: nat, settings: Settings): real {
    if k == 0 then settings.intervalMs as real
    else MinReal(settings.retry.maximumDelayMs as real, Grown(settings.retry, k - 1))
  }

  predicate Delayed(s: State, settings: Settings) {
    s.stopped || (s.timer.Some? && s.timer.value in s.pending
        && s.pending[s.timer.value] == DelayAfter(s.failures, settings))
  }

  lemma StepDelays(s: State, e: Event, settings: Settings)
    requires Delayed(s, settings) && Settled(s) && Possible(s, e)
    ensures Delayed(Step(s, e, settings), settings)
  {
    hide NextDelay, DelayAfter;
    DelayMatches(s.failures, settings);
  }

  lemma DelayMatches(failures: nat, settings: Settings)
    ensures NextDelay(true, 0, settings) == DelayAfter(0, settings)
    ensures NextDelay(false, failures + 1, settings) == DelayAfter(failures + 1, settings)
  {
  }

  /** After k failed cycles in a row the pending timer has the delay
      min(maximum, initial * multiplier^(k-1)), and the interval after a successful one. */
  lemma {:induction false} Backoff(events: seq<Event>, settings: Settings)
    requires Run(events, settings)
    ensures After(events, settings).failures == FailuresIn(events, settings)
    ensures Delayed(After(events, settings), settings)
  {
    hide DelayAfter, NextDelay, Delayed;
    if events == [] {
      NoDelay(settings);
    } else {
      var before := events[..|events| - 1];
      Backoff(before, settings);
      OnePending(before, settings);
      StepDelays(After(before, settings), events[|events| - 1], settings);
    }
  }

  lemma NoDelay(settings: Settings)
    ensures Delayed(INITIAL, settings)
  {
  }

  lemma {:induction false} PowGrows(base: real, exponent: nat)
    requires base >= 1.0
    ensures 1.0 <= Pow(base, exponent) <= Pow(base, exponent + 1)
  {
    if exponent == 0 {
    } else {
      PowGrows(base, exponent - 1);
    }
    Grows(base, Pow(base, exponent));
  }

  lemma Grows(base: real, p: real)
    requires base >= 1.0 && p >= 1.0
    ensures base * p >= p
  {
    assert (base - 1.0) * p >= 0.0;
  }

  lemma Scales(a: real, p: real, q: real)
    requires a >= 0.0 && p <= q
    ensures a * p <= a * q
  {
    assert a * (q - p) >= 0.0;
  }

  /** With a valid retry the delay never falls from one failure to the next and stays between
      the initial and the maximum delay. */
  lemma BackoffBounds(k: nat, settings: Settings)
    requires k >= 1 && ValidRetry(settings.retry)
    ensures settings.retry.initialDelayMs as real <= NextDelay(false, k, settings)
    ensures NextDelay(false, k, settings) <= settings.retry.maximumDelayMs as real
    ensures NextDelay(false, k, settings) <= NextDelay(false, k + 1, settings)
  {
    hide Grown;
    GrownGrows(settings.retry, k - 1);
  }

  lemma GrownGrows(r: Retry, exponent: nat)
    requires r.initialDelayMs >= 1 && r.multiplier >= 1.0
    ensures r.initialDelayMs as real <= Grown(r, exponent) <= Grown(r, exponent + 1)
  {
    PowGrows(r.multiplier, exponent);
    Scales(r.initialDelayMs as real, 1.0, Pow(r.multiplier, exponent));
    Scales(r.initialDelayMs as real, Pow(r.multiplier, exponent), Pow(r.multiplier, exponent + 1));
  }

  // ---------------------------------------------------------------- the scheduler itself

  /** createScheduler. The timers are part of the object's surroundings; what a run returns is
      given to the method that makes it. */
  class Timer {
    const settings: Settings
    var timer: Option<nat>
    var stopped: bool
    var failures: nat
    var pending: map<nat, real>
    var next: nat

    function Now(): State
      reads this
    {
      State(timer, stopped, failures, pending, next)
    }

    constructor (settings: Settings)
      ensures this.settings == settings && Now() == INITIAL
    {
      this.settings := settings;
      timer, stopped, failures, pending, next := None, true, 0, map[], 0;
    }

    method Arm(delay: real)
      modifies this
      ensures Now() == Scheduled(old(Now()), delay)
    {
      if stopped { return; }
      pending := pending[next := delay];
      timer := Some(next);
      next := next + 1;
    }

    method Execute(success: bool)
      modifies this
      ensures Now() == Executed(old(Now()), success, settings)
    {
      if stopped { return; }
      failures := if success then 0 else failures + 1;
      Arm(NextDelay(success, failures, settings));
    }

    method Start(success: bool)
      modifies this
      ensures Now() == Step(old(Now()), Started(success), settings)
    {
      if !stopped { return; }
      stopped := false;
      Execute(success);
    }

    method Fire(id: nat, success: bool)
      requires id in pending
      modifies this
      ensures Now() == Step(old(Now()), Fired(id, success), settings)
    {
      pending := pending - {id};
      Execute(success);
    }

    method Stop()
      modifies this
      ensures Now() == Step(old(Now()), Stopped, settings)
      ensures old(Settled(Now())) ==> pending == map[]
    {
      StopClears(Now(), settings);
      stopped := true;
      if timer.Some? { pending := pending - {timer.value}; }
      timer := None;
    }
  }

  lemma StopClears(s: State, settings: Settings)
    ensures Settled(s) ==> Step(s, Stopped, settings).pending == map[]
  {
    if Settled(s) { StepSettles(s, Stopped, settings); }
  }
}
