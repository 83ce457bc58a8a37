/** Job intervals: the multiples of a task period offered by frontend/src/model.js, and the check
    of an interval in cgi-bin/src/jobs/validator.js.

    A number is a real or one of the values that are not finite; all of those are treated alike. */
module Interval {
  const MAX_INTERVAL_MS: int := 86400000

  datatype Num = Finite(value: real) | NotFinite

  predicate IsInteger(n: Num) { n.Finite? && n.value == n.value.Floor as real }

  function Max(a: int, b: int): int { if a < b then b else a }

  function Min(a: int, b: int): int { if a < b then a else b }

  function Ceil(x: real): (r: int)
    ensures r as real - 1.0 < x <= r as real
  {
    -((-x).Floor)
  }

  // ---------------------------------------------------------------- the frontend

  /** taskPeriodMs. */
  function TaskPeriodMs(value: Num): (r: int)
    ensures 1 <= r <= MAX_INTERVAL_MS
    ensures IsInteger(value) && 1.0 <= value.value <= MAX_INTERVAL_MS as real ==> r as real == value.value
    ensures !(IsInteger(value) && 1.0 <= value.value <= MAX_INTERVAL_MS as real) ==> r == 1
  {
    if IsInteger(value) && 1 <= value.value.Floor <= MAX_INTERVAL_MS then value.value.Floor else 1
  }

  /** maxIntervalMultiplier. */
  function MaxIntervalMultiplier(periodMs: Num): (r: int)
    ensures r >= 1 && r * TaskPeriodMs(periodMs) <= MAX_INTERVAL_MS < (r + 1) * TaskPeriodMs(periodMs)
  {
    Max(1, MAX_INTERVAL_MS / TaskPeriodMs(periodMs))
  }

  /** intervalMultiplier. */
  function IntervalMultiplier(periodMs: Num, intervalMs: Num): (r: int)
    ensures 1 <= r <= MaxIntervalMultiplier(periodMs)
  {
    var period := TaskPeriodMs(periodMs);
    var multiplier := if intervalMs.Finite? then Ceil(intervalMs.value / period as real) else 1;
    SamePeriod(periodMs);
    Min(MaxIntervalMultiplier(Finite(period as real)), Max(1, multiplier))
  }

  /** intervalMsFromMultiplier. */
  function IntervalMsFromMultiplier(periodMs: Num, multiplier: Num): (r: int)
    ensures r % TaskPeriodMs(periodMs) == 0 && TaskPeriodMs(periodMs) <= r <= MAX_INTERVAL_MS
  {
    var period := TaskPeriodMs(periodMs);
    var normalized := if multiplier.Finite? then Ceil(multiplier.value) else 1;
    SamePeriod(periodMs);
    var factor := Min(MaxIntervalMultiplier(Finite(period as real)), Max(1, normalized));
    Scaled(period, factor, MaxIntervalMultiplier(periodMs));
    period * factor
  }

  /** A normalised period is its own normal form. */
  lemma SamePeriod(periodMs: Num)
    ensures TaskPeriodMs(Finite(TaskPeriodMs(periodMs) as real)) == TaskPeriodMs(periodMs)
    ensures MaxIntervalMultiplier(Finite(TaskPeriodMs(periodMs) as real)) == MaxIntervalMultiplier(periodMs)
  {
  }

  lemma Scaled(period: int, k: int, limit: int)
    requires period >= 1 && 1 <= k <= limit
    ensures period <= period * k <= limit * period && (period * k) % period == 0
  {
    assert period * k - period == period * (k - 1) >= 0;
    assert limit * period - period * k == (limit - k) * period >= 0;
    assert (period * k) / period == k by { MultipleDivides(period, k); }
  }

  lemma MultipleDivides(period: int, k: int)
    requires period >= 1
    ensures (period * k) / period == k && (period * k) % period == 0
  {
    var q, r := (period * k) / period, (period * k) % period;
    assert period * k == period * q + r;
    assert period * (k - q) == r;
    Order(period, k, q);
    Order(period, q + 1, k);
  }

  /** The interval that is stored for a requested one: its multiplier, turned back. */
  function Chosen(periodMs: Num, requestedMs: Num): int {
    IntervalMsFromMultiplier(periodMs, Finite(IntervalMultiplier(periodMs, requestedMs) as real))
  }

  /** A multiplier within the bounds is kept. */
  lemma ChosenIs(periodMs: Num, requestedMs: Num)
    ensures Chosen(periodMs, requestedMs) == TaskPeriodMs(periodMs) * IntervalMultiplier(periodMs, requestedMs)
  {
    SamePeriod(periodMs);
    var k := IntervalMultiplier(periodMs, requestedMs);
    assert Ceil(k as real) == k;
  }

  // ---------------------------------------------------------------- the least multiple

  ghost predicate Multiple(period: int, m: int) { exists k: int :: k >= 1 && m == period * k }

  /** Every request gives the least positive multiple of the period that is not below it, or the
      largest multiple within the day if none is; a request that is no number gives the period. */
  lemma LeastMultiple(periodMs: Num, requestedMs: Num)
    ensures var period, c := TaskPeriodMs(periodMs), Chosen(periodMs, requestedMs);
      Multiple(period, c) && c <= MAX_INTERVAL_MS
      && (requestedMs.Finite? && (exists m: int :: Reaches(period, m, requestedMs.value)) ==>
            requestedMs.value <= c as real && forall m: int :: Reaches(period, m, requestedMs.value) ==> c <= m)
      && (requestedMs.Finite? && (forall m: int :: !Reaches(period, m, requestedMs.value)) ==>
            forall m: int :: Multiple(period, m) && m <= MAX_INTERVAL_MS ==> m <= c)
      && (requestedMs.NotFinite? ==> c == period)
  {
    var period, c := TaskPeriodMs(periodMs), Chosen(periodMs, requestedMs);
    var k := IntervalMultiplier(periodMs, requestedMs);
    ChosenIs(periodMs, requestedMs);
    assert Multiple(period, c);
    if requestedMs.Finite? {
      var x := requestedMs.value;
      forall m: int | Reaches(period, m, x) ensures x <= c as real && c <= m { LeastReached(periodMs, x, m); }
      if forall m: int :: !Reaches(period, m, x) {
        if x <= c as real { assert Reaches(period, c, x); }
        forall m: int | Multiple(period, m) && m <= MAX_INTERVAL_MS ensures m <= c { LargestKept(periodMs, x, m); }
      }
    }
  }

  /** A multiple within the day that is not below the request. */
  ghost predicate Reaches(period: int, m: int, x: real) {
    Multiple(period, m) && m <= MAX_INTERVAL_MS && x <= m as real
  }

  lemma Sign(period: int, d: int)
    requires period >= 1
    ensures period * d >= 0 <==> d >= 0
  {
  }

  lemma Order(period: int, j: int, k: int)
    requires period >= 1
    ensures period * j <= period * k <==> j <= k
  {
    var d := k - j;
    assert period * k - period * j == period * d;
    Sign(period, d);
  }

  /** The quotient and its ceiling. */
  lemma CeilBound(period: int, x: real, k: int)
    requires period >= 1
    ensures Ceil(x / period as real) <= k <==> x <= (period * k) as real
  {
    var q := x / period as real;
    var p := period as real;
    assert x == q * p;
    assert (period * k) as real == p * k as real;
    if q <= k as real { assert (k as real - q) * p >= 0.0; } else { assert (q - k as real) * p > 0.0; }
  }

  lemma LeastReached(periodMs: Num, x: real, m: int)
    requires Reaches(TaskPeriodMs(periodMs), m, x)
    ensures x <= Chosen(periodMs, Finite(x)) as real && Chosen(periodMs, Finite(x)) <= m
  {
    var period, k := TaskPeriodMs(periodMs), IntervalMultiplier(periodMs, Finite(x));
    var j :| j >= 1 && m == period * j;
    ChosenIs(periodMs, Finite(x));
    SamePeriod(periodMs);
    CeilBound(period, x, j);
    CeilBound(period, x, k);
    WithinDay(periodMs, j);
    Order(period, k, j);
  }

  lemma WithinDay(periodMs: Num, j: int)
    ensures TaskPeriodMs(periodMs) * j <= MAX_INTERVAL_MS <==> j <= MaxIntervalMultiplier(periodMs)
  {
    var period, limit := TaskPeriodMs(periodMs), MaxIntervalMultiplier(periodMs);
    Order(period, j, limit);
    Order(period, limit + 1, j);
  }

  lemma LargestKept(periodMs: Num, x: real, m: int)
    requires Multiple(TaskPeriodMs(periodMs), m) && m <= MAX_INTERVAL_MS
    requires Chosen(periodMs, Finite(x)) as real < x
    ensures m <= Chosen(periodMs, Finite(x))
  {
    var period, k := TaskPeriodMs(periodMs), IntervalMultiplier(periodMs, Finite(x));
    var j :| j >= 1 && m == period * j;
    ChosenIs(periodMs, Finite(x));
    SamePeriod(periodMs);
    CeilBound(period, x, k);
    WithinDay(periodMs, j);
    Order(period, j, k);
  }

  // ---------------------------------------------------------------- round trips

  /** The multiplier of a multiple is the one it was made from. */
  lemma MultiplierRoundTrip(periodMs: Num, k: int)
    ensures IntervalMultiplier(periodMs, Finite(IntervalMsFromMultiplier(periodMs, Finite(k as real)) as real)) == k
            <==> 1 <= k <= MaxIntervalMultiplier(periodMs)
  {
    var period := TaskPeriodMs(periodMs);
    SamePeriod(periodMs);
    assert Ceil(k as real) == k;
    var kept := Min(MaxIntervalMultiplier(periodMs), Max(1, k));
    assert IntervalMsFromMultiplier(periodMs, Finite(k as real)) == period * kept;
    MultiplierOf(periodMs, kept);
  }

  lemma MultiplierOf(periodMs: Num, k: int)
    requires 1 <= k <= MaxIntervalMultiplier(periodMs)
    ensures IntervalMultiplier(periodMs, Finite((TaskPeriodMs(periodMs) * k) as real)) == k
  {
    var period := TaskPeriodMs(periodMs);
    var x := (period * k) as real;
    SamePeriod(periodMs);
    CeilBound(period, x, k);
    CeilBound(period, x, k - 1);
    Order(period, k, k - 1);
  }

  lemma Idempotent(periodMs: Num, requestedMs: Num)
    ensures Chosen(periodMs, Finite(Chosen(periodMs, requestedMs) as real)) == Chosen(periodMs, requestedMs)
  {
    ChosenIs(periodMs, requestedMs);
    MultiplierOf(periodMs, IntervalMultiplier(periodMs, requestedMs));
    ChosenIs(periodMs, Finite(Chosen(periodMs, requestedMs) as real));
  }

  // ---------------------------------------------------------------- the backend

  /** The interval check of validateJobConfig; both settings have a fallback. */
  predicate BackendAccepts(intervalMs: int, minimumIntervalMs: Num, intervalCycleMs: Num) {
    var minimum := if IsInteger(minimumIntervalMs) then minimumIntervalMs.value.Floor else 1000;
    var given := IsInteger(intervalCycleMs) && intervalCycleMs.value.Floor > 0;
    var cycle := if given then intervalCycleMs.value.Floor else 1;
    minimum <= intervalMs <= 86400000 && cycle <= intervalMs && intervalMs % cycle == 0
  }

  /** The least multiplier whose multiple of the period is not below the backend's minimum. */
  function Needed(periodMs: Num, minimumMs: Num): int {
    var minimum := if IsInteger(minimumMs) then minimumMs.value.Floor else 1000;
    Ceil(minimum as real / TaskPeriodMs(periodMs) as real)
  }

  /** The interval chosen for a request passes exactly when the period is no integer longer than the
      day, some multiple of it within the day reaches the minimum, and the request is above the
      multiple before the first that does, unless that first one is the period itself. So with a
      minimum of 1 the period alone decides. */
  lemma AcceptedExactlyWhen(periodMs: Num, requestedMs: Num, minimumMs: Num)
    ensures var period, needed := TaskPeriodMs(periodMs), Needed(periodMs, minimumMs);
      BackendAccepts(Chosen(periodMs, requestedMs), minimumMs, periodMs)
      <==> (!(IsInteger(periodMs) && periodMs.value > MAX_INTERVAL_MS as real)
            && needed * period <= MAX_INTERVAL_MS
            && (needed <= 1 || (requestedMs.Finite? && requestedMs.value > ((needed - 1) * period) as real)))
    ensures BackendAccepts(Chosen(periodMs, requestedMs), Finite(1.0), periodMs)
            <==> !(IsInteger(periodMs) && periodMs.value > MAX_INTERVAL_MS as real)
  {
    Reached(periodMs, requestedMs, minimumMs);
    PassesCheck(periodMs, requestedMs, minimumMs);
    PassesCheck(periodMs, requestedMs, Finite(1.0));
  }

  /** Only the minimum and a period beyond the day can make the check fail. */
  lemma PassesCheck(periodMs: Num, requestedMs: Num, minimumMs: Num)
    ensures var minimum := if IsInteger(minimumMs) then minimumMs.value.Floor else 1000;
      BackendAccepts(Chosen(periodMs, requestedMs), minimumMs, periodMs)
      <==> (minimum <= Chosen(periodMs, requestedMs)
            && !(IsInteger(periodMs) && periodMs.value > MAX_INTERVAL_MS as real))
  {
    ChosenIs(periodMs, requestedMs);
  }

  lemma Reached(periodMs: Num, requestedMs: Num, minimumMs: Num)
    ensures var minimum := if IsInteger(minimumMs) then minimumMs.value.Floor else 1000;
      var period, needed := TaskPeriodMs(periodMs), Needed(periodMs, minimumMs);
      minimum <= Chosen(periodMs, requestedMs)
      <==> (needed * period <= MAX_INTERVAL_MS
            && (needed <= 1 || (requestedMs.Finite? && requestedMs.value > ((needed - 1) * period) as real)))
  {
    var minimum := if IsInteger(minimumMs) then minimumMs.value.Floor else 1000;
    var period, needed := TaskPeriodMs(periodMs), Needed(periodMs, minimumMs);
    var k := IntervalMultiplier(periodMs, requestedMs);
    ChosenIs(periodMs, requestedMs);
    SamePeriod(periodMs);
    CeilBound(period, minimum as real, k);
    WithinDay(periodMs, needed);
    Commutes(period, needed);
    Commutes(period, needed - 1);
    if requestedMs.Finite? { CeilBound(period, requestedMs.value, needed - 1); }
  }

  lemma Commutes(a: int, b: int)
    ensures a * b == b * a
  {
  }

  /** With a period of 10 ms a request of 5 ms becomes 10 ms, which a backend with its default
      minimum refuses. */
  lemma ShortIntervalRefused()
    ensures Chosen(Finite(10.0), Finite(5.0)) == 10
    ensures !BackendAccepts(Chosen(Finite(10.0), Finite(5.0)), NotFinite, Finite(10.0))
  {
    var period := Finite(10.0);
    assert TaskPeriodMs(period) == 10;
    assert Ceil(5.0 / 10.0) == 1;
    ChosenIs(period, Finite(5.0));
    PassesCheck(period, Finite(5.0), NotFinite);
  }
}
