/**
Setting the guest clock and reading it back (internal/guestclock/clock.go:71-103), and
the host's independent check of the result (internal/engine/steps.go:62-83, 150-155).
Instants are nanoseconds; monotonic readings and durations are 64-bit, so sums wrap and
the difference of two instants saturates, as in Go.
*/
module ClockReadback {
  import opened Common
  import Scenario

  const MAX_DURATION: int := 0x7fff_ffff_ffff_ffff
  const MIN_DURATION: int := -0x8000_0000_0000_0000

  predicate IsDuration(d: int) {
    MIN_DURATION <= d <= MAX_DURATION
  }

  /** 64-bit wrap-around of a value less than one turn out of range. */
  function Wrap(x: int): (d: int)
    requires 2 * MIN_DURATION <= x <= 2 * MAX_DURATION + 1
    ensures IsDuration(d)
  {
    if x > MAX_DURATION then x - 0x1_0000_0000_0000_0000 else if x < MIN_DURATION then x +
        0x1_0000_0000_0000_0000 else x
  }

  /** time.Time.Sub */
  function Sub(a: int, b: int): (d: int)
    ensures IsDuration(d)
  {
    if a - b > MAX_DURATION then MAX_DURATION else if a - b < MIN_DURATION then MIN_DURATION else a - b
  }

  /** `zero` is Go's zero time, which a valid observation never holds. */
  datatype Observation = Observation(realtime: int, zero: bool, monotonic: int)

  datatype SetResult = SetResult(
    target: int, before: Observation, after: Observation, elapsed: int, toleranceMs: int, readbackValid: bool)

  predicate ValidClock(o: Observation) {
    !o.zero && o.monotonic >= 0
  }

  predicate Sampled(o: Observation) {
    IsDuration(o.monotonic)
  }

  function Tolerance(ms: int): int {
    ms * 1000000
  }

  predicate TargetFits(target: int) {
    Scenario.EARLIEST <= target < Scenario.LATEST
  }

  /** The guest's verdict on its two samples. */
  predicate ReadbackValid(target: int, toleranceMs: int, before: Observation, after: Observation)
    requires Sampled(before) && Sampled(after) && 1 <= toleranceMs <= 10000
  {
    var elapsed := Wrap(after.monotonic - before.monotonic);
    var delta := Sub(after.realtime, target);
    elapsed >= 0 && delta >= 0 - Tolerance(toleranceMs) && delta <= Wrap(elapsed + Tolerance(toleranceMs))
  }

  /** Controller.Set: samples around the setter, each of which may fail. */
  method Set(target: int, toleranceMs: int, before: Option<Observation>, setOk: bool, after: Option<Observation>)
    returns (r: Option<SetResult>)
    requires before.Some? ==> Sampled(before.value)
    requires after.Some? ==> Sampled(after.value)
    ensures r.Some? <==> TargetFits(target) && 0 <= toleranceMs <= 10000 && before.Some? && setOk && after.Some?
    ensures r.Some? ==>
              var v := r.value;
              && v.target == target && v.before == before.value && v.after == after.value
              && v.toleranceMs == (if toleranceMs == 0 then 1000 else toleranceMs)
              && v.elapsed == Wrap(v.after.monotonic - v.before.monotonic)
              && v.readbackValid == ReadbackValid(target, v.toleranceMs, v.before, v.after)
  {
    if !TargetFits(target) { return None; }
    var tolerance := if toleranceMs == 0 then 1000 else toleranceMs;
    if tolerance < 1 || tolerance > 10000 { return None; }
    if before.None? || !setOk || after.None? { return None; }
    var elapsed := Wrap(after.value.monotonic - before.value.monotonic);
    var delta := Sub(after.value.realtime, target);
    var valid := elapsed >= 0 && delta >= 0 - Tolerance(tolerance) && delta <= Wrap(elapsed + Tolerance(tolerance));
    return Some(SetResult(target, before.value, after.value, elapsed, tolerance, valid));
  }

  /** The host's check of a result it received for a validated clock.set step. */
  predicate HostAccepts(target: int, toleranceMs: int, v: SetResult)
    requires Sampled(v.before) && Sampled(v.after) && 1 <= toleranceMs <= 10000
  {
    var elapsed := Wrap(v.after.monotonic - v.before.monotonic);
    && ValidClock(v.before) && ValidClock(v.after)
    && v.readbackValid && v.target == target && v.toleranceMs == toleranceMs && elapsed >= 0 && elapsed == v.elapsed
    && v.after.realtime >= target - Tolerance(toleranceMs)
    && v.after.realtime <= target + Wrap(elapsed + Tolerance(toleranceMs))
  }

  function Result(target: int, toleranceMs: int, before: Observation, after: Observation): SetResult
    requires Sampled(before) && Sampled(after) && 1 <= toleranceMs <= 10000
  {
    SetResult(target, before, after, Wrap(after.monotonic - before.monotonic), toleranceMs,
              ReadbackValid(target, toleranceMs, before, after))
  }

  /** The only samples on which the two checks differ: the guest's difference saturates at the very bound. */
  predicate Saturates(target: int, toleranceMs: int, before: Observation, after: Observation) {
    && after.realtime - target > MAX_DURATION
    && after.monotonic - before.monotonic + Tolerance(toleranceMs) == MAX_DURATION
  }

  lemma Wraps(elapsed: int, tolerance: int)
    requires 0 <= elapsed <= MAX_DURATION && 0 <= tolerance <= 10000000000
    ensures || Wrap(elapsed + tolerance) < 0 - tolerance
            || Wrap(elapsed + tolerance) == elapsed + tolerance <= MAX_DURATION
  {
  }

  /** On valid samples host and guest agree, exactly unless the difference saturates at the bound. */
  lemma HostAgreesExactly(target: int, toleranceMs: int, before: Observation, after: Observation)
    requires Sampled(before) && Sampled(after) && ValidClock(before) && ValidClock(after)
    requires TargetFits(target) && 1 <= toleranceMs <= 10000
    ensures (HostAccepts(target, toleranceMs, Result(target, toleranceMs, before, after)) <==>
             ReadbackValid(target, toleranceMs, before, after))
            <==> !Saturates(target, toleranceMs, before, after)
  {
    var elapsed := after.monotonic - before.monotonic;
    assert Wrap(elapsed) == elapsed;
    if elapsed >= 0 { Wraps(elapsed, Tolerance(toleranceMs)); }
  }

  /** ... and such samples exist: a guest clock 292 years past the target, as long after boot. */
  lemma AgreementCanFail()
    ensures var target, tolerance := Scenario.EARLIEST, Tolerance(1000);
            var before := Observation(target, false, 0);
            var after := Observation(target + MAX_DURATION + 1, false, MAX_DURATION - tolerance);
            && Sampled(before) && Sampled(after) && ValidClock(before) && ValidClock(after)
            && ReadbackValid(target, 1000, before, after)
            && !HostAccepts(target, 1000, Result(target, 1000, before, after))
  {
  }

  /** The setter took effect at monotonic time t, between the samples, and the clock ticks at unit rate. */
  predicate UnitRate(target: int, before: Observation, after: Observation, t: int) {
    before.monotonic <= t <= after.monotonic && after.realtime == target + (after.monotonic - t)
  }

  /** A correct setter passes both checks exactly if elapsed time plus tolerance fits a duration. */
  lemma UnitRatePassesExactly(target: int, toleranceMs: int, before: Observation, after: Observation, t: int)
    requires Sampled(before) && Sampled(after) && ValidClock(before) && ValidClock(after)
    requires TargetFits(target) && 1 <= toleranceMs <= 10000 && UnitRate(target, before, after, t)
    ensures ReadbackValid(target, toleranceMs, before, after) <==>
            after.monotonic - before.monotonic + Tolerance(toleranceMs) <= MAX_DURATION
    ensures HostAccepts(target, toleranceMs, Result(target, toleranceMs, before, after)) <==>
            ReadbackValid(target, toleranceMs, before, after)
  {
    HostAgreesExactly(target, toleranceMs, before, after);
    Wraps(after.monotonic - before.monotonic, Tolerance(toleranceMs));
  }

  /** ... and one fails: the setter took effect at once, and the second sample is 292 years later. */
  lemma UnitRateCanFail()
    ensures var before := Observation(Scenario.EARLIEST, false, 0);
            var after := Observation(Scenario.EARLIEST + MAX_DURATION, false, MAX_DURATION);
            && Sampled(before) && Sampled(after) && ValidClock(before) && ValidClock(after)
            && UnitRate(Scenario.EARLIEST, before, after, 0)
            && !ReadbackValid(Scenario.EARLIEST, 1000, before, after)
  {
  }

  /** Acceptance confines the offset of realtime from monotonic time to elapsed plus twice the tolerance. */
  lemma AcceptanceConfinesOffset(target: int, toleranceMs: int, v: SetResult)
    requires Sampled(v.before) && Sampled(v.after) && 1 <= toleranceMs <= 10000 && HostAccepts(target, toleranceMs, v)
    ensures var low := target - v.after.monotonic - Tolerance(toleranceMs);
            low <= v.after.realtime - v.after.monotonic <= low + v.elapsed + 2 * Tolerance(toleranceMs)
    ensures v.elapsed == v.after.monotonic - v.before.monotonic
  {
    Wraps(v.elapsed, Tolerance(toleranceMs));
  }
}
