/** The load ramp that looks for the highest sustainable number of users. */
module Ramp {
  import opened Wrappers

  datatype StepRecord = StepRecord(users: int, withinBounds: bool)

  /** The runner's totals at a tick; the percentile may be unknown. */
  datatype Stats = NoRunner | Totals(requests: nat, failures: nat, p95: Option<real>)

  predicate HasTraffic(stats: Stats) { stats.Totals? && stats.requests + stats.failures > 0 }

  lemma ShareExceeds(part: real, whole: real, bound: real)
    requires whole > 0.0
    ensures part / whole > bound <==> part > bound * whole
  {
    assert part == part / whole * whole;
  }

  /** The largest number of steps that fit into `elapsed`. */
  function StepAt(elapsed: real, stepDuration: int): int
    requires stepDuration > 0
  {
    (elapsed / stepDuration as real).Floor
  }

  /** The step is the one whose window the elapsed time is in. */
  lemma StepIsCurrent(elapsed: real, stepDuration: int)
    requires stepDuration > 0
    ensures var start := StepAt(elapsed, stepDuration) as real * stepDuration as real;
            start <= elapsed < start + stepDuration as real
  {
    WindowOf(elapsed, stepDuration as real, StepAt(elapsed, stepDuration) as real, elapsed / stepDuration as real);
  }

  lemma WindowOf(elapsed: real, d: real, step: real, q: real)
    requires d > 0.0 && q * d == elapsed && step <= q < step + 1.0
    ensures step * d <= elapsed < step * d + d
  {
    var since, left := q - step, step + 1.0 - q;
    assert since * d >= 0.0 && left * d > 0.0;
    assert (step + since) * d == step * d + since * d;
    calc {
      elapsed;
      q * d;
    <
      q * d + left * d;
      (q + left) * d;
      { assert q + left == step + 1.0; }
      (step + 1.0) * d;
      step * d + d;
    }
  }

  lemma StepsGrow(a: real, b: real, stepDuration: int)
    requires stepDuration > 0 && 0.0 <= a <= b
    ensures 0 <= StepAt(a, stepDuration) <= StepAt(b, stepDuration)
  {
    var d := stepDuration as real;
    assert b / d == a / d + (b - a) / d;
    assert (b - a) / d >= 0.0 && a / d >= 0.0;
  }

  /** The steps sampled so far: none twice, and in order. */
  ghost predicate InOrder(sampled: seq<int>, last: int) {
    && (forall i, j :: 0 <= i < j < |sampled| ==> sampled[i] < sampled[j])
    && (forall i :: 0 <= i < |sampled| ==> sampled[i] > 0)
    && last == if sampled == [] then -1 else sampled[|sampled| - 1]
  }

  lemma StaysInOrder(sampled: seq<int>, last: int, next: int)
    requires InOrder(sampled, last) && last < next && next > 0
    ensures InOrder(sampled + [next], next)
  {
  }

  /** Recorded user counts increase up to `top` at most, and only the last record may be out of bounds. */
  ghost predicate Rising(records: seq<StepRecord>, top: int) {
    && (forall i, j :: 0 <= i < j < |records| ==> records[i].users < records[j].users)
    && (forall i :: 0 <= i < |records| ==> records[i].users <= top)
    && (forall i :: 0 <= i < |records| - 1 ==> records[i].withinBounds)
  }

  /** The records with the judged step appended, if there was anything to judge. */
  function Recorded(records: seq<StepRecord>, users: int, verdict: Option<bool>): seq<StepRecord> {
    if verdict.None? then records else records + [StepRecord(users, verdict.value)]
  }

  predicate EndsOutOfBounds(records: seq<StepRecord>) {
    records != [] && !records[|records| - 1].withinBounds
  }

  function LastWithin(records: seq<StepRecord>): Option<StepRecord> {
    if records == [] then None
    else if records[|records| - 1].withinBounds then Some(records[|records| - 1])
    else LastWithin(records[..|records| - 1])
  }

  /** Breach and ceiling are what the records say. */
  ghost predicate Sound(records: seq<StepRecord>, top: int, breached: bool, ceiling: Option<StepRecord>) {
    Rising(records, top) && breached == EndsOutOfBounds(records) && ceiling == LastWithin(records)
  }

  lemma SoundWhenIdle(records: seq<StepRecord>, top: int, breached: bool, ceiling: Option<StepRecord>, users: int)
    requires Sound(records, top, breached, ceiling) && top < users
    ensures Sound(records, users, breached, ceiling)
  {
  }

  /** A record of more users joins records within bounds. */
  lemma SoundWithOneMore(records: seq<StepRecord>, top: int, ceiling: Option<StepRecord>, r: StepRecord)
    requires Sound(records, top, false, ceiling) && top < r.users
    ensures Sound(records + [r], r.users, !r.withinBounds, if r.withinBounds then Some(r) else ceiling)
  {
    assert (records + [r])[..|records|] == records;
  }

  /** The ceiling is the last record, or the one before it once the last broke a bound. */
  lemma CeilingIsNearTheEnd(records: seq<StepRecord>, top: int)
    requires Rising(records, top)
    ensures LastWithin(records) ==
            if records == [] then None
            else if !EndsOutOfBounds(records) then Some(records[|records| - 1])
            else if |records| == 1 then None else Some(records[|records| - 2])
  {
  }

  class ThroughputRampShape {
    const minUsers: int
    const maxUsers: int
    const stepSize: int
    const stepDuration: int
    const p95Threshold: real
    const errorRateThreshold: real

    var lastSampledStep: int
    var breached: bool
    var stepRecords: seq<StepRecord>
    var ceiling: Option<StepRecord>
    ghost var lastElapsed: real
    ghost var sampled: seq<int>  // the steps that sampled the one before them
    ghost var top: int           // the user count sampled last

    constructor (minUsers: int, maxUsers: int, stepSize: int, stepDuration: int, p95: real, errorRate: real)
      requires stepSize > 0 && stepDuration > 0
      ensures Valid() && stepRecords == [] && sampled == [] && lastElapsed == 0.0
    {
      this.minUsers, this.maxUsers, this.stepSize, this.stepDuration := minUsers, maxUsers, stepSize, stepDuration;
      p95Threshold, errorRateThreshold := p95, errorRate;
      lastSampledStep, breached, stepRecords, ceiling := -1, false, [], None;
      lastElapsed, sampled, top := 0.0, [], minUsers - 2 * stepSize;
      new;
      StepsGrow(0.0, 0.0, stepDuration);
    }

    function UsersAt(step: int): int { minUsers + step * stepSize }

    /**
     * Recorded user counts increase; only the last record can be out of bounds, and it is exactly
     * when the ramp is breached; the ceiling is the last record within bounds. A step is recorded
     * only while the next one is still allowed, so the last one that `maxUsers` allows never is.
     */
    ghost predicate Logged()
      reads this
    {
      && stepSize > 0
      && Sound(stepRecords, top, breached, ceiling)
      && (stepRecords != [] ==> top + stepSize <= maxUsers)
    }

    /** The state fits the time of the last tick. */
    ghost predicate InTime()
      reads this
    {
      && Logged() && stepDuration > 0 && lastElapsed >= 0.0
      && lastSampledStep <= StepAt(lastElapsed, stepDuration)
      && top == UsersAt(lastSampledStep - 1)
    }

    /** ... and steps were sampled at most once and in order. */
    ghost predicate Valid()
      reads this
    {
      InTime() && InOrder(sampled, lastSampledStep)
    }

    /** Whether the step stayed within bounds, if there is anything to judge it by. */
    function Verdict(stats: Stats): Option<bool> {
      if stats.NoRunner? || stats.requests + stats.failures == 0 then None
      else
        var p95 := if stats.p95.Some? then stats.p95.value else 0.0;
        var errRate := stats.failures as real / (stats.requests + stats.failures) as real;
        Some(p95 <= p95Threshold && errRate <= errorRateThreshold)
    }

    /** The last step that `maxUsers` allows is never recorded: the tick after its window stops first. */
    lemma TopStepIsNeverRecorded()
      requires Valid()
      ensures forall i :: 0 <= i < |stepRecords| ==> stepRecords[i].users + stepSize <= maxUsers
    {
    }

    /**
     * What a verdict means in the runner's totals: there is one exactly if there was traffic, and it
     * is out of bounds exactly if the percentile (0 if unknown) exceeds its threshold or more than
     * the tolerated share of the requests failed.
     */
    lemma VerdictMeans(stats: Stats)
      ensures Verdict(stats).Some? <==> HasTraffic(stats)
      ensures HasTraffic(stats) ==> (Verdict(stats) == Some(false) <==> ExceedsBounds(stats))
    {
      if HasTraffic(stats) {
        ShareExceeds(stats.failures as real, (stats.requests + stats.failures) as real, errorRateThreshold);
      }
    }

    /** The share of failures, said without a division. */
    predicate ExceedsBounds(stats: Stats)
      requires HasTraffic(stats)
    {
      || (stats.p95.Some? && stats.p95.value > p95Threshold) || (stats.p95.None? && 0.0 > p95Threshold)
      || stats.failures as real > errorRateThreshold * (stats.requests + stats.failures) as real
    }

    /** A tick judges the step before its own: on the first tick in a new step that is still allowed. */
    predicate Samples(elapsed: real)
      requires stepDuration > 0
      reads this
    {
      var step := StepAt(elapsed, stepDuration);
      !breached && 0 < step != lastSampledStep && UsersAt(step) <= maxUsers
    }

    method Tick(elapsed: real, stats: Stats) returns (shape: Option<(int, int)>)
      requires Valid() && elapsed >= lastElapsed
      modifies this
      ensures Valid() && lastElapsed == elapsed
      ensures sampled == old(sampled) + if old(Samples(elapsed)) then [StepAt(elapsed, stepDuration)] else []
      ensures old(breached) ==> shape.None? && stepRecords == old(stepRecords) && ceiling == old(ceiling) && breached
      ensures stepRecords == Recorded(old(stepRecords), UsersAt(StepAt(elapsed, stepDuration) - 1),
                                      if old(Samples(elapsed)) then Verdict(stats) else None)
      ensures old(Samples(elapsed)) && HasTraffic(stats) ==> (breached <==> ExceedsBounds(stats))
      ensures shape.Some? ==> StepAt(elapsed, stepDuration) == 0 || lastSampledStep == StepAt(elapsed, stepDuration)
      ensures shape.None? <==> breached || UsersAt(StepAt(elapsed, stepDuration)) > maxUsers
      ensures shape.Some? ==>
                shape.value == (UsersAt(StepAt(elapsed, stepDuration)), if stepSize > 10 then stepSize else 10)
    {
      VerdictMeans(stats);
      ghost var before := lastSampledStep;
      shape := TickJudged(elapsed, Verdict(stats));
      if lastSampledStep != before {
        StaysInOrder(sampled, before, lastSampledStep);
        sampled := sampled + [lastSampledStep];
      }
    }

    /** A tick, given what the totals say of the step before. */
    method TickJudged(elapsed: real, verdict: Option<bool>) returns (shape: Option<(int, int)>)
      requires InTime() && elapsed >= lastElapsed
      modifies `lastElapsed, `lastSampledStep, `top, `stepRecords, `breached, `ceiling
      ensures InTime() && lastElapsed == elapsed
      ensures lastSampledStep == if old(Samples(elapsed)) then StepAt(elapsed, stepDuration) else old(lastSampledStep)
      ensures old(Samples(elapsed)) ==> old(lastSampledStep) < lastSampledStep
      ensures old(breached) ==> shape.None? && stepRecords == old(stepRecords) && ceiling == old(ceiling) && breached
      ensures stepRecords == Recorded(old(stepRecords), UsersAt(StepAt(elapsed, stepDuration) - 1),
                                      if old(Samples(elapsed)) then verdict else None)
      ensures old(Samples(elapsed)) && verdict.Some? ==> breached == !verdict.value
      ensures shape.Some? ==> StepAt(elapsed, stepDuration) == 0 || lastSampledStep == StepAt(elapsed, stepDuration)
      ensures shape.None? <==> breached || UsersAt(StepAt(elapsed, stepDuration)) > maxUsers
      ensures shape.Some? ==>
                shape.value == (UsersAt(StepAt(elapsed, stepDuration)), if stepSize > 10 then stepSize else 10)
    {
      StepsGrow(lastElapsed, elapsed, stepDuration);
      lastElapsed := elapsed;
      if breached {
        return None;
      }
      var stepIdx := StepAt(elapsed, stepDuration);
      UsersGrow(lastSampledStep - 1, stepIdx - 1);
      UsersGrow(stepIdx - 1, stepIdx);
      shape := TickAt(stepIdx, UsersAt(stepIdx), verdict);
    }

    /** The rest of a tick, once the step and its user count are known. */
    method TickAt(stepIdx: int, users: int, verdict: Option<bool>) returns (shape: Option<(int, int)>)
      requires Logged() && !breached && stepIdx >= 0 && lastSampledStep <= stepIdx
      requires lastSampledStep < stepIdx ==> top < users - stepSize
      modifies `lastSampledStep, `top, `stepRecords, `breached, `ceiling
      ensures Logged()
      ensures shape.None? <==> breached || users > maxUsers
      ensures shape.Some? ==> shape.value == (users, if stepSize > 10 then stepSize else 10)
      ensures shape.Some? ==> stepIdx == 0 || lastSampledStep == stepIdx
      ensures 0 < stepIdx != old(lastSampledStep) && users <= maxUsers ==>
                && lastSampledStep == stepIdx && top == users - stepSize
                && stepRecords == Recorded(old(stepRecords), top, verdict)
                && (verdict.Some? ==> breached == !verdict.value)
      ensures !(0 < stepIdx != old(lastSampledStep) && users <= maxUsers) ==>
                lastSampledStep == old(lastSampledStep) && top == old(top) && stepRecords == old(stepRecords)
    {
      if users > maxUsers {
        return None;
      }
      if stepIdx > 0 && stepIdx != lastSampledStep {
        lastSampledStep := stepIdx;
        SampleStep(users - stepSize, verdict);
        if breached {
          return None;
        }
      }
      shape := Some((users, if stepSize > 10 then stepSize else 10));
    }

    lemma UsersGrow(i: int, j: int)
      requires stepSize > 0
      ensures i < j ==> UsersAt(i) < UsersAt(j)
      ensures j == i + 1 ==> UsersAt(j) == UsersAt(i) + stepSize
      ensures UsersAt(0) == minUsers
    {
      assert j * stepSize == i * stepSize + (j - i) * stepSize;
      if i < j {
        assert (j - i) * stepSize > 0;
      }
    }

    /** Record the step just finished; `users` exceeds every recorded count. */
    method SampleStep(users: int, verdict: Option<bool>)
      requires Sound(stepRecords, top, breached, ceiling) && !breached && top < users
      modifies `stepRecords, `breached, `ceiling, `top
      ensures top == users && Sound(stepRecords, top, breached, ceiling)
      ensures stepRecords == Recorded(old(stepRecords), users, verdict)
      ensures verdict.Some? ==> breached == !verdict.value
    {
      if verdict.None? {
        SoundWhenIdle(stepRecords, top, breached, ceiling, users);
        top := users;
        return;
      }
      var record := StepRecord(users, verdict.value);
      SoundWithOneMore(stepRecords, top, ceiling, record);
      top := users;
      stepRecords := stepRecords + [record];
      if !verdict.value {
        breached := true;
      } else {
        ceiling := Some(record);
      }
    }
  }
}
