/** The backlog bound of src/routes/resume/queueUtils.ts, over exact arithmetic. */
module Backlog {

  const MAX_WAIT_MINUTES := 30.0
  const QUEUE_BUFFER := 0.9
  const AVG_SECONDS_HARD := 25.0
  const AVG_SECONDS_LITE := 15.0

  function Min(x: real, y: real): real { if x <= y then x else y }

  function Max(x: real, y: real): real { if x <= y then y else x }

  // Math.ceil
  function Ceil(x: real): (n: int)
    ensures n as real - 1.0 < x <= n as real
  {
    -((-x).Floor)
  }

  // Jobs per minute that the model can finish when each takes `avgSeconds`.
  function PerMinute(rpm: real, avgSeconds: real): real {
    var rpmSafe := Max(rpm, 0.0);
    Min(rpmSafe, if avgSeconds > 0.0 then 60.0 / avgSeconds else rpmSafe)
  }

  function ComputeMaxQueueLength(rpm: real, rpd: int, avgSeconds: real): (bound: int)
    ensures 1 <= bound
    ensures rpd >= 1 ==> bound <= rpd
  {
    var raw := Ceil(PerMinute(rpm, avgSeconds) * MAX_WAIT_MINUTES * QUEUE_BUFFER);
    var dayCap := if rpd > 0 then rpd else raw;
    var capped := if raw <= dayCap then raw else dayCap;
    if capped < 1 then 1 else capped
  }

  // The jobs that the model is allowed to start in a minute and can finish in one.
  ghost predicate RateOf(rpm: real, avgSeconds: real, rate: real) {
    && rate <= (if rpm <= 0.0 then 0.0 else rpm)
    && rate * avgSeconds <= 60.0
    && (rate == (if rpm <= 0.0 then 0.0 else rpm) || rate * avgSeconds == 60.0)
  }

  // The bound is the least number from one up that holds 27 minutes of work, cut off at a
  // positive daily limit.
  lemma BoundHoldsItsWork(rpm: real, rpd: int, avgSeconds: real, rate: real)
    requires avgSeconds > 0.0 && RateOf(rpm, avgSeconds, rate)
    ensures var bound := ComputeMaxQueueLength(rpm, rpd, avgSeconds);
            && 1 <= bound && (rpd > 0 ==> bound <= rpd)
            && (bound > 1 ==> (bound - 1) as real < 27.0 * rate)
            && (rpd <= 0 || bound < rpd ==> 27.0 * rate <= bound as real)
  {
    RateIsUnique(rpm, avgSeconds, rate);
  }

  lemma RateIsUnique(rpm: real, avgSeconds: real, rate: real)
    requires avgSeconds > 0.0 && RateOf(rpm, avgSeconds, rate)
    ensures PerMinute(rpm, avgSeconds) == rate
  {
    var most := if rpm <= 0.0 then 0.0 else rpm;
    assert 60.0 / avgSeconds * avgSeconds == 60.0;
    if rate * avgSeconds == 60.0 {
      assert rate == 60.0 / avgSeconds;
    } else if most > 60.0 / avgSeconds {
      assert most * avgSeconds > 60.0 / avgSeconds * avgSeconds;
    }
  }

  lemma BoundMonotoneInRpm(rpm: real, rpm': real, rpd: int, avgSeconds: real)
    requires rpm <= rpm'
    ensures ComputeMaxQueueLength(rpm, rpd, avgSeconds) <= ComputeMaxQueueLength(rpm', rpd, avgSeconds)
  {}

  lemma BoundMonotoneInRpd(rpm: real, rpd: int, rpd': int, avgSeconds: real)
    requires 0 < rpd <= rpd'
    ensures ComputeMaxQueueLength(rpm, rpd, avgSeconds) <= ComputeMaxQueueLength(rpm, rpd', avgSeconds)
    ensures ComputeMaxQueueLength(rpm, rpd', avgSeconds) <= ComputeMaxQueueLength(rpm, 0, avgSeconds)
  {}

  // A full backlog of N jobs needs N / PerMinute minutes. It drains within the 30 minutes of
  // the SLA whenever the model finishes at least a third of a job per minute.
  lemma FullBacklogDrains(rpm: real, rpd: int, avgSeconds: real)
    requires rpm >= 1.0 && 0.0 < avgSeconds <= 180.0
    ensures PerMinute(rpm, avgSeconds) == Min(rpm, 60.0 / avgSeconds) > 0.0
    ensures ComputeMaxQueueLength(rpm, rpd, avgSeconds) as real
         <= MAX_WAIT_MINUTES * PerMinute(rpm, avgSeconds)
    ensures ComputeMaxQueueLength(rpm, rpd, avgSeconds) as real / PerMinute(rpm, avgSeconds)
         <= MAX_WAIT_MINUTES
  {
    QuotientAtLeast(60.0, avgSeconds, 1.0 / 3.0);
    var p := PerMinute(rpm, avgSeconds);
    QuotientAtMost(ComputeMaxQueueLength(rpm, rpd, avgSeconds) as real, p, MAX_WAIT_MINUTES);
  }

  lemma QuotientAtMost(n: real, p: real, m: real)
    requires p > 0.0 && n <= m * p
    ensures n / p <= m
  {}

  lemma QuotientAtLeast(n: real, p: real, m: real)
    requires p > 0.0 && m * p <= n
    ensures m <= n / p
  {}

  // The bound on the duration cannot be dropped: at 0.26 jobs a minute rounding up adds a job
  // too many.
  lemma SlowModelMissesTheSla()
    ensures var avgSeconds := 6000.0 / 26.0;
            ComputeMaxQueueLength(1.0, 0, avgSeconds) as real > MAX_WAIT_MINUTES * PerMinute(1.0, avgSeconds)
  {}
}
