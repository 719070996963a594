/** The per-minute limit: every charge and every refund renews the 70-second deadline of
    model:{model}:rpm, so within any window shorter than that the counter never restarts and
    the model is charged at most rpm times, plus once for each refund in the window. */
module RpmWindow {
  import opened Redis
  import opened Counting
  import opened Lifecycle
  import opened JobInvariant
  import opened EventCounts
  import opened Traces

  const MINUTE_TTL_MS := MINUTE_TTL * 1000

  // consumeExecutionLimits answers 1 for a job of model m.
  ghost predicate ChargesModel(c: Config, s: State, e: Event, m: Model) {
    e.OfJob? && e.j in s.jobs && s.jobs[e.j].info.model == m && Charges(c, s, ViewOf(s, e.j), e.step)
  }

  // returnTokensAtomic runs for model m.
  ghost predicate RefundsModel(c: Config, s: State, e: Event, m: Model) {
    e.OfJob? && e.j in s.jobs && Refunds(c, s.now, ViewOf(s, e.j), e.step)
    && CommandOf(c, s.now, ViewOf(s, e.j), e.step).model == m
  }

  ghost function ModelChargeOf(c: Config, m: Model): (State, Event) -> bool {
    (s: State, e: Event) => ChargesModel(c, s, e, m)
  }

  ghost function ModelRefundOf(c: Config, m: Model): (State, Event) -> bool {
    (s: State, e: Event) => RefundsModel(c, s, e, m)
  }

  // The counter is alive until `until` at least and covers the window's charges.
  ghost predicate Covers(counters: Counters, m: Model, charges: nat, refunds: nat, until: int) {
    charges + refunds == 0
    || (ModelRpm(m) in counters
        && counters[ModelRpm(m)].deadline.Some? && until <= counters[ModelRpm(m)].deadline.value
        && charges <= counters[ModelRpm(m)].value + refunds)
  }

  ghost predicate RpmWithin(c: Config, counters: Counters, m: Model) {
    0 <= Val(counters, ModelRpm(m)) && (c.rpm(m) > 0 ==> Val(counters, ModelRpm(m)) <= c.rpm(m))
  }

  // What a command does to the minute counter of m.
  lemma SendMovesRpm(c: Config, counters: Counters, now: int, cmd: Command, m: Model)
    requires cmd.Increment? || cmd.DecrementClamped? ==> cmd.k.Waiting?
    requires cmd.ExpireJob? ==> cmd.waiting.Waiting? && cmd.userRpd.UserRpd?
    ensures var k := ModelRpm(m);
            var counters' := Send(c, counters, now, cmd);
            if cmd == ConsumeLimits(m) && ConsumeCode(counters, ConsumeArgsFor(c, m, now)) == OK
            then k in counters' && counters'[k] == Cell(Val(counters, k) + 1, Some(now + MINUTE_TTL_MS))
                 && (c.rpm(m) > 0 ==> counters'[k].value <= c.rpm(m))
            else if cmd.ReturnTokens? && cmd.model == m
            then k in counters' && counters'[k] == Cell(if Val(counters, k) - 1 < 0 then 0 else Val(counters, k) - 1,
                                                        Some(now + MINUTE_TTL_MS))
            else (k in counters <==> k in counters') && (k in counters ==> counters'[k] == counters[k])
  {}

  lemma CommandKeys(c: Config, s: State, v: View, e: JobStep)
    requires JobOk(v) && EnabledStep(s.now, v, e)
    ensures var cmd := CommandOf(c, s.now, v, e);
            && (cmd.Increment? || cmd.DecrementClamped? ==> cmd.k.Waiting?)
            && (cmd.ExpireJob? ==> cmd.waiting.Waiting? && cmd.userRpd.UserRpd?)
            && (cmd.ConsumeLimits? ==> cmd.model == v.job.info.model)
  {}

  lemma AcquireLeavesRpm(c: Config, s: State, e: Event, m: Model)
    requires e.TryAcquire?
    ensures var k := ModelRpm(m);
            var counters' := AfterAcquire(c, s, e).db.counters;
            (k in s.db.counters <==> k in counters') && (k in s.db.counters ==> counters'[k] == s.db.counters[k])
  {}

  lemma JobStepCovers(c: Config, s: State, j: JobId, e: JobStep, m: Model, charges: nat, refunds: nat, until: int)
    requires Local(s) && Enabled(s, OfJob(j, e)) && s.now < until <= s.now + MINUTE_TTL_MS
    requires Covers(s.db.counters, m, charges, refunds, until) && RpmWithin(c, s.db.counters, m)
    ensures var counters' := AfterStep(c, s, j, e).db.counters;
            && Covers(counters', m, charges + Ind(ChargesModel(c, s, OfJob(j, e), m)),
                      refunds + Ind(RefundsModel(c, s, OfJob(j, e), m)), until)
            && RpmWithin(c, counters', m)
  {
    var v := ViewOf(s, j);
    CommandKeys(c, s, v, e);
    SendMovesRpm(c, s.db.counters, s.now, CommandOf(c, s.now, v, e), m);
  }

  lemma StepCovers(c: Config, s: State, e: Event, m: Model, charges: nat, refunds: nat, until: int)
    requires Local(s) && Enabled(s, e) && s.now < until <= s.now + MINUTE_TTL_MS
    requires Apply(c, s, e).now < until
    requires Covers(s.db.counters, m, charges, refunds, until) && RpmWithin(c, s.db.counters, m)
    ensures var counters' := Apply(c, s, e).db.counters;
            && Covers(counters', m, charges + Ind(ModelChargeOf(c, m)(s, e)), refunds + Ind(ModelRefundOf(c, m)(s, e)), until)
            && RpmWithin(c, counters', m)
  {
    match e
    case OfJob(j, step) => JobStepCovers(c, s, j, step, m, charges, refunds, until);
    case TryAcquire(_, _, _, _, _, _) => AcquireLeavesRpm(c, s, e, m);
    case Tick(_) =>
    case CleanLocks(_, _) =>
  }

  lemma StepKeepsRpm(c: Config, s: State, e: Event, m: Model)
    requires Local(s) && Enabled(s, e) && RpmWithin(c, s.db.counters, m)
    ensures RpmWithin(c, Apply(c, s, e).db.counters, m)
    ensures s.now <= Apply(c, s, e).now
  {
    match e
    case OfJob(j, step) => JobStepCovers(c, s, j, step, m, 0, 0, s.now + 1);
    case TryAcquire(_, _, _, _, _, _) => AcquireLeavesRpm(c, s, e, m);
    case Tick(_) =>
    case CleanLocks(_, _) =>
  }

  lemma StepAtKeepsRpm(c: Config, ss: seq<State>, es: seq<Event>, i: nat, m: Model)
    requires i < |es| < |ss| && StepAt(c, ss, es, i) && Local(ss[i]) && RpmWithin(c, ss[i].db.counters, m)
    ensures RpmWithin(c, ss[i + 1].db.counters, m)
  {
    StepKeepsRpm(c, ss[i], es[i], m);
  }

  lemma RunStepKeepsRpm(c: Config, ss: seq<State>, es: seq<Event>, i: nat, m: Model)
    requires Run(c, ss, es) && i < |es| && RpmWithin(c, ss[i].db.counters, m)
    ensures RpmWithin(c, ss[i + 1].db.counters, m)
  {
    RunIsLocal(c, ss, es, i);
    StepAtKeepsRpm(c, ss, es, i, m);
  }

  lemma {:induction false} RunKeepsRpm(c: Config, ss: seq<State>, es: seq<Event>, i: nat, m: Model)
    requires Run(c, ss, es) && i < |ss|
    ensures RpmWithin(c, ss[i].db.counters, m)
  {
    if i > 0 {
      RunKeepsRpm(c, ss, es, i - 1, m);
      RunStepKeepsRpm(c, ss, es, i - 1, m);
    }
  }

  lemma {:induction false} ClockNeverGoesBack(c: Config, ss: seq<State>, es: seq<Event>, lo: nat, hi: nat)
    requires Run(c, ss, es) && lo <= hi < |ss|
    ensures ss[lo].now <= ss[hi].now
  {
    if lo < hi {
      ClockNeverGoesBack(c, ss, es, lo, hi - 1);
      assert StepAt(c, ss, es, hi - 1);
      assert ss[hi] == Apply(c, ss[hi - 1], es[hi - 1]);
    }
  }

  lemma {:induction false} WindowIsCovered(c: Config, ss: seq<State>, es: seq<Event>, m: Model, lo: nat, hi: nat)
    requires Run(c, ss, es) && lo <= hi <= |es|
    requires ss[hi].now < ss[lo].now + MINUTE_TTL_MS
    ensures Covers(ss[hi].db.counters, m, Events(ss, es, ModelChargeOf(c, m), lo, hi),
                   Events(ss, es, ModelRefundOf(c, m), lo, hi), ss[lo].now + MINUTE_TTL_MS)
  {
    if lo < hi {
      ClockNeverGoesBack(c, ss, es, lo, hi - 1);
      ClockNeverGoesBack(c, ss, es, hi - 1, hi);
      WindowIsCovered(c, ss, es, m, lo, hi - 1);
      RunIsLocal(c, ss, es, hi - 1);
      RunKeepsRpm(c, ss, es, hi - 1, m);
      assert StepAt(c, ss, es, hi - 1);
      StepCovers(c, ss[hi - 1], es[hi - 1], m, Events(ss, es, ModelChargeOf(c, m), lo, hi - 1),
                 Events(ss, es, ModelRefundOf(c, m), lo, hi - 1), ss[lo].now + MINUTE_TTL_MS);
    }
  }

  // In any window shorter than MINUTE_TTL seconds a model with a limit is charged at most rpm
  // times, plus once for each refund in the window.
  lemma RpmBound(c: Config, ss: seq<State>, es: seq<Event>, m: Model, lo: nat, hi: nat)
    requires Run(c, ss, es) && lo <= hi <= |es| && c.rpm(m) > 0
    requires ss[hi].now < ss[lo].now + MINUTE_TTL_MS
    ensures Events(ss, es, ModelChargeOf(c, m), lo, hi) <= c.rpm(m) + Events(ss, es, ModelRefundOf(c, m), lo, hi)
  {
    WindowIsCovered(c, ss, es, m, lo, hi);
    RunKeepsRpm(c, ss, es, hi, m);
  }
}
