/** Guarantees about the events of a run: how often a job consumes and refunds tokens and how
    often its result is written. */
module Traces {
  import opened Redis
  import opened Counting
  import opened Lifecycle
  import opened JobInvariant
  import opened EventCounts

  // ---- what a step of a job counts as ----------------------------------------------

  // consumeExecutionLimits answers 1.
  ghost predicate Charges(c: Config, s: State, v: View, e: JobStep) {
    EnabledStep(s.now, v, e) && CommandOf(c, s.now, v, e).ConsumeLimits? && CodeFor(c, s, v.job) == OK
  }

  // returnTokensAtomic runs.
  ghost predicate Refunds(c: Config, now: int, v: View, e: JobStep) {
    EnabledStep(now, v, e) && CommandOf(c, now, v, e).ReturnTokens?
  }

  // The worker dies between the script and the write of tokens_consumed.
  ghost predicate LosesCharge(v: View, e: JobStep) {
    e.Work? && e.work.WorkerDies? && v.job.pc.Granted?
  }

  // A terminal status is written to the result hash.
  ghost predicate Settles(e: JobStep) {
    (e.Succeed? && e.success.WriteSuccessResult?)
    || (e.Fail? && e.failure.WriteFailedResult?)
    || (e.Stale? && e.stale.ReleaseStale?)
  }

  ghost function ChargeOf(c: Config, j: JobId): (State, Event) -> bool {
    (s: State, e: Event) => IsStepOf(s, e, j) && Charges(c, s, ViewOf(s, j), e.step)
  }

  ghost function RefundOf(c: Config, j: JobId): (State, Event) -> bool {
    (s: State, e: Event) => IsStepOf(s, e, j) && Refunds(c, s.now, ViewOf(s, j), e.step)
  }

  ghost function LostChargeOf(j: JobId): (State, Event) -> bool {
    (s: State, e: Event) => IsStepOf(s, e, j) && LosesCharge(ViewOf(s, j), e.step)
  }

  ghost function OutcomeOf(j: JobId): (State, Event) -> bool {
    (s: State, e: Event) => IsStepOf(s, e, j) && Settles(e.step)
  }

  // ---- the history of a job counts its events --------------------------------------

  ghost function HistoryOf(s: State, j: JobId): History {
    if j in s.jobs then s.jobs[j].hist else History(NoToken, NoToken, 0, 0, 0, 0, None, 0, 0, 0, 0)
  }

  ghost predicate RecordsTokens(c: Config, s: State, v: View, e: JobStep, h: History, h': History) {
    && h'.consumptions == h.consumptions + Ind(Charges(c, s, v, e))
    && h'.refunds == h.refunds + Ind(Refunds(c, s.now, v, e))
    && h'.lateRefunds == h.lateRefunds + Ind(RefundsLate(v, e))
    && h'.leaks == h.leaks + Ind(LosesCharge(v, e))
    && h'.missed == h.missed + Ind(Misses(e))
  }

  lemma WorkRecordsTokens(c: Config, s: State, v: View, e: WorkStep)
    requires JobOk(v) && EnabledWork(v, e)
    ensures RecordsTokens(c, s, v, Work(e), v.job.hist, NextView(c, s, v, Work(e)).job.hist)
  {}

  lemma FailureRecordsTokens(c: Config, s: State, v: View, e: FailureStep)
    requires EnabledFailure(v, e)
    ensures RecordsTokens(c, s, v, Fail(e), v.job.hist, NextView(c, s, v, Fail(e)).job.hist)
  {}

  lemma StaleRecordsTokens(c: Config, s: State, v: View, e: StaleStep)
    requires EnabledStale(s.now, v, e)
    ensures RecordsTokens(c, s, v, Stale(e), v.job.hist, NextView(c, s, v, Stale(e)).job.hist)
  {}

  lemma StepRecordsTokens(c: Config, s: State, v: View, e: JobStep)
    requires JobOk(v) && EnabledStep(s.now, v, e)
    ensures RecordsTokens(c, s, v, e, v.job.hist, NextView(c, s, v, e).job.hist)
  {
    match e
    case Work(w) => WorkRecordsTokens(c, s, v, w);
    case Fail(f) => FailureRecordsTokens(c, s, v, f);
    case Stale(t) => StaleRecordsTokens(c, s, v, t);
    case Request(_) =>
    case Succeed(_) =>
    case Sync(_) =>
  }

  ghost predicate RecordsOutcome(v: View, e: JobStep, h: History, h': History) {
    && h'.writes == h.writes + Ind(Settles(e))
    && h'.revivals == h.revivals + Ind(Revives(v, e))
    && h'.lateWrites == h.lateWrites + Ind(WritesLate(v, e))
  }

  lemma WorkRecordsOutcome(now: int, code: int, life: nat, v: View, e: WorkStep)
    requires EnabledWork(v, e)
    ensures RecordsOutcome(v, Work(e), v.job.hist, WorkView(now, code, life, v, e).job.hist)
  {}

  lemma FailureRecordsOutcome(now: int, v: View, e: FailureStep)
    requires EnabledFailure(v, e)
    ensures RecordsOutcome(v, Fail(e), v.job.hist, FailureView(now, v, e).job.hist)
  {}

  lemma StaleRecordsOutcome(now: int, native: bool, v: View, e: StaleStep)
    requires EnabledStale(now, v, e)
    ensures RecordsOutcome(v, Stale(e), v.job.hist, StaleView(now, native, v, e).job.hist)
  {}

  lemma StepRecordsOutcome(c: Config, s: State, v: View, e: JobStep)
    requires EnabledStep(s.now, v, e)
    ensures RecordsOutcome(v, e, v.job.hist, NextView(c, s, v, e).job.hist)
  {
    match e
    case Work(w) => WorkRecordsOutcome(s.now, CodeFor(c, s, v.job), BookOf(s, ModelRpd(v.job.info.model)).life, v, w);
    case Fail(f) => FailureRecordsOutcome(s.now, v, f);
    case Stale(t) => StaleRecordsOutcome(s.now, NativeUserToken(c, s, v.job), v, t);
    case Request(_) =>
    case Succeed(_) =>
    case Sync(_) =>
  }

  ghost predicate RecordsStep(c: Config, s: State, v: View, e: JobStep, h: History, h': History) {
    RecordsTokens(c, s, v, e, h, h') && RecordsOutcome(v, e, h, h')
  }

  lemma OwnStepRecords(c: Config, s: State, v: View, e: JobStep)
    requires JobOk(v) && EnabledStep(s.now, v, e)
    ensures RecordsStep(c, s, v, e, v.job.hist, NextView(c, s, v, e).job.hist)
  {
    StepRecordsTokens(c, s, v, e);
    StepRecordsOutcome(c, s, v, e);
  }

  ghost predicate Records(c: Config, s: State, e: Event, h: History, h': History, j: JobId) {
    && h'.consumptions == h.consumptions + Ind(ChargeOf(c, j)(s, e))
    && h'.refunds == h.refunds + Ind(RefundOf(c, j)(s, e))
    && h'.lateRefunds == h.lateRefunds + Ind(LateRefundOf(j)(s, e))
    && h'.leaks == h.leaks + Ind(LostChargeOf(j)(s, e))
    && h'.missed == h.missed + Ind(MissOf(j)(s, e))
    && h'.writes == h.writes + Ind(OutcomeOf(j)(s, e))
    && h'.revivals == h.revivals + Ind(RevivalOf(j)(s, e))
    && h'.lateWrites == h.lateWrites + Ind(LateWriteOf(j)(s, e))
  }

  lemma OwnEventRecords(c: Config, s: State, j: JobId, e: JobStep, h: History, h': History)
    requires j in s.jobs && RecordsStep(c, s, ViewOf(s, j), e, h, h')
    ensures Records(c, s, OfJob(j, e), h, h', j)
  {}

  lemma OtherEventRecords(c: Config, s: State, e: Event, h: History, j: JobId)
    requires !IsStepOf(s, e, j)
    ensures Records(c, s, e, h, h, j)
  {}

  lemma OtherEventKeepsHistory(c: Config, s: State, e: Event, j: JobId)
    requires Enabled(s, e) && !IsStepOf(s, e, j)
    ensures HistoryOf(Apply(c, s, e), j).(userToken := NoToken) == HistoryOf(s, j).(userToken := NoToken)
  {}

  lemma StepRecords(c: Config, s: State, e: Event, j: JobId)
    requires Local(s) && Enabled(s, e)
    ensures Records(c, s, e, HistoryOf(s, j), HistoryOf(Apply(c, s, e), j), j)
  {
    if IsStepOf(s, e, j) {
      OwnStepRecords(c, s, ViewOf(s, j), e.step);
      OwnEventRecords(c, s, j, e.step, s.jobs[j].hist, NextView(c, s, ViewOf(s, j), e.step).job.hist);
    } else {
      OtherEventRecords(c, s, e, HistoryOf(s, j), j);
      OtherEventKeepsHistory(c, s, e, j);
    }
  }

  ghost predicate Counted(c: Config, ss: seq<State>, es: seq<Event>, h: History, j: JobId, n: nat)
    requires n <= |es| < |ss|
  {
    && h.consumptions == Events(ss, es, ChargeOf(c, j), 0, n)
    && h.refunds == Events(ss, es, RefundOf(c, j), 0, n)
    && h.lateRefunds == Events(ss, es, LateRefundOf(j), 0, n)
    && h.leaks == Events(ss, es, LostChargeOf(j), 0, n)
    && h.missed == Events(ss, es, MissOf(j), 0, n)
    && h.writes == Events(ss, es, OutcomeOf(j), 0, n)
    && h.revivals == Events(ss, es, RevivalOf(j), 0, n)
    && h.lateWrites == Events(ss, es, LateWriteOf(j), 0, n)
  }

  lemma CountOneMore(c: Config, ss: seq<State>, es: seq<Event>, h: History, h': History, j: JobId, n: nat)
    requires n < |es| < |ss| && Counted(c, ss, es, h, j, n) && Records(c, ss[n], es[n], h, h', j)
    ensures Counted(c, ss, es, h', j, n + 1)
  {}

  lemma {:induction false} HistoryCountsEvents(c: Config, ss: seq<State>, es: seq<Event>, j: JobId, n: nat)
    requires Run(c, ss, es) && n <= |es|
    ensures Counted(c, ss, es, HistoryOf(ss[n], j), j, n)
  {
    if n > 0 {
      HistoryCountsEvents(c, ss, es, j, n - 1);
      RunIsLocal(c, ss, es, n - 1);
      assert StepAt(c, ss, es, n - 1);
      StepRecords(c, ss[n - 1], es[n - 1], j);
      CountOneMore(c, ss, es, HistoryOf(ss[n - 1], j), HistoryOf(ss[n], j), j, n - 1);
    }
  }

  // ---- theorems --------------------------------------------------------------------

  // However often a job is retried, delayed or requeued: it is charged once, plus once for
  // each worker that dies before it could note the charge; it is refunded at most once, plus
  // once by a late expiry or when the listener misses the job, and only if it was charged.
  lemma ChargedOnceRefundedOnce(c: Config, ss: seq<State>, es: seq<Event>, j: JobId)
    requires Run(c, ss, es)
    ensures var charges, lost := Events(ss, es, ChargeOf(c, j), 0, |es|), Events(ss, es, LostChargeOf(j), 0, |es|);
            var refunds, late := Events(ss, es, RefundOf(c, j), 0, |es|), Events(ss, es, LateRefundOf(j), 0, |es|);
            var missed := Events(ss, es, MissOf(j), 0, |es|);
            && charges <= 1 + lost
            && late <= refunds <= 1 + late + missed && refunds <= 2 && late <= 1 && missed <= 1
            && refunds + lost <= charges + late + missed
            && (refunds > 0 ==> charges > lost)
  {
    HistoryCountsEvents(c, ss, es, j, |es|);
    RunIsLocal(c, ss, es, |es|);
    assert j in ss[|es|].jobs ==> TokenOk(ViewOf(ss[|es|], j)) && LateOk(ViewOf(ss[|es|], j));
  }

  // Success, final failure and expiry each write the result once; it is written again exactly
  // once each time the job is taken up again, if it finishes again, and once by a late expiry.
  // So a finished job has one outcome if and only if neither happened to it.
  lemma OneOutcome(c: Config, ss: seq<State>, es: seq<Event>, j: JobId)
    requires Run(c, ss, es)
    ensures var writes := Events(ss, es, OutcomeOf(j), 0, |es|);
            var again := Events(ss, es, RevivalOf(j), 0, |es|) + Events(ss, es, LateWriteOf(j), 0, |es|);
            && again <= writes <= 1 + again
            && (j in ss[|es|].jobs && Settled(ss[|es|].jobs[j].pc) ==> writes == 1 + again)
  {
    HistoryCountsEvents(c, ss, es, j, |es|);
    RunIsLocal(c, ss, es, |es|);
    assert j in ss[|es|].jobs ==> WritesOk(ViewOf(ss[|es|], j));
  }
}
