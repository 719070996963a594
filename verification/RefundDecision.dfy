/** When tokens are given back. The failure listener and the expiry cron decide from two flags
    of the meta hash, tokens_consumed and provider_completed. Over whole runs: they refund if
    and only if a charge was noted and the last attempt to call the provider has not been noted
    as completed. */
module RefundDecision {
  import opened Redis
  import opened Lifecycle
  import opened JobInvariant
  import opened EventCounts
  import opened Traces

  // HSET tokens_consumed true
  ghost function NoteOf(j: JobId): (State, Event) -> bool {
    (s: State, e: Event) => e == OfJob(j, Work(FlagConsumed))
  }

  // HSET provider_completed false, before the provider is called
  ghost predicate CallsAt(es: seq<Event>, j: JobId, i: nat)
    requires i < |es|
  {
    es[i] == OfJob(j, Work(CallProvider))
  }

  // Among the first n events the job has set provider_completed after its last call.
  ghost predicate CompletedSince(es: seq<Event>, j: JobId, n: nat)
    requires n <= |es|
  {
    n > 0 && !CallsAt(es, j, n - 1) && (es[n - 1] == OfJob(j, Work(FlagCompleted)) || CompletedSince(es, j, n - 1))
  }

  // ---- the flags tell the events -----------------------------------------------------

  ghost predicate Told(s: State, j: JobId, noted: bool, completed: bool) {
    if j in s.jobs then ToldBy(ViewOf(s, j), noted, completed) else !noted && !completed
  }

  ghost predicate ToldBy(v: View, noted: bool, completed: bool) {
    && (!Submitted(v.job.pc) ==> !noted && !completed)
    && (v.meta.Some? && !Remade(v.job) ==>
          v.meta.value.tokensConsumed == noted && v.meta.value.providerCompleted == completed)
  }

  lemma WorkTells(now: int, code: int, life: nat, v: View, e: WorkStep, noted: bool, completed: bool)
    requires JobOk(v) && EnabledWork(v, e) && ToldBy(v, noted, completed)
    ensures ToldBy(WorkView(now, code, life, v, e), noted || e == FlagConsumed,
                   e != CallProvider && (e == FlagCompleted || completed))
  {}

  lemma FailureTells(now: int, v: View, e: FailureStep, noted: bool, completed: bool)
    requires JobOk(v) && EnabledFailure(v, e) && ToldBy(v, noted, completed)
    ensures ToldBy(FailureView(now, v, e), noted, completed)
  {}

  lemma StaleTells(now: int, native: bool, v: View, e: StaleStep, noted: bool, completed: bool)
    requires JobOk(v) && EnabledStale(now, v, e) && ToldBy(v, noted, completed)
    ensures ToldBy(StaleView(now, native, v, e), noted, completed)
  {}

  lemma StepTells(c: Config, s: State, v: View, e: JobStep, noted: bool, completed: bool)
    requires JobOk(v) && EnabledStep(s.now, v, e) && ToldBy(v, noted, completed)
    ensures ToldBy(NextView(c, s, v, e), noted || e == Work(FlagConsumed),
                   e != Work(CallProvider) && (e == Work(FlagCompleted) || completed))
  {
    match e
    case Work(w) => WorkTells(s.now, CodeFor(c, s, v.job), BookOf(s, ModelRpd(v.job.info.model)).life, v, w, noted, completed);
    case Fail(f) => FailureTells(s.now, v, f, noted, completed);
    case Stale(t) => StaleTells(s.now, NativeUserToken(c, s, v.job), v, t, noted, completed);
    case Request(_) =>
    case Succeed(_) =>
    case Sync(_) =>
  }

  // Any other event leaves the job's view as it is, or admits it.
  lemma OtherEventTells(c: Config, s: State, e: Event, j: JobId, noted: bool, completed: bool)
    requires Local(s) && Enabled(s, e) && Told(s, j, noted, completed) && !(e.OfJob? && e.j == j)
    ensures Told(Apply(c, s, e), j, noted, completed)
  {
    if j in s.jobs {
      EventLeavesView(c, s, e, j);
    }
  }

  lemma OwnEventTells(c: Config, s: State, j: JobId, e: JobStep, noted: bool, completed: bool)
    requires Local(s) && Enabled(s, OfJob(j, e)) && Told(s, j, noted, completed)
    ensures Told(AfterStep(c, s, j, e), j, noted || e == Work(FlagConsumed),
                 e != Work(CallProvider) && (e == Work(FlagCompleted) || completed))
  {
    StepTells(c, s, ViewOf(s, j), e, noted, completed);
    OwnView(c, s, j, e);
  }

  lemma EventTells(c: Config, s: State, e: Event, j: JobId, noted: bool, completed: bool)
    requires Local(s) && Enabled(s, e) && Told(s, j, noted, completed)
    ensures Told(Apply(c, s, e), j, noted || e == OfJob(j, Work(FlagConsumed)),
                 e != OfJob(j, Work(CallProvider)) && (e == OfJob(j, Work(FlagCompleted)) || completed))
  {
    if e.OfJob? && e.j == j {
      OwnEventTells(c, s, j, e.step, noted, completed);
    } else {
      OtherEventTells(c, s, e, j, noted, completed);
    }
  }

  lemma {:induction false} FlagsTellEvents(c: Config, ss: seq<State>, es: seq<Event>, j: JobId, n: nat)
    requires Run(c, ss, es) && n <= |es|
    ensures Told(ss[n], j, Events(ss, es, NoteOf(j), 0, n) > 0, CompletedSince(es, j, n))
  {
    if n > 0 {
      FlagsTellEvents(c, ss, es, j, n - 1);
      RunIsLocal(c, ss, es, n - 1);
      assert StepAt(c, ss, es, n - 1);
      EventTells(c, ss[n - 1], es[n - 1], j, Events(ss, es, NoteOf(j), 0, n - 1) > 0, CompletedSince(es, j, n - 1));
    }
  }

  // ---- the decisions -----------------------------------------------------------------

  ghost predicate Due(ss: seq<State>, es: seq<Event>, j: JobId, n: nat)
    requires n <= |es| < |ss|
  {
    Events(ss, es, NoteOf(j), 0, n) > 0 && !CompletedSince(es, j, n)
  }

  lemma FailureFollowsFlags(c: Config, now: int, v: View)
    requires JobOk(v) && EnabledStep(now, v, Fail(DecideRefund))
    ensures v.meta.Some? && !Remade(v.job) && Submitted(v.job.pc)
    ensures Refunds(c, now, v, Fail(DecideRefund)) <==> v.meta.value.tokensConsumed && !v.meta.value.providerCompleted
  {}

  // A final failure is refunded if and only if a charge had been noted and the last call had
  // not been noted as completed.
  lemma FailureRefundsExactlyWhenDue(c: Config, ss: seq<State>, es: seq<Event>, j: JobId, i: nat)
    requires Run(c, ss, es) && i < |es| && es[i] == OfJob(j, Fail(DecideRefund))
    ensures RefundOf(c, j)(ss[i], es[i]) <==> Due(ss, es, j, i)
  {
    FlagsTellEvents(c, ss, es, j, i);
    RunIsLocal(c, ss, es, i);
    assert StepAt(c, ss, es, i);
    FailureFollowsFlags(c, ss[i].now, ViewOf(ss[i], j));
  }

  // The copies of the flags that the expiry cron carries.
  ghost predicate Carries(x: Job, tokens: bool, completed: bool) {
    && (x.cron.Read? || x.cron.LateRemoved? ==> x.cron.tokens == tokens && x.cron.completed == completed)
    && (x.pc.Removed? ==> x.pc.tokens == tokens && x.pc.completed == completed)
  }

  lemma StepCarries(c: Config, s: State, v: View, e: JobStep, tokens: bool, completed: bool)
    requires EnabledStep(s.now, v, e) && e != Stale(ReadStale) && Carries(v.job, tokens, completed)
    ensures Carries(NextView(c, s, v, e).job, tokens, completed)
  {}

  lemma ReadCarries(c: Config, s: State, j: JobId)
    requires Local(s) && Enabled(s, OfJob(j, Stale(ReadStale)))
    ensures var s' := Apply(c, s, OfJob(j, Stale(ReadStale)));
            j in s'.jobs && Carries(s'.jobs[j], MetaOf(s.db, j).tokensConsumed, MetaOf(s.db, j).providerCompleted)
    ensures !Remade(s.jobs[j])
  {
    assert LateOk(ViewOf(s, j));
  }

  lemma {:induction false} FlagsAreCarried(c: Config, ss: seq<State>, es: seq<Event>, j: JobId, k: nat, i: nat,
                                           tokens: bool, completed: bool)
    requires Run(c, ss, es) && k <= i < |ss| && j in ss[k].jobs && Carries(ss[k].jobs[j], tokens, completed)
    requires forall n :: k <= n < i ==> es[n] != OfJob(j, Stale(ReadStale))
    ensures j in ss[i].jobs && Carries(ss[i].jobs[j], tokens, completed)
  {
    if k < i {
      FlagsAreCarried(c, ss, es, j, k, i - 1, tokens, completed);
      assert StepAt(c, ss, es, i - 1);
      if es[i - 1].OfJob? && es[i - 1].j == j {
        StepCarries(c, ss[i - 1], ViewOf(ss[i - 1], j), es[i - 1].step, tokens, completed);
      }
    }
  }

  lemma ExpiryFollowsFlags(c: Config, now: int, v: View, startedAt: int, tokens: bool, completed: bool)
    requires EnabledStep(now, v, Stale(RefundStale(startedAt))) && Carries(v.job, tokens, completed)
    ensures Refunds(c, now, v, Stale(RefundStale(startedAt))) <==> tokens && !completed
  {}

  // An expiry refunds if and only if that was so, and the meta was there, when the cron read
  // the flags.
  lemma ExpiryRefundsExactlyWhenDue(c: Config, ss: seq<State>, es: seq<Event>, j: JobId, k: nat, i: nat, startedAt: int)
    requires Run(c, ss, es) && k < i < |es|
    requires es[k] == OfJob(j, Stale(ReadStale)) && es[i] == OfJob(j, Stale(RefundStale(startedAt)))
    requires forall n :: k < n < i ==> es[n] != OfJob(j, Stale(ReadStale))
    ensures RefundOf(c, j)(ss[i], es[i]) <==> j in ss[k].db.metas && Due(ss, es, j, k)
  {
    FlagsTellEvents(c, ss, es, j, k);
    RunIsLocal(c, ss, es, k);
    assert StepAt(c, ss, es, k);
    ReadCarries(c, ss[k], j);
    var meta := MetaOf(ss[k].db, j);
    FlagsAreCarried(c, ss, es, j, k + 1, i, meta.tokensConsumed, meta.providerCompleted);
    assert StepAt(c, ss, es, i);
    ExpiryFollowsFlags(c, ss[i].now, ViewOf(ss[i], j), startedAt, meta.tokensConsumed, meta.providerCompleted);
  }

  // ---- completed calls ---------------------------------------------------------------

  // Neither the meta nor a copy of its flags calls for a refund.
  ghost predicate Closed(v: View) {
    && Submitted(v.job.pc)
    && (v.meta.Some? && !Remade(v.job) ==> v.meta.value.providerCompleted)
    && (v.meta.None? ==> Finished(v.job.pc))
    && (v.job.cron.Read? || v.job.cron.LateRemoved? ==> v.job.cron.completed || !v.job.cron.tokens)
    && (v.job.pc.Removed? ==> v.job.pc.completed || !v.job.pc.tokens)
  }

  lemma WorkKeepsClosed(now: int, code: int, life: nat, v: View, e: WorkStep)
    requires JobOk(v) && EnabledWork(v, e) && e != CallProvider && Closed(v)
    ensures Closed(WorkView(now, code, life, v, e))
  {}

  lemma StaleKeepsClosed(c: Config, s: State, v: View, e: StaleStep)
    requires JobOk(v) && EnabledStep(s.now, v, Stale(e)) && Closed(v)
    ensures Closed(NextView(c, s, v, Stale(e))) && !Refunds(c, s.now, v, Stale(e))
  {}

  lemma FailureKeepsClosed(c: Config, s: State, v: View, e: FailureStep)
    requires JobOk(v) && EnabledStep(s.now, v, Fail(e)) && Closed(v)
    ensures Closed(NextView(c, s, v, Fail(e))) && !Refunds(c, s.now, v, Fail(e))
  {}

  lemma ClosedStep(c: Config, s: State, v: View, e: JobStep)
    requires JobOk(v) && EnabledStep(s.now, v, e) && e != Work(CallProvider) && Closed(v)
    ensures Closed(NextView(c, s, v, e)) && !Refunds(c, s.now, v, e)
  {
    match e
    case Work(w) => WorkKeepsClosed(s.now, CodeFor(c, s, v.job), BookOf(s, ModelRpd(v.job.info.model)).life, v, w);
    case Fail(f) => FailureKeepsClosed(c, s, v, f);
    case Stale(t) => StaleKeepsClosed(c, s, v, t);
    case Request(_) =>
    case Succeed(_) =>
    case Sync(_) =>
  }

  lemma ClosedEvent(c: Config, s: State, e: Event, j: JobId)
    requires Local(s) && Enabled(s, e) && j in s.jobs && Closed(ViewOf(s, j)) && e != OfJob(j, Work(CallProvider))
    ensures j in Apply(c, s, e).jobs && Closed(ViewOf(Apply(c, s, e), j)) && !RefundOf(c, j)(s, e)
  {
    if e.OfJob? && e.j == j {
      ClosedStep(c, s, ViewOf(s, j), e.step);
      OwnView(c, s, j, e.step);
    } else {
      EventLeavesView(c, s, e, j);
    }
  }

  lemma {:induction false} NoRefundAfter(c: Config, ss: seq<State>, es: seq<Event>, j: JobId, k: nat, i: nat)
    requires Run(c, ss, es) && k <= i <= |es| && j in ss[k].jobs && Closed(ViewOf(ss[k], j))
    requires forall n :: k <= n < i ==> !CallsAt(es, j, n)
    ensures j in ss[i].jobs && Closed(ViewOf(ss[i], j))
    ensures Events(ss, es, RefundOf(c, j), k, i) == 0
  {
    if k < i {
      NoRefundAfter(c, ss, es, j, k, i - 1);
      RunIsLocal(c, ss, es, i - 1);
      assert StepAt(c, ss, es, i - 1) && !CallsAt(es, j, i - 1);
      ClosedEvent(c, ss[i - 1], es[i - 1], j);
    }
  }

  lemma CompletionStepCloses(c: Config, s: State, v: View)
    requires JobOk(v) && EnabledStep(s.now, v, Work(FlagCompleted))
    requires v.job.cron.Read? ==> v.job.cron.completed || !v.job.cron.tokens
    ensures Closed(NextView(c, s, v, Work(FlagCompleted))) && !Refunds(c, s.now, v, Work(FlagCompleted))
    ensures v.job.hist.refunds == 0
  {}

  lemma CompletionCloses(c: Config, s: State, j: JobId, e: Event)
    requires Local(s) && e == OfJob(j, Work(FlagCompleted)) && Enabled(s, e)
    requires s.jobs[j].cron.Read? ==> s.jobs[j].cron.completed || !s.jobs[j].cron.tokens
    ensures j in Apply(c, s, e).jobs && Closed(ViewOf(Apply(c, s, e), j)) && !RefundOf(c, j)(s, e)
    ensures s.jobs[j].hist.refunds == 0
  {
    CompletionStepCloses(c, s, ViewOf(s, j));
    OwnView(c, s, j, e.step);
  }

  lemma NoRefundBefore(c: Config, ss: seq<State>, es: seq<Event>, j: JobId, k: nat)
    requires Run(c, ss, es) && k < |es| && j in ss[k].jobs && ss[k].jobs[j].hist.refunds == 0
    requires !RefundOf(c, j)(ss[k], es[k])
    ensures Events(ss, es, RefundOf(c, j), 0, k + 1) == 0
  {
    HistoryCountsEvents(c, ss, es, j, k);
  }

  lemma ClosedAtCompletion(c: Config, ss: seq<State>, es: seq<Event>, j: JobId, k: nat)
    requires Run(c, ss, es) && k < |es| && es[k] == OfJob(j, Work(FlagCompleted)) && StepAt(c, ss, es, k)
    requires ss[k].jobs[j].cron.Read? ==> ss[k].jobs[j].cron.completed || !ss[k].jobs[j].cron.tokens
    ensures j in ss[k + 1].jobs && Closed(ViewOf(ss[k + 1], j))
    ensures Events(ss, es, RefundOf(c, j), 0, k + 1) == 0
  {
    RunIsLocal(c, ss, es, k);
    CompletionCloses(c, ss[k], j, es[k]);
    NoRefundBefore(c, ss, es, j, k);
  }

  // A job that has set provider_completed is not refunded, neither before nor after, unless a
  // later attempt calls the provider again or the expiry cron holds older flags of it.
  lemma CompletedCallIsNotRefunded(c: Config, ss: seq<State>, es: seq<Event>, j: JobId, k: nat)
    requires Run(c, ss, es) && k < |es| && es[k] == OfJob(j, Work(FlagCompleted)) && StepAt(c, ss, es, k)
    requires forall n :: k < n < |es| ==> !CallsAt(es, j, n)
    requires ss[k].jobs[j].cron.Read? ==> ss[k].jobs[j].cron.completed || !ss[k].jobs[j].cron.tokens
    ensures Events(ss, es, RefundOf(c, j), 0, |es|) == 0
  {
    ClosedAtCompletion(c, ss, es, j, k);
    NoRefundAfter(c, ss, es, j, k + 1, |es|);
    EventsSplit(ss, es, RefundOf(c, j), 0, k + 1, |es|);
  }
}
