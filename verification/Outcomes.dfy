/** What /status answers: the status field of the result hash, else of the meta hash, else the
    database row, read at three different moments while hashes may expire in between. A job
    whose first outcome is a failure answers it for ever. One whose first outcome is a success
    answers it until one of three kinds of steps, and changes its answer in every such step. */
module Outcomes {
  import opened Redis
  import opened Lifecycle
  import opened JobInvariant
  import opened EventCounts

  // src/routes/resume/resume.ts, GET /:id/status: HGET of the result in state s1, HGET of the
  // meta in s2, SELECT in s3. None is the 404 answer.
  function StatusAnswer(s1: State, s2: State, s3: State, j: JobId): Option<Status> {
    if ResultOf(s1.db, j).status.Some? then ResultOf(s1.db, j).status
    else if MetaOf(s2.db, j).status.Some? then MetaOf(s2.db, j).status
    else Lookup(s3.rows, j)
  }

  // ---- the steps that change the answer ---------------------------------------------

  // A success is overturned: a failure or an expiry is written over it, or a new attempt marks
  // the job as in progress when its result hash is gone.
  predicate Overturns(v: View, e: JobStep) {
    && v.job.hist.outcome == Some(Completed)
    && ((e.Fail? && e.failure.WriteFailedResult?)
        || (e.Stale? && e.stale.ReleaseStale?)
        || (e == Work(MarkInProgress) && v.result.None?))
  }

  ghost function OverturnOf(j: JobId): (State, Event) -> bool {
    (s: State, e: Event) => IsStepOf(s, e, j) && Overturns(ViewOf(s, j), e.step)
  }

  // What is stored of a job whose success has not been overturned.
  ghost predicate SuccessStays(v: View) {
    var x := v.job;
    && (Settled(x.pc) ==> Succeeding(x.pc))
    && (v.result.Some? ==> v.result.value.status == Some(Completed))
    && (v.row.Some? ==> v.row == Some(Completed))
    && (v.meta.Some? && (v.result.None? || Succeeding(x.pc)) ==> v.meta.value.status == Some(Completed))
    && ((Running(x.pc) && !x.pc.Fetched?) || (Succeeding(x.pc) && !x.pc.Done?) ==> v.result.Some?)
  }

  ghost predicate Stays(v: View) { v.job.hist.outcome == Some(Completed) ==> SuccessStays(v) }

  lemma WorkKeepsSuccess(now: int, code: int, life: nat, v: View, e: WorkStep)
    requires JobOk(v) && EnabledWork(v, e) && Stays(v) && !Overturns(v, Work(e))
    ensures Stays(WorkView(now, code, life, v, e))
  {}

  lemma FailureKeepsSuccess(now: int, v: View, e: FailureStep)
    requires JobOk(v) && EnabledFailure(v, e) && Stays(v) && !Overturns(v, Fail(e))
    ensures Stays(FailureView(now, v, e))
  {}

  lemma StaleKeepsSuccess(now: int, native: bool, v: View, e: StaleStep)
    requires JobOk(v) && EnabledStale(now, v, e) && Stays(v) && !Overturns(v, Stale(e))
    ensures Stays(StaleView(now, native, v, e))
  {}

  lemma SuccessKeepsSuccess(now: int, v: View, e: SuccessStep)
    requires JobOk(v) && EnabledSuccess(v, e) && Stays(v)
    ensures Stays(SuccessView(now, v, e))
  {}

  lemma SyncKeepsSuccess(now: int, v: View, e: SyncStep)
    requires JobOk(v) && EnabledSync(v, e) && Stays(v)
    ensures Stays(SyncView(now, v, e))
  {}

  lemma StepKeepsSuccess(c: Config, s: State, v: View, e: JobStep)
    requires JobOk(v) && EnabledStep(s.now, v, e) && Stays(v) && !Overturns(v, e)
    ensures Stays(NextView(c, s, v, e))
  {
    match e
    case Work(w) => WorkKeepsSuccess(s.now, CodeFor(c, s, v.job), BookOf(s, ModelRpd(v.job.info.model)).life, v, w);
    case Fail(f) => FailureKeepsSuccess(s.now, v, f);
    case Stale(t) => StaleKeepsSuccess(s.now, NativeUserToken(c, s, v.job), v, t);
    case Succeed(w) => SuccessKeepsSuccess(s.now, v, w);
    case Sync(y) => SyncKeepsSuccess(s.now, v, y);
    case Request(_) =>
  }

  // Each of these steps changes what is read right after it.
  lemma OverturnShows(c: Config, s: State, v: View, e: JobStep)
    requires EnabledStep(s.now, v, e) && Overturns(v, e)
    ensures var v' := NextView(c, s, v, e);
            if v'.result.Some? then v'.result.value.status == Some(Failed)
            else v'.meta.Some? && v'.meta.value.status == Some(InProgress)
  {}

  // ---- over a run ---------------------------------------------------------------------

  ghost predicate StaysIn(s: State, j: JobId) { j in s.jobs ==> Stays(ViewOf(s, j)) }

  lemma EventKeepsSuccess(c: Config, s: State, e: Event, j: JobId)
    requires Local(s) && Enabled(s, e) && StaysIn(s, j) && !OverturnOf(j)(s, e)
    ensures StaysIn(Apply(c, s, e), j)
  {
    if e.OfJob? && e.j == j {
      StepKeepsSuccess(c, s, ViewOf(s, j), e.step);
      OwnView(c, s, j, e.step);
    } else if j in s.jobs {
      EventLeavesView(c, s, e, j);
    }
  }

  lemma {:induction false} SuccessStaysInRun(c: Config, ss: seq<State>, es: seq<Event>, j: JobId, n: nat)
    requires Run(c, ss, es) && n <= |es| && Events(ss, es, OverturnOf(j), 0, n) == 0
    ensures StaysIn(ss[n], j)
  {
    if n > 0 {
      SuccessStaysInRun(c, ss, es, j, n - 1);
      RunIsLocal(c, ss, es, n - 1);
      assert StepAt(c, ss, es, n - 1);
      EventKeepsSuccess(c, ss[n - 1], es[n - 1], j);
    }
  }

  // The first outcome never changes, nor does a row go, nor does a meta hash that has to
  // answer for a missing result tell anything else.
  ghost predicate Answering(v: View) {
    && v.job.hist.outcome.Some?
    && (v.job.hist.outcome == Some(Completed) ==> v.result.None?)
    && (v.meta.Some? ==> v.meta.value.status == v.job.hist.outcome)
  }

  ghost predicate KeepsView(v: View, v': View) {
    && (v.job.hist.outcome.Some? ==> v'.job.hist.outcome == v.job.hist.outcome)
    && (v.row.Some? ==> v'.row.Some?)
    && (Answering(v) ==> Answering(v'))
  }

  lemma WorkKeepsView(now: int, code: int, life: nat, v: View, e: WorkStep)
    requires JobOk(v) && EnabledWork(v, e) && Stays(v) && !Overturns(v, Work(e))
    ensures KeepsView(v, WorkView(now, code, life, v, e))
  {}

  lemma FailureKeepsView(now: int, v: View, e: FailureStep)
    requires JobOk(v) && EnabledFailure(v, e) && Stays(v) && !Overturns(v, Fail(e))
    ensures KeepsView(v, FailureView(now, v, e))
  {}

  lemma SuccessKeepsView(now: int, v: View, e: SuccessStep)
    requires JobOk(v) && EnabledSuccess(v, e) && Stays(v)
    ensures KeepsView(v, SuccessView(now, v, e))
  {}

  lemma StaleKeepsView(now: int, native: bool, v: View, e: StaleStep)
    requires JobOk(v) && EnabledStale(now, v, e) && Stays(v) && !Overturns(v, Stale(e))
    ensures KeepsView(v, StaleView(now, native, v, e))
  {}

  lemma SyncKeepsView(now: int, v: View, e: SyncStep)
    requires JobOk(v) && EnabledSync(v, e) && Stays(v)
    ensures KeepsView(v, SyncView(now, v, e))
  {}

  lemma StepKeepsView(c: Config, s: State, v: View, e: JobStep)
    requires JobOk(v) && EnabledStep(s.now, v, e) && Stays(v) && !Overturns(v, e)
    ensures KeepsView(v, NextView(c, s, v, e))
  {
    match e
    case Work(w) => WorkKeepsView(s.now, CodeFor(c, s, v.job), BookOf(s, ModelRpd(v.job.info.model)).life, v, w);
    case Fail(f) => FailureKeepsView(s.now, v, f);
    case Stale(t) => StaleKeepsView(s.now, NativeUserToken(c, s, v.job), v, t);
    case Succeed(w) => SuccessKeepsView(s.now, v, w);
    case Sync(y) => SyncKeepsView(s.now, v, y);
    case Request(_) =>
  }

  ghost predicate Keeps(s: State, s': State, j: JobId) {
    j in s.jobs ==> j in s'.jobs && KeepsView(ViewOf(s, j), ViewOf(s', j))
  }

  lemma EventKeepsView(c: Config, s: State, e: Event, j: JobId)
    requires Local(s) && Enabled(s, e) && StaysIn(s, j) && !OverturnOf(j)(s, e)
    ensures Keeps(s, Apply(c, s, e), j)
  {
    if e.OfJob? && e.j == j {
      StepKeepsView(c, s, ViewOf(s, j), e.step);
      OwnView(c, s, j, e.step);
    } else if j in s.jobs {
      EventLeavesView(c, s, e, j);
    }
  }

  lemma RunStepKeepsView(c: Config, ss: seq<State>, es: seq<Event>, j: JobId, k: nat)
    requires Run(c, ss, es) && k < |es| && Events(ss, es, OverturnOf(j), 0, k + 1) == 0
    ensures Keeps(ss[k], ss[k + 1], j)
  {
    RunIsLocal(c, ss, es, k);
    SuccessStaysInRun(c, ss, es, j, k);
    assert StepAt(c, ss, es, k);
    EventKeepsView(c, ss[k], es[k], j);
  }

  lemma KeepsOn(a: State, b: State, d: State, j: JobId)
    requires Keeps(a, b, j) && Keeps(b, d, j)
    ensures Keeps(a, d, j)
  {}

  lemma {:induction false} RunKeepsView(c: Config, ss: seq<State>, es: seq<Event>, j: JobId, i: nat, k: nat)
    requires Run(c, ss, es) && i <= k <= |es| && Events(ss, es, OverturnOf(j), 0, k) == 0
    ensures Keeps(ss[i], ss[k], j)
  {
    if i < k {
      RunKeepsView(c, ss, es, j, i, k - 1);
      RunStepKeepsView(c, ss, es, j, k - 1);
      KeepsOn(ss[i], ss[k - 1], ss[k], j);
    }
  }

  // A job with an outcome shows it in its result hash; without one, in its row, and its meta
  // tells nothing else.
  lemma SourcesOf(s: State, j: JobId)
    requires Local(s) && StaysIn(s, j) && j in s.jobs && s.jobs[j].hist.outcome.Some?
    ensures j in s.db.results ==> s.db.results[j].status == s.jobs[j].hist.outcome
    ensures j !in s.db.results ==> j in s.rows && Answering(ViewOf(s, j))
    ensures j in s.rows ==> Some(s.rows[j]) == s.jobs[j].hist.outcome
    ensures s.jobs[j].hist.outcome == Some(Completed) || s.jobs[j].hist.outcome == Some(Failed)
  {
    assert OutcomeOk(ViewOf(s, j)) && WritesOk(ViewOf(s, j));
  }

  lemma SourcesAgree(s1: State, s2: State, s3: State, j: JobId)
    requires Local(s1) && StaysIn(s1, j) && Local(s3) && StaysIn(s3, j)
    requires j in s1.jobs && s1.jobs[j].hist.outcome.Some?
    requires Keeps(s1, s2, j) && Keeps(s2, s3, j)
    ensures StatusAnswer(s1, s2, s3, j) == s3.jobs[j].hist.outcome
  {
    SourcesOf(s1, j);
    SourcesOf(s3, j);
  }

  ghost predicate HasOutcome(s: State, j: JobId) { j in s.jobs && s.jobs[j].hist.outcome.Some? }

  // From the first state with an outcome on, /status answers that outcome, whatever states its
  // three reads fall into.
  ghost predicate Absorbing(ss: seq<State>, j: JobId, n: nat)
    requires n < |ss| && j in ss[n].jobs
  {
    forall i1: nat, i2: nat, i3: nat :: i1 <= i2 <= i3 <= n && HasOutcome(ss[i1], j) ==>
      StatusAnswer(ss[i1], ss[i2], ss[i3], j) == ss[n].jobs[j].hist.outcome
  }

  lemma AnswerStays(c: Config, ss: seq<State>, es: seq<Event>, j: JobId, i1: nat, i2: nat, i3: nat, n: nat)
    requires Run(c, ss, es) && i1 <= i2 <= i3 <= n <= |es| && HasOutcome(ss[i1], j) && j in ss[n].jobs
    requires Events(ss, es, OverturnOf(j), 0, n) == 0
    ensures StatusAnswer(ss[i1], ss[i2], ss[i3], j) == ss[n].jobs[j].hist.outcome
  {
    EventsSplit(ss, es, OverturnOf(j), 0, i1, n);
    EventsSplit(ss, es, OverturnOf(j), 0, i2, n);
    EventsSplit(ss, es, OverturnOf(j), 0, i3, n);
    RunIsLocal(c, ss, es, i1);
    RunIsLocal(c, ss, es, i3);
    SuccessStaysInRun(c, ss, es, j, i1);
    SuccessStaysInRun(c, ss, es, j, i3);
    RunKeepsView(c, ss, es, j, i1, i2);
    RunKeepsView(c, ss, es, j, i2, i3);
    RunKeepsView(c, ss, es, j, i3, n);
    SourcesAgree(ss[i1], ss[i2], ss[i3], j);
  }

  // The first outcome of a job is final, overturned or not.
  lemma EventKeepsFirst(c: Config, s: State, e: Event, j: JobId)
    requires Enabled(s, e) && HasOutcome(s, j)
    ensures HasOutcome(Apply(c, s, e), j) && Apply(c, s, e).jobs[j].hist.outcome == s.jobs[j].hist.outcome
  {
    if e.OfJob? && e.j == j {
      StepKeepsFirst(c, s, ViewOf(s, j), e.step);
      OwnView(c, s, j, e.step);
    } else {
      EventLeavesView(c, s, e, j);
    }
  }

  lemma StepKeepsFirst(c: Config, s: State, v: View, e: JobStep)
    requires EnabledStep(s.now, v, e) && v.job.hist.outcome.Some?
    ensures NextView(c, s, v, e).job.hist.outcome == v.job.hist.outcome
  {}

  lemma {:induction false} FirstIsFinal(c: Config, ss: seq<State>, es: seq<Event>, j: JobId, i: nat, n: nat)
    requires Run(c, ss, es) && i <= n <= |es| && HasOutcome(ss[i], j)
    ensures HasOutcome(ss[n], j) && ss[n].jobs[j].hist.outcome == ss[i].jobs[j].hist.outcome
  {
    if i < n {
      FirstIsFinal(c, ss, es, j, i, n - 1);
      assert StepAt(c, ss, es, n - 1);
      EventKeepsFirst(c, ss[n - 1], es[n - 1], j);
    }
  }

  // After an overturning step the answer is no longer the success.
  lemma OverturnIsSeen(c: Config, ss: seq<State>, es: seq<Event>, j: JobId, k: nat)
    requires Run(c, ss, es) && k < |es| && OverturnOf(j)(ss[k], es[k])
    ensures HasOutcome(ss[k], j) && ss[k].jobs[j].hist.outcome == Some(Completed)
    ensures StatusAnswer(ss[k + 1], ss[k + 1], ss[k + 1], j) != Some(Completed)
  {
    assert StepAt(c, ss, es, k);
    OverturnShows(c, ss[k], ViewOf(ss[k], j), es[k].step);
    OwnView(c, ss[k], j, es[k].step);
  }

  lemma {:induction false} OverturnBreaks(c: Config, ss: seq<State>, es: seq<Event>, j: JobId, m: nat, n: nat)
    requires Run(c, ss, es) && m <= n <= |es| && j in ss[n].jobs && Events(ss, es, OverturnOf(j), 0, m) > 0
    ensures !Absorbing(ss, j, n) && ss[n].jobs[j].hist.outcome == Some(Completed)
  {
    if OverturnOf(j)(ss[m - 1], es[m - 1]) {
      OverturnIsSeen(c, ss, es, j, m - 1);
      FirstIsFinal(c, ss, es, j, m - 1, n);
      FirstIsFinal(c, ss, es, j, m - 1, m);
    } else {
      OverturnBreaks(c, ss, es, j, m - 1, n);
    }
  }

  // /status is absorbing if and only if no step of the run overturns a success. So a job whose
  // first outcome is a failure answers it for ever, in every run.
  lemma StatusIsAbsorbing(c: Config, ss: seq<State>, es: seq<Event>, j: JobId, n: nat)
    requires Run(c, ss, es) && n <= |es| && j in ss[n].jobs
    ensures Absorbing(ss, j, n) <==> Events(ss, es, OverturnOf(j), 0, n) == 0
    ensures ss[n].jobs[j].hist.outcome == Some(Failed) ==> Absorbing(ss, j, n)
  {
    if Events(ss, es, OverturnOf(j), 0, n) > 0 {
      OverturnBreaks(c, ss, es, j, n, n);
    } else {
      forall i1: nat, i2: nat, i3: nat | i1 <= i2 <= i3 <= n && HasOutcome(ss[i1], j)
        ensures StatusAnswer(ss[i1], ss[i2], ss[i3], j) == ss[n].jobs[j].hist.outcome
      {
        AnswerStays(c, ss, es, j, i1, i2, i3, n);
      }
    }
  }

  // A job has an outcome exactly when its result hash has been written and has not yet given
  // way to the database row; unless it was overturned, both tell that outcome.
  lemma OutcomeIsStored(c: Config, ss: seq<State>, es: seq<Event>, j: JobId, i: nat)
    requires Run(c, ss, es) && i < |ss| && j in ss[i].jobs
    ensures HasOutcome(ss[i], j) <==> j in ss[i].db.results || j in ss[i].rows
    ensures Events(ss, es, OverturnOf(j), 0, i) == 0 ==>
      && (j in ss[i].db.results ==> ss[i].db.results[j].status == ss[i].jobs[j].hist.outcome)
      && (j in ss[i].rows ==> Some(ss[i].rows[j]) == ss[i].jobs[j].hist.outcome)
  {
    RunIsLocal(c, ss, es, i);
    assert WritesOk(ViewOf(ss[i], j));
    if Events(ss, es, OverturnOf(j), 0, i) == 0 && HasOutcome(ss[i], j) {
      SuccessStaysInRun(c, ss, es, j, i);
      SourcesOf(ss[i], j);
    }
  }

  // ---- before the first outcome ---------------------------------------------------------

  // The worker runs the job and has marked it.
  predicate Attempting(pc: Pc) {
    pc.Marked? || pc.RpmBlocked? || pc.RpdBlocked? || pc.Granted? || pc.Ready? || pc.Calling? || pc.Answered? || pc.Flagged?
  }

  // What the meta of a submitted job without an outcome tells.
  ghost predicate EarlyOk(v: View) {
    var pc, status := v.job.pc, MetaIn(v).status;
    v.job.hist.outcome.None? && Submitted(pc) ==>
      && (status == Some(Queued) || status == Some(InProgress) || status == Some(Completed))
      && (Attempting(pc) ==> status == Some(InProgress))
      && (pc.RpmRequeued? ==> status == Some(Queued))
      && (pc.SuccessMeta? ==> status == Some(Completed))
  }

  // An outcome stays, and until there is one the meta tells how far the job is.
  ghost predicate StepsEarly(v: View, v': View) {
    (v.job.hist.outcome.Some? ==> v'.job.hist.outcome.Some?) && EarlyOk(v')
  }

  lemma WorkKeepsEarly(now: int, code: int, life: nat, v: View, e: WorkStep)
    requires JobOk(v) && EnabledWork(v, e) && EarlyOk(v)
    ensures StepsEarly(v, WorkView(now, code, life, v, e))
  {}

  lemma StaleKeepsEarly(now: int, native: bool, v: View, e: StaleStep)
    requires JobOk(v) && EnabledStale(now, v, e) && EarlyOk(v)
    ensures StepsEarly(v, StaleView(now, native, v, e))
  {}

  lemma StepKeepsEarly(c: Config, s: State, v: View, e: JobStep)
    requires JobOk(v) && EnabledStep(s.now, v, e) && EarlyOk(v)
    ensures StepsEarly(v, NextView(c, s, v, e))
  {
    match e
    case Work(w) => WorkKeepsEarly(s.now, CodeFor(c, s, v.job), BookOf(s, ModelRpd(v.job.info.model)).life, v, w);
    case Stale(t) => StaleKeepsEarly(s.now, NativeUserToken(c, s, v.job), v, t);
    case Fail(_) =>
    case Succeed(_) =>
    case Sync(_) =>
    case Request(_) =>
  }

  ghost predicate EarlyIn(s: State, j: JobId) { j in s.jobs ==> EarlyOk(ViewOf(s, j)) }

  lemma EventKeepsEarly(c: Config, s: State, e: Event, j: JobId)
    requires Local(s) && Enabled(s, e) && EarlyIn(s, j)
    ensures EarlyIn(Apply(c, s, e), j) && (HasOutcome(s, j) ==> HasOutcome(Apply(c, s, e), j))
  {
    if e.OfJob? && e.j == j {
      StepKeepsEarly(c, s, ViewOf(s, j), e.step);
      OwnView(c, s, j, e.step);
    } else if j in s.jobs {
      EventLeavesView(c, s, e, j);
    }
  }

  lemma {:induction false} EarlyInRun(c: Config, ss: seq<State>, es: seq<Event>, j: JobId, n: nat)
    requires Run(c, ss, es) && n <= |es|
    ensures EarlyIn(ss[n], j)
  {
    if n > 0 {
      EarlyInRun(c, ss, es, j, n - 1);
      RunIsLocal(c, ss, es, n - 1);
      assert StepAt(c, ss, es, n - 1);
      EventKeepsEarly(c, ss[n - 1], es[n - 1], j);
    }
  }

  lemma {:induction false} OutcomeNeverGoes(c: Config, ss: seq<State>, es: seq<Event>, j: JobId, i: nat, k: nat)
    requires Run(c, ss, es) && i <= k <= |es| && HasOutcome(ss[i], j)
    ensures HasOutcome(ss[k], j)
  {
    if i < k {
      OutcomeNeverGoes(c, ss, es, j, i, k - 1);
      EarlyInRun(c, ss, es, j, k - 1);
      RunIsLocal(c, ss, es, k - 1);
      assert StepAt(c, ss, es, k - 1);
      EventKeepsEarly(c, ss[k - 1], es[k - 1], j);
    }
  }

  lemma NothingStored(s: State, j: JobId)
    requires Local(s) && !HasOutcome(s, j)
    ensures j !in s.db.results && j !in s.rows
    ensures j in s.db.metas <==> j in s.jobs && Submitted(s.jobs[j].pc)
  {
    if j in s.jobs {
      assert WritesOk(ViewOf(s, j)) && MetaOk(ViewOf(s, j));
    }
  }

  // Before there is an outcome, /status is answered by the meta: not found exactly until the
  // job is enqueued, then queued or in progress, in progress whenever a worker has marked it,
  // and completed only once a success has begun to be written.
  lemma StatusBeforeOutcome(c: Config, ss: seq<State>, es: seq<Event>, j: JobId, i1: nat, i2: nat, i3: nat)
    requires Run(c, ss, es) && i1 <= i2 <= i3 <= |es| && !HasOutcome(ss[i3], j)
    ensures var answer := StatusAnswer(ss[i1], ss[i2], ss[i3], j);
            if j !in ss[i2].jobs || !Submitted(ss[i2].jobs[j].pc) then answer == None
            else
              var pc := ss[i2].jobs[j].pc;
              && (answer == Some(Queued) || answer == Some(InProgress) || answer == Some(Completed))
              && (Attempting(pc) ==> answer == Some(InProgress))
              && (pc.RpmRequeued? ==> answer == Some(Queued))
              && (pc.SuccessMeta? ==> answer == Some(Completed))
  {
    if HasOutcome(ss[i1], j) {
      OutcomeNeverGoes(c, ss, es, j, i1, i3);
    }
    if HasOutcome(ss[i2], j) {
      OutcomeNeverGoes(c, ss, es, j, i2, i3);
    }
    RunIsLocal(c, ss, es, i1);
    RunIsLocal(c, ss, es, i2);
    RunIsLocal(c, ss, es, i3);
    NothingStored(ss[i1], j);
    NothingStored(ss[i2], j);
    NothingStored(ss[i3], j);
    EarlyInRun(c, ss, es, j, i2);
  }
}
