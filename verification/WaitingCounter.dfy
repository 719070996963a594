/** queue:waiting:{model} against the jobs and requests that hold a place in the backlog. The
    two move together in every step but four, which are told apart here: the counter is exact
    as long as none of them happens to the model, it never falls below the backlog as long as
    three of them do not, and then no decrement is clamped and the backlog bound is kept,
    although a request increments the counter first and compares it afterwards. */
module WaitingCounter {
  import opened Redis
  import opened Counting
  import opened Lifecycle

  ghost function SlotOf(m: Model): Job -> bool {
    (x: Job) => x.info.model == m && HoldsSlot(x.pc)
  }

  ghost predicate Persistent(c: Counters, k: Key) {
    k in c ==> c[k].deadline.None?
  }

  ghost predicate CountersPersist(s: State) {
    forall m: Model :: Persistent(s.db.counters, Waiting(m))
  }

  // How far the counter is above the backlog.
  ghost function Gap(s: State, m: Model): int {
    Val(s.db.counters, Waiting(m)) - Count(s.jobs, SlotOf(m))
  }

  function SlotDelta(x: Job, y: Job): int {
    Ind(HoldsSlot(y.pc)) - Ind(HoldsSlot(x.pc))
  }

  // What a command adds to a waiting counter, clamps aside.
  function Change(cmd: Command, k: Key): int {
    match cmd
    case Increment(k', n) => if k' == k then n else 0
    case DecrementClamped(k') => if k' == k then -1 else 0
    case ExpireJob(k', _, _) => if k' == k then -1 else 0
    case _ => 0
  }

  // ---- the steps in which counter and backlog part --------------------------------------

  // A failed job leaves the backlog of m, and the place that is released is that of another
  // model, or of none.
  predicate Abandons(v: View, e: JobStep, m: Model) {
    e == Fail(ReleaseFailed) && v.job.pc.FailureUnlocked? && m == v.job.info.model && v.job.pc.model != Some(m)
  }

  // A place of m is released by a job that holds none: a failed job of another model, or one
  // that left the backlog before it was expired.
  predicate ReleasesForeign(v: View, e: JobStep, m: Model) {
    || (e == Fail(ReleaseFailed) && v.job.pc.FailureUnlocked? && m != v.job.info.model && v.job.pc.model == Some(m))
    || (e.Stale? && e.stale.ReleaseStale? && !v.job.pc.RemovedRefunded? && m == v.job.info.model)
  }

  // A job of m that had finished is taken up again without an INCR.
  predicate Reopens(v: View, e: JobStep, m: Model) {
    && m == v.job.info.model
    && ((e.Work? && e.work.WorkerDies? && v.job.pc.Done?) || (e == Fail(FindMissing) && v.job.pc.Expired?))
  }

  predicate Undercounts(counters: Counters, v: View, e: JobStep, m: Model) {
    Reopens(v, e, m) || (ReleasesForeign(v, e, m) && Val(counters, Waiting(m)) > 0)
  }

  predicate Drifts(counters: Counters, v: View, e: JobStep, m: Model) {
    Abandons(v, e, m) || Undercounts(counters, v, e, m)
  }

  // The counter does not miss the place that the job holds.
  predicate Covers(counters: Counters, x: Job, m: Model) {
    Val(counters, Waiting(m)) >= if m == x.info.model && HoldsSlot(x.pc) then 1 else 0
  }

  // What a step adds to the counter over what it adds to the backlog.
  ghost predicate MovesGap(c: Config, s: State, v: View, e: JobStep, m: Model)
    requires EnabledStep(s.now, v, e)
  {
    var after := Val(Send(c, s.db.counters, s.now, CommandOf(c, s.now, v, e)), Waiting(m));
    var delta := if m == v.job.info.model then SlotDelta(v.job, NextView(c, s, v, e).job) else 0;
    after - delta == Val(s.db.counters, Waiting(m)) + Ind(Abandons(v, e, m)) - Ind(Undercounts(s.db.counters, v, e, m))
  }

  lemma SendMovesCounter(c: Config, counters: Counters, now: int, cmd: Command, m: Model)
    requires cmd.ExpireJob? ==> cmd.userRpd.UserRpd?
    ensures var n, n' := Val(counters, Waiting(m)), Val(Send(c, counters, now, cmd), Waiting(m));
            if cmd.DecrementClamped? || cmd.ExpireJob? then n' == if Change(cmd, Waiting(m)) < 0 && n - 1 < 0 then 0 else n + Change(cmd, Waiting(m))
            else n' == n + Change(cmd, Waiting(m))
    ensures Persistent(counters, Waiting(m)) ==> Persistent(Send(c, counters, now, cmd), Waiting(m))
  {}

  lemma ExpiryNamesUserKey(c: Config, s: State, v: View, e: JobStep)
    requires EnabledStep(s.now, v, e)
    ensures CommandOf(c, s.now, v, e).ExpireJob? ==> CommandOf(c, s.now, v, e).userRpd.UserRpd?
  {}

  lemma WorkKeepsSlot(now: int, code: int, life: nat, v: View, w: WorkStep)
    requires EnabledWork(v, w)
    ensures SlotDelta(v.job, WorkView(now, code, life, v, w).job) == Ind(Reopens(v, Work(w), v.job.info.model))
  {}

  lemma WorkSendsLimits(c: Config, now: int, v: View, w: WorkStep)
    requires EnabledStep(now, v, Work(w))
    ensures CommandOf(c, now, v, Work(w)).Nothing? || CommandOf(c, now, v, Work(w)).ConsumeLimits?
  {}

  lemma WorkMovesGap(c: Config, s: State, v: View, w: WorkStep, m: Model)
    requires EnabledStep(s.now, v, Work(w))
    ensures MovesGap(c, s, v, Work(w), m)
  {
    WorkKeepsSlot(s.now, CodeFor(c, s, v.job), BookOf(s, ModelRpd(v.job.info.model)).life, v, w);
    WorkSendsLimits(c, s.now, v, w);
    SendMovesCounter(c, s.db.counters, s.now, CommandOf(c, s.now, v, Work(w)), m);
  }

  lemma FailureMovesGap(c: Config, s: State, v: View, f: FailureStep, m: Model)
    requires EnabledStep(s.now, v, Fail(f)) && Covers(s.db.counters, v.job, m)
    ensures MovesGap(c, s, v, Fail(f), m)
  {
    SendMovesCounter(c, s.db.counters, s.now, CommandOf(c, s.now, v, Fail(f)), m);
  }

  lemma StaleMovesGap(c: Config, s: State, v: View, t: StaleStep, m: Model)
    requires EnabledStep(s.now, v, Stale(t)) && Covers(s.db.counters, v.job, m)
    ensures MovesGap(c, s, v, Stale(t), m)
  {
    SendMovesCounter(c, s.db.counters, s.now, CommandOf(c, s.now, v, Stale(t)), m);
  }

  lemma StepMovesGap(c: Config, s: State, v: View, e: JobStep, m: Model)
    requires EnabledStep(s.now, v, e) && Covers(s.db.counters, v.job, m)
    ensures MovesGap(c, s, v, e, m)
  {
    match e
    case Work(w) => WorkMovesGap(c, s, v, w, m);
    case Fail(f) => FailureMovesGap(c, s, v, f, m);
    case Stale(t) => StaleMovesGap(c, s, v, t, m);
    case Request(_) => SendMovesCounter(c, s.db.counters, s.now, CommandOf(c, s.now, v, e), m);
    case Succeed(_) => SendMovesCounter(c, s.db.counters, s.now, CommandOf(c, s.now, v, e), m);
    case Sync(_) =>
  }

  lemma CoveredByGap(s: State, j: JobId, m: Model)
    requires j in s.jobs && Gap(s, m) >= 0
    ensures Covers(s.db.counters, s.jobs[j], m)
  {
    if s.jobs[j].info.model == m && HoldsSlot(s.jobs[j].pc) {
      CountSome(s.jobs, j, SlotOf(m));
    }
  }

  lemma JobStepMovesGap(c: Config, s: State, j: JobId, e: JobStep, m: Model)
    requires Enabled(s, OfJob(j, e)) && Gap(s, m) >= 0
    ensures Gap(AfterStep(c, s, j, e), m)
         == Gap(s, m) + Ind(Abandons(ViewOf(s, j), e, m)) - Ind(Undercounts(s.db.counters, ViewOf(s, j), e, m))
  {
    var v := ViewOf(s, j);
    var y := NextView(c, s, v, e).job;
    CoveredByGap(s, j, m);
    StepMovesGap(c, s, v, e, m);
    StepKeepsInfo(c, s, v, e);
    CountUpdate(s.jobs, j, y, SlotOf(m));
  }

  lemma StepKeepsInfo(c: Config, s: State, v: View, e: JobStep)
    requires EnabledStep(s.now, v, e)
    ensures NextView(c, s, v, e).job.info == v.job.info
  {}

  lemma AcquireLeavesWaiting(counters: Counters, now: int, a: AcquireArgs, m: Model)
    requires a.userKey.UserRpd? && a.modelKey.ModelRpd?
    ensures Val(AcquireCounters(counters, now, a), Waiting(m)) == Val(counters, Waiting(m))
    ensures Persistent(counters, Waiting(m)) ==> Persistent(AcquireCounters(counters, now, a), Waiting(m))
  {}

  lemma AcquireKeepsGap(c: Config, s: State, e: Event, m: Model)
    requires Enabled(s, e) && e.TryAcquire?
    ensures Gap(AfterAcquire(c, s, e), m) == Gap(s, m)
  {
    AcquireLeavesWaiting(s.db.counters, s.now, AcquireArgsFor(c, e), m);
    CountUpdate(s.jobs, e.j, NewJob(c, s, e), SlotOf(m));
  }

  lemma PurgeKeepsPersistent(counters: Counters, now: int, k: Key)
    requires Persistent(counters, k)
    ensures Val(Purge(counters, now), k) == Val(counters, k) && Persistent(Purge(counters, now), k)
  {}

  lemma StepKeepsPersistent(c: Config, s: State, e: Event)
    requires CountersPersist(s) && Enabled(s, e)
    ensures CountersPersist(Apply(c, s, e))
  {
    forall m: Model ensures Persistent(Apply(c, s, e).db.counters, Waiting(m)) {
      assert Persistent(s.db.counters, Waiting(m));
      match e
      case OfJob(j, step) =>
        ExpiryNamesUserKey(c, s, ViewOf(s, j), step);
        SendMovesCounter(c, s.db.counters, s.now, CommandOf(c, s.now, ViewOf(s, j), step), m);
      case TryAcquire(_, _, _, _, _, _) => AcquireLeavesWaiting(s.db.counters, s.now, AcquireArgsFor(c, e), m);
      case Tick(to) => PurgeKeepsPersistent(s.db.counters, to, Waiting(m));
      case CleanLocks(_, _) =>
    }
  }

  // ---- the same for events --------------------------------------------------------------

  ghost function AbandonOf(m: Model): (State, Event) -> bool {
    (s: State, e: Event) => e.OfJob? && e.j in s.jobs && Abandons(ViewOf(s, e.j), e.step, m)
  }

  ghost function UndercountOf(m: Model): (State, Event) -> bool {
    (s: State, e: Event) => e.OfJob? && e.j in s.jobs && Undercounts(s.db.counters, ViewOf(s, e.j), e.step, m)
  }

  ghost function DriftOf(m: Model): (State, Event) -> bool {
    (s: State, e: Event) => e.OfJob? && e.j in s.jobs && Drifts(s.db.counters, ViewOf(s, e.j), e.step, m)
  }

  lemma EventMovesGap(c: Config, s: State, e: Event, m: Model)
    requires Enabled(s, e) && CountersPersist(s) && Gap(s, m) >= 0
    ensures Gap(Apply(c, s, e), m) == Gap(s, m) + Ind(AbandonOf(m)(s, e)) - Ind(UndercountOf(m)(s, e))
  {
    match e
    case OfJob(j, step) => JobStepMovesGap(c, s, j, step, m);
    case TryAcquire(_, _, _, _, _, _) => AcquireKeepsGap(c, s, e, m);
    case Tick(to) =>
      assert Persistent(s.db.counters, Waiting(m));
      PurgeKeepsPersistent(s.db.counters, to, Waiting(m));
    case CleanLocks(_, _) =>
  }

  // Abandoning and undercounting exclude each other.
  lemma DriftsApart(s: State, e: Event, m: Model)
    ensures Ind(DriftOf(m)(s, e)) == Ind(AbandonOf(m)(s, e)) + Ind(UndercountOf(m)(s, e))
  {}

  // ---- backpressure ----------------------------------------------------------------

  // The job passed the comparison with the backlog bound, or is about to pass it.
  ghost function AdmittedTo(c: Config, m: Model): Job -> bool {
    (x: Job) => x.info.model == m && HoldsSlot(x.pc)
                && (x.pc.Incremented? ==> x.pc.count <= c.MaxQueueLength(m, x.info.mode))
  }

  ghost function BacklogBound(c: Config, m: Model): int {
    if c.MaxQueueLength(m, Hard) < c.MaxQueueLength(m, Lite) then c.MaxQueueLength(m, Lite)
    else c.MaxQueueLength(m, Hard)
  }

  ghost predicate Bounded(c: Config, jobs: map<JobId, Job>, m: Model) {
    Count(jobs, AdmittedTo(c, m)) <= BacklogBound(c, m)
  }

  predicate AdmitsNobody(v: View, e: JobStep, y: Job) {
    && y.info == v.job.info
    && (y.pc == v.job.pc
        || (!y.pc.Incremented? && !v.job.pc.Incremented?
            && (HoldsSlot(y.pc) ==> HoldsSlot(v.job.pc) || Reopens(v, e, y.info.model))))
  }

  lemma WorkAdmitsNobody(now: int, code: int, life: nat, v: View, w: WorkStep)
    requires EnabledWork(v, w)
    ensures AdmitsNobody(v, Work(w), WorkView(now, code, life, v, w).job)
  {}

  lemma FailureAdmitsNobody(now: int, v: View, f: FailureStep)
    requires EnabledFailure(v, f)
    ensures AdmitsNobody(v, Fail(f), FailureView(now, v, f).job)
  {}

  lemma StaleAdmitsNobody(now: int, native: bool, v: View, t: StaleStep)
    requires EnabledStale(now, v, t)
    ensures AdmitsNobody(v, Stale(t), StaleView(now, native, v, t).job)
  {}

  lemma OtherStepsAdmitNobody(c: Config, s: State, v: View, e: JobStep)
    requires EnabledStep(s.now, v, e) && !e.Request?
    ensures AdmitsNobody(v, e, NextView(c, s, v, e).job)
  {
    match e
    case Work(w) => WorkAdmitsNobody(s.now, CodeFor(c, s, v.job), BookOf(s, ModelRpd(v.job.info.model)).life, v, w);
    case Fail(f) => FailureAdmitsNobody(s.now, v, f);
    case Stale(t) => StaleAdmitsNobody(s.now, NativeUserToken(c, s, v.job), v, t);
    case Succeed(_) =>
    case Sync(_) =>
  }

  // Only an INCR that stays within the bound admits a job.
  lemma AdmissionIsBounded(c: Config, s: State, v: View, e: JobStep, m: Model)
    requires EnabledStep(s.now, v, e) && !Reopens(v, e, m)
    requires AdmittedTo(c, m)(NextView(c, s, v, e).job)
    ensures AdmittedTo(c, m)(v.job)
         || (m == v.job.info.model && Val(s.db.counters, Waiting(m)) + 1 <= BacklogBound(c, m) && !HoldsSlot(v.job.pc))
  {
    if !e.Request? {
      OtherStepsAdmitNobody(c, s, v, e);
    }
  }

  lemma JobStepKeepsBound(c: Config, s: State, j: JobId, e: JobStep, m: Model)
    requires Gap(s, m) >= 0 && Bounded(c, s.jobs, m) && Enabled(s, OfJob(j, e)) && !Reopens(ViewOf(s, j), e, m)
    ensures Bounded(c, AfterStep(c, s, j, e).jobs, m)
  {
    var v := ViewOf(s, j);
    var y := NextView(c, s, v, e).job;
    CountUpdate(s.jobs, j, y, AdmittedTo(c, m));
    if AdmittedTo(c, m)(y) && !AdmittedTo(c, m)(v.job) {
      AdmissionIsBounded(c, s, v, e, m);
      CountImplied(s.jobs, AdmittedTo(c, m), SlotOf(m));
    }
  }

  lemma StepKeepsBacklog(c: Config, s: State, e: Event, m: Model)
    requires Gap(s, m) >= 0 && Bounded(c, s.jobs, m) && Enabled(s, e) && !UndercountOf(m)(s, e)
    ensures Bounded(c, Apply(c, s, e).jobs, m)
  {
    match e
    case OfJob(j, step) => JobStepKeepsBound(c, s, j, step, m);
    case TryAcquire(_, _, _, _, _, _) => CountUpdate(s.jobs, e.j, NewJob(c, s, e), AdmittedTo(c, m));
    case Tick(_) =>
    case CleanLocks(_, _) =>
  }

  // The jobs of a model that were handed to BullMQ and still count against its backlog.
  ghost function BackloggedJobs(jobs: map<JobId, Job>, m: Model): set<JobId> {
    set j | j in jobs && jobs[j].info.model == m && HoldsSlot(jobs[j].pc) && Submitted(jobs[j].pc)
  }

  lemma BackloggedWithinBound(c: Config, s: State, m: Model)
    requires Bounded(c, s.jobs, m)
    ensures |BackloggedJobs(s.jobs, m)| <= BacklogBound(c, m)
  {
    SubsetSize(BackloggedJobs(s.jobs, m), Matching(s.jobs, AdmittedTo(c, m)));
  }
}
