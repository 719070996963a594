/** What every reachable state says about a single job: its meta hash, its token flags, its
    result hash and database row, and its history. The counter ledgers build on it. */
module JobInvariant {
  import opened Redis
  import opened Lifecycle

  // The cron has expired a job that had finished by itself, and may have made its hashes anew.
  predicate Remade(x: Job) { Finished(x.pc) && x.cron.LateExpired? }

  // The meta hash of a submitted job names its user and a model.
  ghost predicate MetaOk(v: View) {
    var x := v.job;
    && (Submitted(x.pc) && !Finished(x.pc) ==> v.meta.Some?)
    && (Submitted(x.pc) && v.meta.Some? && !Remade(x) ==>
          v.meta.value.user == Some(x.info.user) && v.meta.value.processed.Some?)
    && (x.pc.FailureDecided? || x.pc.FailureResult? || x.pc.FailureMeta? || x.pc.FailureUnlocked? ==>
          x.pc.user == Some(x.info.user) && x.pc.model.Some?)
    && (!Submitted(x.pc) ==> v.meta.None? && x.cron.Idle?)
  }

  // A late expiry concerns a job that has finished or is failing.
  ghost predicate LateOk(v: View) {
    var x := v.job;
    && (Late(x.cron) ==> LeftQueue(x.pc))
    && (x.pc.Removed? || x.pc.RemovedRefunded? || x.pc.Expired? ==> x.cron.Idle?)
    && (x.hist.lateRefunds > 0 ==> x.cron.LateRefunded? || x.cron.LateExpired?)
    && (x.hist.lateWrites > 0 ==> x.cron.LateExpired?)
    && (x.hist.missed > 0 ==> Late(x.cron))
    && x.hist.lateRefunds <= 1 && x.hist.lateWrites <= 1 && x.hist.missed <= 1
    && (!Submitted(x.pc) ==> x.hist.revivals == 0)
  }

  // tokens_consumed is set exactly when the job holds or has returned a recorded token; the
  // copies that handlers keep of it never claim a token that is not there.
  ghost predicate TokenOk(v: View) {
    var x := v.job;
    var refunded := x.hist.refunds - x.hist.lateRefunds;
    && (v.meta.Some? && !Remade(x) ==> (v.meta.value.tokensConsumed <==> x.hist.token != NoToken && !x.pc.Granted?))
    && (!Submitted(x.pc) ==> x.hist.token == NoToken)
    && (x.pc.Fetched? || x.pc.Marked? ==> x.pc.tokens == (x.hist.token != NoToken))
    && (x.pc.RpmBlocked? || x.pc.RpmRequeued? || x.pc.RpdBlocked? ==> x.hist.token == NoToken)
    && (x.pc.Granted? ==> x.hist.token.Held?)
    && ((x.cron.Read? || x.cron.LateRemoved?) && x.cron.tokens ==> x.hist.token != NoToken && !x.pc.Granted?)
    && (x.pc.Removed? && x.pc.tokens ==> x.hist.token.Held?)
    && x.hist.consumptions == x.hist.leaks + (if x.hist.token == NoToken then 0 else 1)
    && 0 <= refunded <= (if Refunded(x.pc) then 1 else 0) + x.hist.missed
    && x.hist.refunds <= (if Refunded(x.pc) then 1 else 0) + (if x.cron.LateRefunded? || x.cron.LateExpired? then 1 else 0)
    && (x.hist.token.Returned? <==> x.hist.refunds > 0)
    && (x.hist.userToken.Returned? ==> x.pc.Expired? || x.cron.LateExpired?)
  }

  // The outcome is kept by the result hash or the row. The result is written once, and once
  // more each time the job is taken up again and for a late expiry.
  ghost predicate WritesOk(v: View) {
    var x := v.job;
    && x.hist.writes == (if Settled(x.pc) then 1 else 0) + x.hist.revivals + x.hist.lateWrites
    && (x.hist.outcome.Some? <==> x.hist.writes > 0)
    && (x.hist.outcome.Some? <==> v.result.Some? || v.row.Some?)
    && (Finished(x.pc) && v.meta.None? ==> v.row.Some?)
  }

  // What is stored of a job whose first outcome is a failure tells that failure, for good.
  ghost predicate FailureStays(v: View) {
    var x := v.job;
    && ((LeftQueue(x.pc) && !x.pc.Done?) || x.pc.Expired?)
    && (v.result.Some? ==> v.result.value.status == Some(Failed))
    && (v.row.Some? ==> v.row == Some(Failed))
    && (v.meta.Some? && (v.result.None? || MetaSettled(x.pc)) ==> v.meta.value.status == Some(Failed))
  }

  ghost predicate OutcomeOk(v: View) {
    var x := v.job;
    && (x.hist.outcome.None? || x.hist.outcome == Some(Completed) || x.hist.outcome == Some(Failed))
    && (x.pc.SuccessMeta? ==> MetaIn(v).status == Some(Completed))
    && (x.hist.outcome == Some(Failed) ==> FailureStays(v))
  }

  ghost predicate JobOk(v: View) {
    MetaOk(v) && LateOk(v) && TokenOk(v) && WritesOk(v) && OutcomeOk(v)
  }

  ghost predicate LifeOk(x: Job, now: int, books: map<Key, Book>) {
    && x.info.askedAt <= now
    && (x.hist.token.Held? ==> x.hist.token.life <= BookIn(books, ModelRpd(x.info.model)).life)
    && (x.hist.userToken.Held? ==> x.hist.userToken.life <= BookIn(books, UserRpd(x.info.user, x.info.mode, x.info.day)).life)
  }

  ghost predicate Local(s: State) {
    && (forall j :: j in s.jobs ==> JobOk(ViewOf(s, j)))
    && (forall j :: j in s.jobs ==> LifeOk(s.jobs[j], s.now, s.books))
    && s.db.metas.Keys <= s.jobs.Keys
    && s.db.results.Keys <= s.jobs.Keys
    && s.rows.Keys <= s.jobs.Keys
  }

  lemma RequestKeepsJob(now: int, count: int, bound: int, v: View, e: RequestStep)
    requires JobOk(v) && EnabledRequest(v, e)
    ensures JobOk(RequestView(now, count, bound, v, e))
  {}

  lemma WorkKeepsMeta(now: int, code: int, life: nat, v: View, e: WorkStep)
    requires MetaOk(v) && LateOk(v) && EnabledWork(v, e)
    ensures MetaOk(WorkView(now, code, life, v, e))
  {}

  lemma WorkKeepsLate(now: int, code: int, life: nat, v: View, e: WorkStep)
    requires LateOk(v) && EnabledWork(v, e)
    ensures LateOk(WorkView(now, code, life, v, e))
  {}

  lemma WorkKeepsTokens(now: int, code: int, life: nat, v: View, e: WorkStep)
    requires JobOk(v) && EnabledWork(v, e)
    ensures var v' := WorkView(now, code, life, v, e); TokenOk(v')
  {}

  lemma WorkKeepsOutcome(now: int, code: int, life: nat, v: View, e: WorkStep)
    requires JobOk(v) && EnabledWork(v, e)
    ensures OutcomeOk(WorkView(now, code, life, v, e))
  {}

  lemma WorkKeepsWrites(now: int, code: int, life: nat, v: View, e: WorkStep)
    requires WritesOk(v) && EnabledWork(v, e)
    ensures WritesOk(WorkView(now, code, life, v, e))
  {}

  lemma SuccessKeepsJob(now: int, v: View, e: SuccessStep)
    requires JobOk(v) && EnabledSuccess(v, e)
    ensures JobOk(SuccessView(now, v, e))
  {}

  lemma FailureKeepsMeta(now: int, v: View, e: FailureStep)
    requires JobOk(v) && EnabledFailure(v, e)
    ensures var v' := FailureView(now, v, e); MetaOk(v') && LateOk(v')
  {}

  lemma FailureKeepsTokens(now: int, v: View, e: FailureStep)
    requires JobOk(v) && EnabledFailure(v, e)
    ensures var v' := FailureView(now, v, e); TokenOk(v')
  {}

  lemma FailureKeepsOutcome(now: int, v: View, e: FailureStep)
    requires JobOk(v) && EnabledFailure(v, e)
    ensures var v' := FailureView(now, v, e); WritesOk(v') && OutcomeOk(v')
  {}

  lemma StaleKeepsMeta(now: int, native: bool, v: View, e: StaleStep)
    requires JobOk(v) && EnabledStale(now, v, e)
    ensures var v' := StaleView(now, native, v, e); MetaOk(v') && LateOk(v')
  {}

  lemma StaleKeepsTokens(now: int, native: bool, v: View, e: StaleStep)
    requires JobOk(v) && EnabledStale(now, v, e)
    ensures var v' := StaleView(now, native, v, e); TokenOk(v')
  {}

  lemma StaleKeepsOutcome(now: int, native: bool, v: View, e: StaleStep)
    requires JobOk(v) && EnabledStale(now, v, e)
    ensures var v' := StaleView(now, native, v, e); WritesOk(v') && OutcomeOk(v')
  {}

  lemma SyncKeepsJob(now: int, v: View, e: SyncStep)
    requires JobOk(v) && EnabledSync(v, e)
    ensures JobOk(SyncView(now, v, e))
  {}

  lemma WorkKeepsJob(now: int, code: int, life: nat, v: View, e: WorkStep)
    requires JobOk(v) && EnabledWork(v, e)
    ensures JobOk(WorkView(now, code, life, v, e))
  {
    WorkKeepsMeta(now, code, life, v, e);
    WorkKeepsLate(now, code, life, v, e);
    WorkKeepsTokens(now, code, life, v, e);
    WorkKeepsWrites(now, code, life, v, e);
    WorkKeepsOutcome(now, code, life, v, e);
  }

  lemma FailureKeepsJob(now: int, v: View, e: FailureStep)
    requires JobOk(v) && EnabledFailure(v, e)
    ensures JobOk(FailureView(now, v, e))
  {
    FailureKeepsMeta(now, v, e);
    FailureKeepsTokens(now, v, e);
    FailureKeepsOutcome(now, v, e);
  }

  lemma StaleKeepsJob(now: int, native: bool, v: View, e: StaleStep)
    requires JobOk(v) && EnabledStale(now, v, e)
    ensures JobOk(StaleView(now, native, v, e))
  {
    StaleKeepsMeta(now, native, v, e);
    StaleKeepsTokens(now, native, v, e);
    StaleKeepsOutcome(now, native, v, e);
  }

  lemma StepKeepsJob(c: Config, s: State, v: View, e: JobStep)
    requires JobOk(v) && EnabledStep(s.now, v, e)
    ensures JobOk(NextView(c, s, v, e))
  {
    var info := v.job.info;
    match e
    case Request(r) =>
      RequestKeepsJob(s.now, Val(s.db.counters, Waiting(info.model)) + 1, c.MaxQueueLength(info.model, info.mode), v, r);
    case Work(w) => WorkKeepsJob(s.now, CodeFor(c, s, v.job), BookOf(s, ModelRpd(info.model)).life, v, w);
    case Succeed(w) => SuccessKeepsJob(s.now, v, w);
    case Fail(f) => FailureKeepsJob(s.now, v, f);
    case Stale(t) => StaleKeepsJob(s.now, NativeUserToken(c, s, v.job), v, t);
    case Sync(y) => SyncKeepsJob(s.now, v, y);
  }

  lemma StepKeepsLife(c: Config, s: State, v: View, e: JobStep)
    requires EnabledStep(s.now, v, e) && LifeOk(v.job, s.now, s.books)
    ensures LifeOk(NextView(c, s, v, e).job, s.now, s.books)
    ensures NextView(c, s, v, e).job.info == v.job.info
  {}

  // A life of a key is over for good once it has ended.
  ghost predicate LivesGrow(books: map<Key, Book>, books': map<Key, Book>) {
    forall k :: BookIn(books, k).life <= BookIn(books', k).life
  }

  // The change of one job's view, as every step of a job makes it.
  ghost predicate Moved(s: State, s': State, j: JobId, v: View) {
    && s'.now == s.now
    && s'.jobs == s.jobs[j := v.job]
    && s'.db.metas == Put(s.db.metas, j, v.meta)
    && s'.db.results == Put(s.db.results, j, v.result)
    && s'.rows == Put(s.rows, j, v.row)
    && LivesGrow(s.books, s'.books)
  }

  ghost predicate Untouched(s: State, s': State) {
    && s.now <= s'.now
    && s'.jobs == s.jobs
    && s'.db.metas == s.db.metas
    && s'.db.results == s.db.results
    && s'.rows == s.rows
    && LivesGrow(s.books, s'.books)
  }

  lemma UntouchedKeepsLocal(s: State, s': State)
    requires Local(s) && Untouched(s, s')
    ensures Local(s')
  {}

  lemma OthersKeepViews(s: State, s': State, j: JobId, v: View, i: JobId)
    requires Moved(s, s', j, v) && i in s.jobs && i != j
    ensures i in s'.jobs && ViewOf(s', i) == ViewOf(s, i)
  {}

  // A step of a job makes its view the next one, and any other event leaves the view as it is.
  lemma OwnView(c: Config, s: State, j: JobId, e: JobStep)
    requires Enabled(s, OfJob(j, e))
    ensures j in AfterStep(c, s, j, e).jobs && ViewOf(AfterStep(c, s, j, e), j) == NextView(c, s, ViewOf(s, j), e)
  {}

  lemma EventLeavesView(c: Config, s: State, e: Event, j: JobId)
    requires Enabled(s, e) && j in s.jobs && !(e.OfJob? && e.j == j)
    ensures j in Apply(c, s, e).jobs && ViewOf(Apply(c, s, e), j) == ViewOf(s, j)
  {}

  lemma MovedKeepsLocal(s: State, s': State, j: JobId, v: View)
    requires Local(s) && Moved(s, s', j, v)
    requires JobOk(v) && LifeOk(v.job, s.now, s.books)
    ensures Local(s')
  {
    forall i | i in s'.jobs ensures JobOk(ViewOf(s', i)) && LifeOk(s'.jobs[i], s'.now, s'.books) {
      if i == j {
        assert ViewOf(s', i) == v;
      } else {
        OthersKeepViews(s, s', j, v, i);
      }
    }
  }

  lemma NextBooksGrowLives(c: Config, s: State, v: View, e: JobStep)
    requires EnabledStep(s.now, v, e)
    ensures LivesGrow(s.books, NextBooks(c, s, v, e))
  {}

  lemma JobStepKeepsLocal(c: Config, s: State, j: JobId, e: JobStep)
    requires Local(s) && Enabled(s, OfJob(j, e))
    ensures Local(AfterStep(c, s, j, e))
  {
    var v := ViewOf(s, j);
    StepKeepsJob(c, s, v, e);
    StepKeepsLife(c, s, v, e);
    NextBooksGrowLives(c, s, v, e);
    MovedKeepsLocal(s, AfterStep(c, s, j, e), j, NextView(c, s, v, e));
  }

  lemma NewJobOk(c: Config, s: State, e: Event)
    requires Enabled(s, e) && e.TryAcquire?
    ensures JobOk(View(NewJob(c, s, e), None, None, None)) && LifeOk(NewJob(c, s, e), s.now, s.books)
  {}

  lemma StoreNothing<T>(m: map<JobId, T>, j: JobId)
    requires j !in m
    ensures Put(m, j, None) == m
  {}

  lemma AcquireMoves(c: Config, s: State, e: Event)
    requires e.TryAcquire? && Acquires(c, s, e)
    requires e.j !in s.db.metas && e.j !in s.db.results && e.j !in s.rows
    ensures Moved(s, AfterAcquire(c, s, e), e.j, View(NewJob(c, s, e), None, None, None))
  {
    StoreNothing(s.db.metas, e.j);
    StoreNothing(s.db.results, e.j);
    StoreNothing(s.rows, e.j);
  }

  lemma RefusalTouchesNothing(c: Config, s: State, e: Event)
    requires e.TryAcquire? && !Acquires(c, s, e)
    ensures Untouched(s, AfterAcquire(c, s, e))
  {}

  lemma AcquireKeepsLocal(c: Config, s: State, e: Event)
    requires Local(s) && Enabled(s, e) && e.TryAcquire?
    ensures Local(AfterAcquire(c, s, e))
  {
    var s' := AfterAcquire(c, s, e);
    if Acquires(c, s, e) {
      NewJobOk(c, s, e);
      AcquireMoves(c, s, e);
      MovedKeepsLocal(s, s', e.j, View(NewJob(c, s, e), None, None, None));
    } else {
      RefusalTouchesNothing(c, s, e);
      UntouchedKeepsLocal(s, s');
    }
  }

  lemma StepKeepsLocal(c: Config, s: State, e: Event)
    requires Local(s) && Enabled(s, e)
    ensures Local(Apply(c, s, e))
  {
    match e
    case OfJob(j, step) => JobStepKeepsLocal(c, s, j, step);
    case TryAcquire(_, _, _, _, _, _) => AcquireKeepsLocal(c, s, e);
    case Tick(to) => UntouchedKeepsLocal(s, AfterTick(s, to));
    case CleanLocks(u, upTo) => UntouchedKeepsLocal(s, AfterClean(s, u, upTo));
  }

  lemma {:induction false} RunIsLocal(c: Config, ss: seq<State>, es: seq<Event>, i: nat)
    requires Run(c, ss, es) && i < |ss|
    ensures Local(ss[i])
  {
    if i > 0 {
      RunIsLocal(c, ss, es, i - 1);
      assert StepAt(c, ss, es, i - 1);
      StepKeepsLocal(c, ss[i - 1], es[i - 1]);
    }
  }
}
