/** What the handlers of `Service` are specified by: the steps that each of them takes itself,
    what others leave of a job in its hands meanwhile, and what a request, an attempt, a failure
    and a pass of the expiry cron leave in Redis. */
module Handlers {
  import opened Redis
  import opened Counting
  import opened Lifecycle
  import opened JobInvariant
  import opened Scripts
  import opened Sequences
  import Backlog

  datatype Handler = Requester | Worker | Failer

  // The steps of a job that its own handler takes.
  predicate Owns(h: Handler, step: JobStep) {
    match step
    case Request(_) => h.Requester?
    case Work(_) => h.Worker?
    case Succeed(_) => h.Worker?
    case Fail(_) => h.Failer?
    case _ => false
  }

  // The job is between two steps of the handler.
  predicate InHands(h: Handler, pc: Pc) {
    match h
    case Requester => pc.Selected? || pc.Incremented? || pc.Accepted?
    case Worker => Running(pc) || pc.SuccessMeta? || pc.SuccessResult? || pc.SuccessUnlocked?
    case Failer => pc.FailurePending? || pc.FailureDecided? || pc.FailureResult? || pc.FailureMeta? || pc.FailureUnlocked?
  }

  predicate Foreign(h: Handler, j: JobId, e: Event) {
    !(e.OfJob? && e.j == j && Owns(h, e.step))
  }

  // ---- what others leave of a job in the hands of its handler ---------------------------

  // The sync marks a result; nothing else of it changes.
  function Unsynced(r: Option<Result>): Option<Result> {
    if r.Some? then Some(r.value.(syncedAt := None)) else None
  }

  function Identity(m: Option<Meta>): Option<Meta> {
    if m.Some? then Some(m.value.(status := None, updatedAt := None)) else None
  }

  ghost predicate SameHashes(v: View, v': View) {
    v'.meta == v.meta && Unsynced(v'.result) == Unsynced(v.result)
  }

  // A late expiry has written its result meanwhile.
  ghost predicate ExpiredMeanwhile(v: View, v': View) {
    && v'.meta.Some? && Identity(v'.meta) == Identity(v.meta) && v'.meta.value.status == Some(Failed)
    && v'.result.Some? && v'.result.value.status == Some(Failed)
    && v'.result.value.error == Some("expired") && v'.result.value.errorCode == Some("expired")
  }

  ghost predicate Left(h: Handler, v: View, v': View) {
    && v'.job.info == v.job.info && v'.job.pc == v.job.pc
    && (h.Worker? ==> SameHashes(v, v') && v'.job == v.job.(cron := v'.job.cron))
    && (h.Failer? && v.meta.Some? ==> SameHashes(v, v') || ExpiredMeanwhile(v, v'))
  }

  lemma LeftByStale(now: int, native: bool, v: View, e: StaleStep, h: Handler)
    requires JobOk(v) && EnabledStale(now, v, e) && InHands(h, v.job.pc)
    ensures Left(h, v, StaleView(now, native, v, e))
  {}

  lemma LeftByStep(c: Config, s: State, v: View, e: JobStep, h: Handler)
    requires JobOk(v) && EnabledStep(s.now, v, e) && !Owns(h, e) && InHands(h, v.job.pc)
    ensures Left(h, v, NextView(c, s, v, e))
  {
    if e.Stale? {
      LeftByStale(s.now, NativeUserToken(c, s, v.job), v, e.stale, h);
    }
  }

  lemma LeftOn(h: Handler, a: View, b: View, d: View)
    requires Left(h, a, b) && Left(h, b, d)
    ensures Left(h, a, d)
  {}

  lemma LeftByOthers(c: Config, ss: seq<State>, es: seq<Event>, e: Event, j: JobId, h: Handler)
    requires Run(c, ss, es) && Enabled(ss[|es|], e) && j in ss[|es|].jobs
    requires Foreign(h, j, e) && InHands(h, ss[|es|].jobs[j].pc)
    ensures j in Apply(c, ss[|es|], e).jobs && Left(h, ViewOf(ss[|es|], j), ViewOf(Apply(c, ss[|es|], e), j))
  {
    var s := ss[|es|];
    RunIsLocal(c, ss, es, |es|);
    if e.OfJob? && e.j == j {
      LeftByStep(c, s, ViewOf(s, j), e.step, h);
      OwnView(c, s, j, e.step);
    } else {
      EventLeavesView(c, s, e, j);
    }
  }

  // Only the request of a job takes a lock for it.
  ghost predicate Unlocked(l: Locks, u: User, j: JobId) { j !in LocksOf(l, u) }

  lemma StepLocksNothing(s: State, i: JobId, v: View, e: JobStep, u: User, j: JobId)
    requires EnabledStep(s.now, v, e) && Unlocked(s.db.locks, u, j)
    ensures Unlocked(NextLocks(s, i, v, e), u, j)
  {}

  lemma AcquireLocksOnlyItself(db: Db, now: int, a: AcquireArgs, u: User, j: JobId)
    requires a.job != j && Unlocked(db.locks, u, j)
    ensures Unlocked(Redis.CombinedCheckAndAcquire(db, now, a).locks, u, j)
  {}

  lemma NobodyLocksAgain(c: Config, s: State, e: Event, j: JobId, u: User)
    requires Enabled(s, e) && j in s.jobs && Unlocked(s.db.locks, u, j)
    ensures Unlocked(Apply(c, s, e).db.locks, u, j)
  {
    match e
    case OfJob(i, step) => StepLocksNothing(s, i, ViewOf(s, i), step, u, j);
    case TryAcquire(_, _, _, _, _, _) => AcquireLocksOnlyItself(s.db, s.now, AcquireArgsFor(c, e), u, j);
    case Tick(_) =>
    case CleanLocks(_, _) =>
  }

  // ---- a step of a job -----------------------------------------------------------------

  // The machine has taken the step e of the job j.
  ghost predicate Stepped(c: Config, s: State, s': State, j: JobId, e: JobStep)
    requires Enabled(s, OfJob(j, e))
  {
    var v := ViewOf(s, j);
    && s' == AfterStep(c, s, j, e)
    && j in s'.jobs && ViewOf(s', j) == NextView(c, s, v, e)
    && s'.jobs == s.jobs[j := NextView(c, s, v, e).job] && s'.now == s.now
    && s'.db.counters == Send(c, s.db.counters, s.now, CommandOf(c, s.now, v, e))
    && s'.db.locks == NextLocks(s, j, v, e)
  }

  // The hashes after a step of a job.
  lemma StepDb(c: Config, s: State, j: JobId, e: JobStep)
    requires Enabled(s, OfJob(j, e))
    ensures var v := ViewOf(s, j);
            var v' := NextView(c, s, v, e);
            var db := AfterStep(c, s, j, e).db;
            && db.metas == (if v'.meta == v.meta then s.db.metas else Put(s.db.metas, j, v'.meta))
            && db.results == (if v'.result == v.result then s.db.results else Put(s.db.results, j, v'.result))
            && Stepped(c, s, AfterStep(c, s, j, e), j, e)
  {
    OwnView(c, s, j, e);
  }

  function ExpireArgsFor(c: Config, s: State, j: JobId, startedAt: int): ExpireArgs
    requires j in s.jobs
  {
    var x := s.jobs[j];
    ExpireArgs(Some(Waiting(x.info.model)), Some(x.info.user), Some(StaleKey(c, s.now, x)), j,
               c.DayTtl(startedAt), s.now, Failed, "expired", "expired")
  }

  // The step that expires a job in the machine is the Lua script.
  lemma ExpiryIsTheScript(c: Config, s: State, j: JobId, startedAt: int)
    requires Enabled(s, OfJob(j, Stale(ReleaseStale(startedAt))))
    ensures AfterStep(c, s, j, Stale(ReleaseStale(startedAt))).db
         == Redis.ExpireStaleJob(s.db, s.now, ExpireArgsFor(c, s, j, startedAt))
  {
    StepDb(c, s, j, Stale(ReleaseStale(startedAt)));
  }

  // BullMQ has requeued or failed the job of a dead worker.
  predicate Dropped(pc: Pc) { pc.WaitingInQueue? || pc.FailurePending? }

  // The worker died; what the job has been charged and its result are as they were.
  ghost predicate Lost(v: View, v': View) {
    && v'.job.info == v.job.info && Dropped(v'.job.pc)
    && v'.job.hist.consumptions == v.job.hist.consumptions && v'.job.hist.writes == v.job.hist.writes
  }

  lemma InHandsMayDie(v: View, retry: bool)
    requires JobOk(v) && InHands(Worker, v.job.pc)
    ensures EnabledWork(v, WorkerDies(retry))
  {}

  lemma MayDie(c: Config, ss: seq<State>, es: seq<Event>, j: JobId, retry: bool)
    requires Run(c, ss, es) && j in ss[|es|].jobs && InHands(Worker, ss[|es|].jobs[j].pc)
    ensures Enabled(ss[|es|], OfJob(j, Work(WorkerDies(retry))))
  {
    RunIsLocal(c, ss, es, |es|);
    InHandsMayDie(ViewOf(ss[|es|], j), retry);
  }

  // How far an attempt has come: tokens consumed, delayed, out of daily quota, provider called
  // or failed, succeeded, or cut off by the death of the worker.
  datatype Attempt = Consumed | MovedToDelayed | DayExceeded | Called | ProviderThrew | Succeeded | Died

  predicate HasMinute(c: Config, s: State, m: Model) {
    c.rpm(m) == 0 || Val(s.db.counters, ModelRpm(m)) < c.rpm(m)
  }

  // An attempt that asks for the tokens of its model in the state s gets as far as r.
  ghost predicate Follows(c: Config, s: State, m: Model, r: Attempt) {
    match r
    case MovedToDelayed => !HasMinute(c, s, m)
    case DayExceeded => HasMinute(c, s, m) && !HasRoom(c, s, m)
    case Died => !HasMinute(c, s, m) || HasRoom(c, s, m)
    case _ => HasMinute(c, s, m) && HasRoom(c, s, m)
  }

  // What an attempt that has come as far as r has left in Redis: where the job stands, what
  // its meta says, and that it was charged unless its tokens had been consumed before.
  ghost predicate Came(v: View, v': View, tokens: bool, r: Attempt, retry: bool) {
    var h, h' := v.job.hist, v'.job.hist;
    var pc, meta := v'.job.pc, MetaIn(v');
    && v'.job.info == v.job.info
    && h.consumptions <= h'.consumptions <= h.consumptions + Ind(!tokens)
    && h.writes <= h'.writes <= h.writes + Ind(r.Succeeded? || r.Died?)
    && (r.Consumed? || r.Called? || r.ProviderThrew? || r.Succeeded? ==>
          h'.consumptions == h.consumptions + Ind(!tokens) && meta.tokensConsumed)
    && match r
       case Died => Dropped(pc)
       case Consumed => pc.Ready?
       case MovedToDelayed => pc.Delayed? && !tokens && h'.consumptions == h.consumptions && meta.status == Some(Queued)
       case DayExceeded => pc.FailurePending? && !tokens && h'.consumptions == h.consumptions
       case Called => pc.Flagged? && meta.providerCompleted
       case ProviderThrew => pc == (if retry then Delayed else FailurePending) && !meta.providerCompleted
       case Succeeded => pc.Done? && h'.writes == h.writes + 1
  }

  predicate Names(m: Meta, usedModel: Model) { m.processed == Some(usedModel) && m.status == Some(Completed) }

  predicate Holds(r: Result, usedModel: Model, text: string) {
    r.status == Some(Completed) && r.data == Some(text) && r.usedModel == Some(usedModel)
  }

  // A success has been written to its end, or the worker died on the way, perhaps after the
  // result was written.
  ghost predicate Ended(v: View, v': View, died: bool) {
    var h, h' := v.job.hist, v'.job.hist;
    && v'.job.info == v.job.info && h'.consumptions == h.consumptions
    && if died then Dropped(v'.job.pc) && h.writes <= h'.writes <= h.writes + 1
       else v'.job.pc.Done? && h'.writes == h.writes + 1 && MetaIn(v').tokensConsumed == MetaIn(v).tokensConsumed
  }

  lemma CameFrom(a: View, b: View, d: View, tokens: bool, r: Attempt, retry: bool)
    requires b.job.info == a.job.info && b.job.hist == a.job.hist && Came(b, d, tokens, r, retry)
    ensures Came(a, d, tokens, r, retry)
  {}

  lemma CameFurther(a: View, b: View, d: View, tokens: bool, r: Attempt, r': Attempt, retry: bool)
    requires (r.Consumed? || r.Called?) && Came(a, b, tokens, r, false) && Came(b, d, true, r', retry)
    ensures Came(a, d, tokens, r', retry)
  {}

  // The expiry cron has removed the job, and a listener has yet to look at its last failure.
  predicate Missing(x: Job) {
    x.failedEvent && (x.pc.Removed? || x.pc.RemovedRefunded? || x.pc.Expired?)
  }

  function ReasonOf(failedReason: string): string {
    if failedReason == "" then "PROVIDER_ERROR" else failedReason
  }

  // The code under which clients know the reason of a failure.
  predicate Codes(reason: string, mode: Mode, code: Option<string>) {
    match reason
    case "MODEL_RPD_EXCEEDED" => code == Some("MODEL_LIMIT")
    case "USER_RPD_EXCEEDED" => code == if mode.Lite? then Some("USER_RPD_LIMIT:lite") else Some("USER_RPD_LIMIT:hard")
    case _ => code == Some("PROVIDER_ERROR")
  }

  lemma FailureIsCoded(reason: string, mode: Mode)
    ensures Codes(reason, mode, Some(FailureCode(reason, mode)))
  {}

  // The failure that the handler writes, or that of the expiry cron.
  predicate FailedAs(r: Result, reason: string, mode: Mode) {
    && r.status == Some(Failed)
    && ((r.error == Some(reason) && Codes(reason, mode, r.errorCode))
        || (r.error == Some("expired") && r.errorCode == Some("expired")))
  }

  // BullMQ lets the cron remove the job: no worker has it.
  predicate Removable(pc: Pc) { InQueue(pc) || LeftQueue(pc) }

  // How far the expiry of a job has come, in time or late.
  predicate OnItsWay(x: Job) { x.pc.Removed? || (LeftQueue(x.pc) && x.cron.LateRemoved?) }

  predicate Halfway(x: Job) { x.pc.RemovedRefunded? || (LeftQueue(x.pc) && x.cron.LateRefunded?) }

  predicate Gone(x: Job) { x.pc.Expired? || (LeftQueue(x.pc) && x.cron.LateExpired?) }

  lemma RemovalMoves(c: Config, s: State, j: JobId)
    requires j in s.jobs && s.jobs[j].cron.Read?
    ensures var e := Stale(if Removable(s.jobs[j].pc) then RemoveStale else SkipStale);
            && EnabledStep(s.now, ViewOf(s, j), e)
            && var y := NextView(c, s, ViewOf(s, j), e).job;
               if Removable(s.jobs[j].pc) then OnItsWay(y) else y == s.jobs[j].(cron := Idle)
  {}

  lemma RefundMovesOn(c: Config, s: State, j: JobId, startedAt: int)
    requires j in s.jobs && OnItsWay(s.jobs[j]) && startedAt <= s.now
    ensures var e := Stale(RefundStale(startedAt));
            && Enabled(s, OfJob(j, e))
            && var s', v := AfterStep(c, s, j, e), ViewOf(s, j);
               && s'.now == s.now && Halfway(NextView(c, s, v, e).job) && s'.jobs == s.jobs[j := NextView(c, s, v, e).job]
               && s'.db == s.db.(counters := Send(c, s.db.counters, s.now, CommandOf(c, s.now, v, e)))
  {
    StepDb(c, s, j, Stale(RefundStale(startedAt)));
  }

  lemma ReleaseMovesOn(c: Config, s: State, j: JobId, startedAt: int)
    requires j in s.jobs && Halfway(s.jobs[j]) && startedAt <= s.now
    ensures var e := Stale(ReleaseStale(startedAt));
            && Enabled(s, OfJob(j, e))
            && var s', v := AfterStep(c, s, j, e), ViewOf(s, j);
               && s'.now == s.now && Gone(NextView(c, s, v, e).job) && s'.jobs == s.jobs[j := NextView(c, s, v, e).job]
               && s'.db == Redis.ExpireStaleJob(s.db, s.now, ExpireArgsFor(c, s, j, startedAt))
  {
    ExpiryIsTheScript(c, s, j, startedAt);
  }

  // What a job keeps while others work on it, apart from the expiry cron: above all, nobody
  // else expires it.
  predicate Kept(a: Job, b: Job) {
    && b.info == a.info && (a.cron.Idle? || b.cron == a.cron)
    && (Submitted(a.pc) ==> Submitted(b.pc) && b.queuedAt == a.queuedAt)
    && (OnItsWay(a) <==> OnItsWay(b)) && (Halfway(a) <==> Halfway(b)) && (Gone(a) <==> Gone(b))
  }

  ghost predicate KeptOutside(a: map<JobId, Job>, b: map<JobId, Job>, js: seq<JobId>) {
    forall k :: k in a && k !in js ==> k in b && Kept(a[k], b[k])
  }

  lemma KeptOn(a: map<JobId, Job>, b: map<JobId, Job>, d: map<JobId, Job>, js: seq<JobId>)
    requires KeptOutside(a, b, js) && (KeptOutside(b, d, js) || KeptOutside(b, d, []))
    ensures KeptOutside(a, d, js)
  {}

  lemma WorkKeeps(now: int, code: int, life: nat, v: View, e: WorkStep)
    requires JobOk(v) && EnabledWork(v, e)
    ensures Kept(v.job, WorkView(now, code, life, v, e).job)
  {}

  lemma FailureKeeps(now: int, v: View, e: FailureStep)
    requires JobOk(v) && EnabledFailure(v, e)
    ensures Kept(v.job, FailureView(now, v, e).job)
  {}

  lemma StepKeeps(c: Config, s: State, v: View, e: JobStep)
    requires JobOk(v) && EnabledStep(s.now, v, e) && !e.Stale?
    ensures Kept(v.job, NextView(c, s, v, e).job)
  {
    match e
    case Work(w) => WorkKeeps(s.now, CodeFor(c, s, v.job), BookOf(s, ModelRpd(v.job.info.model)).life, v, w);
    case Fail(f) => FailureKeeps(s.now, v, f);
    case Request(_) =>
    case Succeed(_) =>
    case Sync(_) =>
  }

  lemma OneIsKept(a: map<JobId, Job>, j: JobId, y: Job)
    requires j in a && Kept(a[j], y)
    ensures KeptOutside(a, a[j := y], [])
  {}

  lemma JobStepKeepsAll(c: Config, s: State, j: JobId, e: JobStep)
    requires Local(s) && Enabled(s, OfJob(j, e)) && !e.Stale?
    ensures KeptOutside(s.jobs, AfterStep(c, s, j, e).jobs, [])
  {
    StepKeeps(c, s, ViewOf(s, j), e);
    OneIsKept(s.jobs, j, NextView(c, s, ViewOf(s, j), e).job);
  }

  lemma AcquireKeepsAll(c: Config, s: State, e: Event)
    requires Enabled(s, e) && e.TryAcquire?
    ensures KeptOutside(s.jobs, AfterAcquire(c, s, e).jobs, [])
  {}

  lemma StepKeepsAll(c: Config, ss: seq<State>, es: seq<Event>, e: Event)
    requires Run(c, ss, es) && Enabled(ss[|es|], e) && !(e.OfJob? && e.step.Stale?)
    ensures KeptOutside(ss[|es|].jobs, Apply(c, ss[|es|], e).jobs, []) && ss[|es|].now <= Apply(c, ss[|es|], e).now
  {
    var s := ss[|es|];
    RunIsLocal(c, ss, es, |es|);
    match e
    case OfJob(j, step) => JobStepKeepsAll(c, s, j, step);
    case TryAcquire(_, _, _, _, _, _) => AcquireKeepsAll(c, s, e);
    case Tick(_) =>
    case CleanLocks(_, _) =>
  }

  // ---- the list of the expiry cron -------------------------------------------------------

  // getJobs(['waiting', 'delayed'], 0, 500) returns up to 501 jobs of each kind.
  const PAGE := 501

  // The waiting or the delayed jobs of a queue.
  function QueuedAs(jobs: map<JobId, Job>, mode: Mode, kind: Pc): set<JobId> {
    set j | j in jobs && jobs[j].pc == kind && jobs[j].info.mode == mode
  }

  // One page of a set: all of it, if it fits.
  method Page(all: set<JobId>) returns (js: seq<JobId>)
    ensures Distinct(js) && forall j :: j in js ==> j in all
    ensures |js| <= PAGE && (|js| == PAGE || forall j :: j in all ==> j in js)
    ensures |all| <= PAGE ==> forall j :: j in all ==> j in js
  {
    js := [];
    var rest := all;
    while rest != {} && |js| < PAGE
      invariant Distinct(js) && |js| + |rest| == |all| && |js| <= PAGE
      invariant rest <= all && forall j :: j in all <==> j in js || j in rest
      invariant forall j :: j in js ==> j !in rest
    {
      var j :| j in rest;
      js, rest := js + [j], rest - {j};
    }
  }

  lemma Appended(a: seq<JobId>, b: seq<JobId>)
    requires Distinct(a) && Distinct(b) && forall j :: j in a ==> j !in b
    ensures Distinct(a + b) && forall j :: j in a + b <==> j in a || j in b
  {
    forall i, k | 0 <= i < k < |a + b| ensures (a + b)[i] != (a + b)[k] {
      if i < |a| <= k {
        assert a[i] in a && b[k - |a|] in b;
      }
    }
  }

  // What getJobs returns: waiting and delayed jobs of the queue, and all of a kind that fits.
  ghost predicate ListOf(jobs: map<JobId, Job>, mode: Mode, js: seq<JobId>) {
    && Distinct(js)
    && (forall j :: j in js ==> j in jobs && InQueue(jobs[j].pc) && jobs[j].info.mode == mode)
    && (|QueuedAs(jobs, mode, WaitingInQueue)| <= 501 ==> forall j :: j in QueuedAs(jobs, mode, WaitingInQueue) ==> j in js)
    && (|QueuedAs(jobs, mode, Delayed)| <= 501 ==> forall j :: j in QueuedAs(jobs, mode, Delayed) ==> j in js)
  }

  method GetJobs(jobs: map<JobId, Job>, mode: Mode) returns (js: seq<JobId>)
    ensures ListOf(jobs, mode, js)
  {
    var waiting := Page(QueuedAs(jobs, mode, WaitingInQueue));
    var delayed := Page(QueuedAs(jobs, mode, Delayed));
    Appended(waiting, delayed);
    return waiting + delayed;
  }

  // Older than the thirty minutes that the service promises to wait for.
  predicate Aged(x: Job, startedAt: int) { x.queuedAt + 30 * 60 * 1000 < startedAt }

  // The jobs of the list that the pass will expire.
  ghost predicate DueOf(jobs: map<JobId, Job>, js: seq<JobId>, due: seq<JobId>, startedAt: int) {
    Distinct(due) && forall j :: j in due <==> j in js && j in jobs && Aged(jobs[j], startedAt)
  }

  ghost predicate AllListed(jobs: map<JobId, Job>, js: seq<JobId>) {
    forall k :: 0 <= k < |js| ==> js[k] in jobs && Submitted(jobs[js[k]].pc) && jobs[js[k]].cron.Listed?
  }

  ghost predicate AllGone(jobs: map<JobId, Job>, js: seq<JobId>) {
    forall k :: 0 <= k < |js| ==> js[k] in jobs && Gone(jobs[js[k]])
  }

  // The jobs of the list have been marked as listed; nothing else has changed.
  ghost predicate Marks(a: map<JobId, Job>, b: map<JobId, Job>, js: seq<JobId>) {
    && b.Keys == a.Keys && (forall j :: j in js ==> j in a && InQueue(a[j].pc))
    && forall k :: k in a ==> b[k] == if k in js then a[k].(cron := Listed) else a[k]
  }

  // The first i jobs of the list have been looked at.
  ghost predicate DueUpTo(a: map<JobId, Job>, b: map<JobId, Job>, js: seq<JobId>, i: nat, due: seq<JobId>, startedAt: int) {
    i <= |js| && Marks(a, b, due) && DueOf(a, js[..i], due, startedAt)
  }

  lemma DueFurther(a: map<JobId, Job>, b: map<JobId, Job>, mode: Mode, js: seq<JobId>, i: nat, due: seq<JobId>, startedAt: int)
    requires ListOf(a, mode, js) && i < |js| && DueUpTo(a, b, js, i, due, startedAt)
    ensures js[i] in b && b[js[i]] == a[js[i]] && InQueue(a[js[i]].pc)
    ensures var j := js[i];
            if Aged(b[j], startedAt) then DueUpTo(a, b[j := b[j].(cron := Listed)], js, i + 1, due + [j], startedAt)
            else DueUpTo(a, b, js, i + 1, due, startedAt)
  {
    assert js[..i + 1] == js[..i] + [js[i]];
    assert js[i] in js && js[i] !in js[..i];
  }

  lemma DueAreListed(a: map<JobId, Job>, b: map<JobId, Job>, js: seq<JobId>, due: seq<JobId>, startedAt: int)
    requires DueUpTo(a, b, js, |js|, due, startedAt)
    ensures DueOf(a, js, due, startedAt) && KeptOutside(a, b, due) && AllListed(b, due)
  {
    assert js[..|js|] == js;
  }

  // A job in the queue is not being expired late.
  lemma QueuedIsEarly(c: Config, ss: seq<State>, es: seq<Event>, j: JobId)
    requires Run(c, ss, es) && j in ss[|es|].jobs && InQueue(ss[|es|].jobs[j].pc)
    ensures var cron := ss[|es|].jobs[j].cron; cron.Idle? || cron.Listed? || cron.Read?
  {
    RunIsLocal(c, ss, es, |es|);
    assert JobOk(ViewOf(ss[|es|], j));
  }

  lemma StillListed(a: map<JobId, Job>, b: map<JobId, Job>, js: seq<JobId>, i: nat)
    requires i < |js| && KeptOutside(a, b, []) && AllListed(a, js[i..])
    ensures js[i] in b && b[js[i]].cron.Listed?
  {
    assert js[i..][0] == js[i];
  }

  // A turn for js[i] leaves what is listed behind it and what is gone before it.
  lemma TurnKeeps(a: map<JobId, Job>, b: map<JobId, Job>, d: map<JobId, Job>, js: seq<JobId>, i: nat)
    requires Distinct(js) && i < |js| && KeptOutside(a, b, []) && KeptOutside(b, d, [js[i]])
    requires AllListed(a, js[i..]) && AllGone(a, js[..i])
    ensures KeptOutside(a, d, [js[i]])
    ensures AllListed(d, js[i + 1..])
    ensures js[i] in d && Gone(d[js[i]]) ==> AllGone(d, js[..i + 1])
  {
    KeptOn(a, b, d, [js[i]]);
    forall k | 0 <= k < |js| && k != i ensures js[k] in a && js[k] in d && Kept(a[js[k]], d[js[k]]) {
      if k < i {
        assert js[..i][k] == js[k];
      } else {
        assert js[i..][k - i] == js[k];
      }
      assert js[k] !in [js[i]];
    }
    var rest := js[i + 1..];
    forall k | 0 <= k < |rest| ensures rest[k] in d && Submitted(d[rest[k]].pc) && d[rest[k]].cron.Listed? {
      assert js[i..][k + 1] == js[i + 1 + k];
    }
    forall k | 0 <= k < i ensures js[k] in d && Gone(d[js[k]]) {
      assert js[..i][k] == js[k];
    }
  }

  // ---- what a pass does to a queue -------------------------------------------------------

  predicate Overdue(x: Job, mode: Mode, startedAt: int) {
    InQueue(x.pc) && x.info.mode == mode && Aged(x, startedAt)
  }

  // Every job of the queue that was past the limit has been expired, provided its kind fitted
  // on a page.
  ghost predicate Swept(a: map<JobId, Job>, b: map<JobId, Job>, mode: Mode, startedAt: int) {
    forall j :: j in a && Overdue(a[j], mode, startedAt) && |QueuedAs(a, mode, a[j].pc)| <= 501 ==> j in b && Gone(b[j])
  }

  // All other jobs go their own ways.
  ghost predicate Spared(a: map<JobId, Job>, b: map<JobId, Job>, mode: Mode, startedAt: int) {
    forall j :: j in a && !Overdue(a[j], mode, startedAt) ==> j in b && Kept(a[j], b[j])
  }

  lemma PassSweeps(a: map<JobId, Job>, b: map<JobId, Job>, mode: Mode, js: seq<JobId>, due: seq<JobId>, startedAt: int)
    requires ListOf(a, mode, js) && DueOf(a, js, due, startedAt)
    ensures KeptOutside(a, b, due) ==> Spared(a, b, mode, startedAt)
    ensures AllGone(b, due) ==> Swept(a, b, mode, startedAt)
  {
    forall j | AllGone(b, due) && j in a && Overdue(a[j], mode, startedAt) && |QueuedAs(a, mode, a[j].pc)| <= 501
      ensures j in b && Gone(b[j])
    {
      assert j in QueuedAs(a, mode, a[j].pc);
      var k :| 0 <= k < |due| && due[k] == j;
    }
  }

  // In the state ss[at] the pass was about to remove a job, and a worker had it.
  ghost predicate MeetsWorker(ss: seq<State>, from: nat, at: nat, j: JobId) {
    from <= at < |ss| && j in ss[at].jobs && ss[at].jobs[j].cron.Read? && !Removable(ss[at].jobs[j].pc)
  }

  // What is gone from one queue stays gone while the other is looked at.
  lemma SweptStays(a: map<JobId, Job>, b: map<JobId, Job>, d: map<JobId, Job>, e: map<JobId, Job>, startedAt: int)
    requires Swept(a, b, Lite, startedAt) && KeptOutside(b, d, []) && Spared(d, e, Hard, startedAt)
    ensures Swept(a, e, Lite, startedAt)
  {}

  // Jobs that were not past the limit when the pass began are not expired by it.
  ghost predicate YoungAreKept(a: map<JobId, Job>, b: map<JobId, Job>, startedAt: int) {
    forall j :: j in a && Submitted(a[j].pc) && !Aged(a[j], startedAt) ==> j in b && Kept(a[j], b[j])
  }

  lemma YoungStay(a: map<JobId, Job>, b: map<JobId, Job>, d: map<JobId, Job>, e: map<JobId, Job>, mode: Mode, startedAt: int)
    requires YoungAreKept(a, b, startedAt) && KeptOutside(b, d, []) && Spared(d, e, mode, startedAt)
    ensures YoungAreKept(a, e, startedAt)
  {
    forall j | j in a && Submitted(a[j].pc) && !Aged(a[j], startedAt) ensures j in e && Kept(a[j], e[j]) {
      assert Kept(b[j], d[j]) && !Overdue(d[j], mode, startedAt);
      assert Kept(d[j], e[j]);
    }
  }

  // ---- admission -------------------------------------------------------------------------

  // A request on its way through its chain; `present` are the models that have limits.
  datatype Wish = Wish(user: User, mode: Mode, chain: seq<Model>, present: set<Model>, askedAt: int)

  // The three gates of a request, as it finds them in Redis: the user holds fewer locks than
  // allowed, has a token left for the day of the request, and the model has one left too.
  ghost predicate HasLock(c: Config, s: State, q: Wish) {
    c.concurrency(q.user) == 0 || |HeldAfter(s.db, q.user, q.askedAt)| < c.concurrency(q.user)
  }

  ghost predicate HasToken(c: Config, s: State, q: Wish) {
    var limit := c.userLimit(q.user, q.mode);
    limit == 0 || Val(s.db.counters, UserRpd(q.user, q.mode, c.date(q.askedAt))) < limit
  }

  ghost predicate HasRoom(c: Config, s: State, m: Model) {
    c.rpd(m) == 0 || Val(s.db.counters, ModelRpd(m)) < c.rpd(m)
  }

  // The loop goes on to the next model.
  ghost predicate PassedOver(c: Config, s: State, q: Wish, m: Model) {
    m !in q.present || (HasLock(c, s, q) && HasToken(c, s, q) && !HasRoom(c, s, m))
  }

  // What the attempt at one model came to, by the gates.
  ghost predicate Judged(c: Config, s: State, q: Wish, m: Model, code: int) {
    if code == OK then m in q.present && HasLock(c, s, q) && HasToken(c, s, q) && HasRoom(c, s, m)
    else if code == CONCURRENCY_EXCEEDED then m in q.present && !HasLock(c, s, q)
    else if code == USER_RPD_EXCEEDED then m in q.present && HasLock(c, s, q) && !HasToken(c, s, q)
    else code == RPD_EXCEEDED && PassedOver(c, s, q, m)
  }

  // chain[i] was tried in the state ss[asked[i]] and was passed over.
  ghost predicate AllPassedOver(c: Config, ss: seq<State>, from: nat, asked: seq<nat>, q: Wish) {
    && |asked| <= |q.chain|
    && (forall i, k :: 0 <= i < k < |asked| ==> asked[i] <= asked[k])
    && forall i :: 0 <= i < |asked| ==> from <= asked[i] < |ss| && PassedOver(c, ss[asked[i]], q, q.chain[i])
  }

  // The outcome is that of the first model that was not passed over, m, tried in ss[at]; it is
  // RPD_EXCEEDED exactly when all were, m the last of them.
  ghost predicate Verdict(c: Config, ss: seq<State>, from: nat, asked: seq<nat>, at: nat, q: Wish, code: int, m: Model) {
    && AllPassedOver(c, ss, from, asked, q)
    && |asked| < |q.chain| && m == q.chain[|asked|]
    && from <= at < |ss| && (forall i :: 0 <= i < |asked| ==> asked[i] <= at)
    && Judged(c, ss[at], q, m, code)
    && (code == RPD_EXCEEDED ==> |asked| + 1 == |q.chain|)
  }

  // The backlog has a place for one job more: it is empty, or shorter than what the model does
  // in 27 minutes, at its own rate or that of the mode, and within its positive daily limit.
  ghost predicate HasPlace(c: Config, s: State, info: Info) {
    var waiting, rpm, rpd := Val(s.db.counters, Waiting(info.model)), c.rpm(info.model) as real, c.rpd(info.model);
    var perMinute := if info.mode.Hard? then 2.4 else 4.0;
    waiting <= 0 || (waiting as real < 27.0 * Backlog.Min(rpm, perMinute) && (rpd == 0 || waiting < rpd))
  }

  lemma PlaceIsWithinBound(c: Config, s: State, info: Info)
    ensures HasPlace(c, s, info) <==> Val(s.db.counters, Waiting(info.model)) + 1 <= c.MaxQueueLength(info.model, info.mode)
  {
    var rpm, perMinute := c.rpm(info.model) as real, if info.mode.Hard? then 2.4 else 4.0;
    var avgSeconds := if info.mode.Hard? then 25.0 else 15.0;
    Backlog.BoundHoldsItsWork(rpm, c.rpd(info.model), avgSeconds, Backlog.Min(rpm, perMinute));
  }

  // What the script replies, by the gates.
  lemma GatesDecide(c: Config, s: State, q: Wish, j: JobId, m: Model, requested: Model)
    ensures AcquireCode(s.db, AcquireArgsFor(c, TryAcquire(j, q.user, q.mode, m, requested, q.askedAt))) ==
      if !HasLock(c, s, q) then CONCURRENCY_EXCEEDED
      else if !HasToken(c, s, q) then USER_RPD_EXCEEDED
      else if !HasRoom(c, s, m) then RPD_EXCEEDED
      else OK
  {
    AcquireReplies(s.db, AcquireArgsFor(c, TryAcquire(j, q.user, q.mode, m, requested, q.askedAt)));
  }

  lemma PassedFurther(c: Config, ss: seq<State>, ss': seq<State>, from: nat, asked: seq<nat>, q: Wish, at: nat)
    requires AllPassedOver(c, ss, from, asked, q) && |asked| < |q.chain| && from < |ss| <= at + 1 && at < |ss'| && ss <= ss'
    ensures AllPassedOver(c, ss', from, asked, q) && (forall i :: 0 <= i < |asked| ==> asked[i] <= at)
    ensures PassedOver(c, ss'[at], q, q.chain[|asked|]) ==> AllPassedOver(c, ss', from, asked + [at], q)
  {}

  lemma VerdictStays(c: Config, ss: seq<State>, ss': seq<State>, from: nat, asked: seq<nat>, at: nat, q: Wish,
                     code: int, m: Model)
    requires Verdict(c, ss, from, asked, at, q, code, m) && ss <= ss'
    ensures Verdict(c, ss', from, asked, at, q, code, m)
  {}

  // What the meta of a new job says.
  predicate MetaNames(info: Info, m: Meta) {
    && m.user == Some(info.user) && m.requested == Some(info.requested) && m.processed == Some(info.model)
    && m.createdAt == Some(info.askedAt) && m.status == Some(Queued)
  }

  predicate Announces(info: Info, m: Meta, m': Meta) {
    && MetaNames(info, m')
    && m'.tokensConsumed == m.tokensConsumed && m'.providerCompleted == m.providerCompleted && m'.updatedAt == m.updatedAt
  }

  // What became of a request; the code of a refusal is that of the script.
  datatype Submission = Refused(code: int) | QueueFull | EnqueueError | Enqueued
  {
    // Where the job of a request that got its locks stands.
    function Stand(): Pc
      requires !Refused?
    {
      match this
      case QueueFull => Rejected
      case EnqueueError => EnqueueFailed
      case Enqueued => WaitingInQueue
    }
  }
}
