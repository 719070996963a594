/** The admission, execution, failure and expiry of jobs as one machine. Every event is one
    atomic step on Redis or one move of BullMQ, and the steps of any number of requests,
    workers, failure handlers and cron runs interleave freely.

    BullMQ is the environment: it runs a job in one worker at a time, may retry it any number
    of times, requeues or fails a job whose worker died, delivers one final `failed` event,
    and lets the expiry cron remove any job that no worker has locked, finished ones included. */
module Lifecycle {
  import opened Redis
  import Backlog

  const MINUTE_TTL := 70
  const LOCK_TTL := 1860
  const EXPIRE_SLA_MS := 1800000

  // The limits in force, constant over a run (0 means unlimited, as for an admin), the PT
  // date of an instant and the seconds left in that day.
  datatype Config = Config(
    rpm: Model -> nat, rpd: Model -> nat,
    userLimit: (User, Mode) -> nat, concurrency: User -> nat,
    date: int -> int, secondsToMidnight: int -> int)
  {
    // getSecondsUntilMidnightPT never returns less than one second.
    function DayTtl(t: int): (ttl: int)
      ensures ttl >= 1
    {
      if secondsToMidnight(t) < 1 then 1 else secondsToMidnight(t)
    }

    function MaxQueueLength(m: Model, mode: Mode): int {
      Backlog.ComputeMaxQueueLength(
        rpm(m) as real, rpd(m),
        if mode.Hard? then Backlog.AVG_SECONDS_HARD else Backlog.AVG_SECONDS_LITE)
    }
  }

  // Where a job stands, from the request that creates it to its last Redis write. The
  // arguments are local variables of the handler that is running.
  datatype Pc =
    // src/routes/resume/prepareJobSubmission.ts and enqueueJob.ts
    | Selected | Incremented(count: int) | Accepted | Rejected | EnqueueFailed
    // BullMQ
    | WaitingInQueue | Delayed
    // src/worker/handleJob.ts
    | Fetched(tokens: bool) | Marked(tokens: bool)
    | RpmBlocked | RpmRequeued | RpdBlocked | Granted | Ready
    | Calling | Answered | Flagged
    // src/worker/finalizeSuccess.ts
    | SuccessMeta | SuccessResult | SuccessUnlocked | Done
    // src/worker/queueEvents.ts
    | FailurePending
    | FailureDecided(user: Option<User>, model: Option<Model>)
    | FailureResult(user: Option<User>, model: Option<Model>)
    | FailureMeta(user: Option<User>, model: Option<Model>)
    | FailureUnlocked(user: Option<User>, model: Option<Model>)
    | FailureDone
    // src/cron/expireStaleJobs.ts
    | Removed(tokens: bool, completed: bool) | RemovedRefunded | Expired

  // The expiry cron's view of a job it has listed. A job that was no longer waiting when the
  // cron removed it is expired beside whatever else happens to it: the last three.
  datatype Cron =
    | Idle | Listed | Read(tokens: bool, completed: bool)
    | LateRemoved(tokens: bool, completed: bool) | LateRefunded | LateExpired

  // A quota token of a job; `life` counts how often the counter's key had expired before.
  datatype Token = NoToken | Held(life: nat) | Returned

  // What a request fixes for its job.
  datatype Info = Info(user: User, mode: Mode, model: Model, requested: Model, day: int, askedAt: int)

  // What has happened to a job so far; no step of the service reads it. `outcome` is the first
  // terminal status that was written, `writes` counts all of them, `revivals` how often a job
  // with a result was taken up again, `lateRefunds` and `lateWrites` the scripts of a late
  // expiry, and `missed` whether a listener took the failure of an attempt for the last one.
  datatype History = History(
    token: Token, userToken: Token,
    consumptions: nat, leaks: nat, refunds: nat, lateRefunds: nat,
    outcome: Option<Status>, writes: nat, revivals: nat, lateWrites: nat, missed: nat)

  // `failedEvent` says that a listener has yet to look at the failure of the last attempt.
  datatype Job = Job(info: Info, queuedAt: int, pc: Pc, cron: Cron, failedEvent: bool, hist: History)

  // The ledger of one quota key since its last expiry: tokens granted, tokens given back by
  // jobs that held one, refunds by jobs that held none from this life of the key, and tokens
  // that nobody will give back here: granted to a worker that died before it could record
  // them, or given back to another model.
  datatype Book = Book(life: nat, granted: nat, returned: nat, foreign: nat, leaked: nat)

  const NEW_BOOK := Book(0, 0, 0, 0, 0)

  datatype State = State(
    db: Db, now: int, jobs: map<JobId, Job>, books: map<Key, Book>, rows: map<JobId, Status>)

  ghost predicate Init(s: State) {
    s.db == EMPTY_DB && s.jobs == map[] && s.books == map[] && s.rows == map[]
  }

  datatype Event =
    | Tick(to: int)
    | CleanLocks(user: User, upTo: int)
    | TryAcquire(j: JobId, user: User, mode: Mode, model: Model, requested: Model, askedAt: int)
    | OfJob(j: JobId, step: JobStep)

  datatype JobStep =
    | Request(request: RequestStep)
    | Work(work: WorkStep)
    | Succeed(success: SuccessStep)
    | Fail(failure: FailureStep)
    | Stale(stale: StaleStep)
    | Sync(sync: SyncStep)

  datatype RequestStep = IncrWaiting | CompareAndDecr | Enqueue | EnqueueFails

  datatype WorkStep =
    | Fetch | MarkInProgress | Consume | FlagConsumed
    | RequeueStatus | MoveToDelayed | LimitError
    | CallProvider | ProviderAnswers | ProviderFails(retry: bool) | FlagCompleted
    | WorkerDies(retry: bool)

  datatype SuccessStep = WriteSuccessMeta(usedModel: Model) | WriteSuccessResult(text: string) | UnlockSuccess | ReleaseSuccess

  datatype FailureStep = FindMissing | DecideRefund | WriteFailedResult(reason: string) | WriteFailedMeta | UnlockFailed | ReleaseFailed

  datatype StaleStep =
    | ListStale | ReadStale | SkipStale | RemoveStale | RefundStale(startedAt: int) | ReleaseStale(startedAt: int)

  datatype SyncStep = SyncRow | SyncMissing | DropMeta | DropResult

  // ---- classes of control points ---------------------------------------------------

  predicate InQueue(pc: Pc) { pc.WaitingInQueue? || pc.Delayed? }

  // A worker runs the job and has not started to write its success.
  predicate Running(pc: Pc) {
    pc.Fetched? || pc.Marked? || pc.RpmBlocked? || pc.RpmRequeued? || pc.RpdBlocked? || pc.Granted?
    || pc.Ready? || pc.Calling? || pc.Answered? || pc.Flagged?
  }

  predicate Succeeding(pc: Pc) {
    pc.SuccessMeta? || pc.SuccessResult? || pc.SuccessUnlocked? || pc.Done?
  }

  predicate Finished(pc: Pc) { pc.Done? || pc.FailureDone? || pc.Expired? }

  // The request was turned into a BullMQ job.
  predicate Submitted(pc: Pc) {
    !(pc.Selected? || pc.Incremented? || pc.Accepted? || pc.Rejected? || pc.EnqueueFailed?)
  }

  // The job is counted in queue:waiting.
  predicate HoldsSlot(pc: Pc) {
    !(pc.Selected? || pc.Rejected? || pc.EnqueueFailed? || Finished(pc))
  }

  // The result hash has been written.
  predicate Settled(pc: Pc) {
    pc.SuccessResult? || pc.SuccessUnlocked? || pc.Done?
    || pc.FailureResult? || pc.FailureMeta? || pc.FailureUnlocked? || pc.FailureDone? || pc.Expired?
  }

  predicate MetaSettled(pc: Pc) { Settled(pc) && !pc.FailureResult? }

  // No worker holds the job, and it is neither waiting nor delayed.
  predicate LeftQueue(pc: Pc) {
    pc.Done? || pc.FailurePending? || pc.FailureDecided? || pc.FailureResult? || pc.FailureMeta?
    || pc.FailureUnlocked? || pc.FailureDone?
  }

  predicate Late(cron: Cron) { cron.LateRemoved? || cron.LateRefunded? || cron.LateExpired? }

  predicate Refunded(pc: Pc) {
    pc.FailureDecided? || pc.FailureResult? || pc.FailureMeta? || pc.FailureUnlocked? || pc.FailureDone?
    || pc.RemovedRefunded? || pc.Expired?
  }

  // ---- steps -----------------------------------------------------------------------

  // Everything that is stored under one job id.
  datatype View = View(job: Job, meta: Option<Meta>, result: Option<Result>, row: Option<Status>)

  function Put<T>(m: map<JobId, T>, j: JobId, v: Option<T>): map<JobId, T> {
    if v.Some? then m[j := v.value] else m - {j}
  }

  function ViewOf(s: State, j: JobId): View
    requires j in s.jobs
  {
    View(s.jobs[j], Lookup(s.db.metas, j), Lookup(s.db.results, j), Lookup(s.rows, j))
  }

  function MetaIn(v: View): Meta { if v.meta.Some? then v.meta.value else EMPTY_META }

  function ResultIn(v: View): Result { if v.result.Some? then v.result.value else EMPTY_RESULT }

  function BookIn(books: map<Key, Book>, k: Key): Book {
    if k in books then books[k] else NEW_BOOK
  }

  function BookOf(s: State, k: Key): Book { BookIn(s.books, k) }

  function Goto(v: View, pc: Pc): View {
    v.(job := v.job.(pc := pc))
  }

  function GotoWithMeta(v: View, pc: Pc, meta: Meta): View {
    v.(job := v.job.(pc := pc), meta := Some(meta))
  }

  // src/routes/resume/prepareJobSubmission.ts and enqueueJob.ts, after the acquisition;
  // `count` is the reply of INCR.
  function RequestView(now: int, count: int, bound: int, v: View, e: RequestStep): View
    requires EnabledRequest(v, e)
  {
    var info := v.job.info;
    match e
    case IncrWaiting => Goto(v, Incremented(count))
    case CompareAndDecr => Goto(v, if v.job.pc.count > bound then Rejected else Accepted)
    case Enqueue =>
      v.(job := v.job.(pc := WaitingInQueue, queuedAt := now),
         meta := Some(MetaIn(v).(
           user := Some(info.user), requested := Some(info.requested), processed := Some(info.model),
           createdAt := Some(info.askedAt), status := Some(Queued))))
    case EnqueueFails => Goto(v, EnqueueFailed)
  }

  // src/worker/consumeLimitsIfNeeded.ts; `code` is the reply of consumeExecutionLimits.
  function ConsumeView(code: int, life: nat, v: View): View
    requires v.job.pc.Marked?
  {
    var h := v.job.hist;
    if v.job.pc.tokens then Goto(v, Ready)
    else if code == RPM_EXCEEDED then Goto(v, RpmBlocked)
    else if code == RPD_EXCEEDED then Goto(v, RpdBlocked)
    else v.(job := v.job.(pc := Granted, hist := h.(token := Held(life), consumptions := h.consumptions + 1)))
  }

  // A worker process that dies leaves its job to BullMQ, which requeues it or fails it.
  function DeathView(v: View, retry: bool): View {
    var x := v.job;
    var h := x.hist;
    v.(job := x.(
      pc := if retry then WaitingInQueue else FailurePending,
      hist := h.(
        token := if x.pc.Granted? then NoToken else h.token,
        leaks := if x.pc.Granted? then h.leaks + 1 else h.leaks,
        revivals := if Settled(x.pc) then h.revivals + 1 else h.revivals)))
  }

  // src/worker/handleJob.ts and markInProgress.ts
  function WorkView(now: int, code: int, life: nat, v: View, e: WorkStep): View
    requires EnabledWork(v, e)
  {
    var x := v.job;
    var meta := MetaIn(v);
    match e
    case Fetch => v.(job := x.(pc := Fetched(meta.tokensConsumed), failedEvent := false))
    case MarkInProgress =>
      GotoWithMeta(v, Marked(x.pc.tokens), meta.(status := Some(InProgress), updatedAt := Some(now)))
    case Consume => ConsumeView(code, life, v)
    case FlagConsumed => GotoWithMeta(v, Ready, meta.(tokensConsumed := true))
    case RequeueStatus => GotoWithMeta(v, RpmRequeued, meta.(status := Some(Queued)))
    case MoveToDelayed => Goto(v, Delayed)
    case LimitError => Goto(v, FailurePending)
    case CallProvider => GotoWithMeta(v, Calling, meta.(providerCompleted := false))
    case ProviderAnswers => Goto(v, Answered)
    case ProviderFails(retry) => v.(job := x.(pc := if retry then Delayed else FailurePending, failedEvent := retry))
    case FlagCompleted => GotoWithMeta(v, Flagged, meta.(providerCompleted := true))
    case WorkerDies(retry) => DeathView(v, retry)
  }

  function Settle(h: History, outcome: Status): History {
    h.(outcome := if h.outcome.Some? then h.outcome else Some(outcome), writes := h.writes + 1)
  }

  // src/worker/finalizeSuccess.ts
  function SuccessView(now: int, v: View, e: SuccessStep): View {
    match e
    case WriteSuccessMeta(usedModel) =>
      GotoWithMeta(v, SuccessMeta, MetaIn(v).(processed := Some(usedModel), status := Some(Completed)))
    case WriteSuccessResult(text) =>
      v.(job := v.job.(pc := SuccessResult, hist := Settle(v.job.hist, Completed)),
         result := Some(ResultIn(v).(status := Some(Completed), data := Some(text), usedModel := MetaIn(v).processed,
                                     finishedAt := Some(now))))
    case UnlockSuccess => Goto(v, SuccessUnlocked)
    case ReleaseSuccess => Goto(v, Done)
  }

  function FailureCode(reason: string, mode: Mode): string {
    if reason == "MODEL_RPD_EXCEEDED" then "MODEL_LIMIT"
    else if reason == "USER_RPD_EXCEEDED" then if mode.Hard? then "USER_RPD_LIMIT:hard" else "USER_RPD_LIMIT:lite"
    else "PROVIDER_ERROR"
  }

  function FailureModel(v: View): Option<Model> {
    if MetaIn(v).processed.Some? then MetaIn(v).processed else MetaIn(v).requested
  }

  predicate RefundsOnFailure(v: View) {
    var meta := MetaIn(v);
    meta.user.Some? && FailureModel(v).Some? && meta.tokensConsumed && !meta.providerCompleted
  }

  function Refund(h: History): History {
    h.(token := Returned, refunds := h.refunds + 1)
  }

  // src/worker/queueEvents.ts, the final `failed` event. A job that BullMQ does not have any
  // more counts as one that has failed for good, although the expiry cron has removed it while
  // it waited for its next attempt: then the two go on beside each other.
  function FailureView(now: int, v: View, e: FailureStep): View
    requires EnabledFailure(v, e)
  {
    var x := v.job;
    var meta := MetaIn(v);
    match e
    case FindMissing =>
      var h := x.hist;
      v.(job := x.(
        pc := FailurePending, failedEvent := false,
        cron := if x.pc.Removed? then LateRemoved(x.pc.tokens, x.pc.completed)
                else if x.pc.RemovedRefunded? then LateRefunded else LateExpired,
        hist := h.(missed := h.missed + 1, revivals := if Settled(x.pc) then h.revivals + 1 else h.revivals)))
    case DecideRefund =>
      if v.meta.None? then v
      else v.(job := x.(pc := FailureDecided(meta.user, FailureModel(v)),
                        hist := if RefundsOnFailure(v) then Refund(x.hist) else x.hist))
    case WriteFailedResult(reason) =>
      v.(job := x.(pc := FailureResult(x.pc.user, x.pc.model), hist := Settle(x.hist, Failed)),
         result := Some(ResultIn(v).(
           status := Some(Failed), error := Some(reason), errorCode := Some(FailureCode(reason, x.info.mode)),
           finishedAt := Some(now))))
    case WriteFailedMeta =>
      GotoWithMeta(v, FailureMeta(x.pc.user, x.pc.model), meta.(status := Some(Failed), updatedAt := Some(now)))
    case UnlockFailed => Goto(v, FailureUnlocked(x.pc.user, x.pc.model))
    case ReleaseFailed => Goto(v, FailureDone)
  }

  function RefundIf(h: History, tokens: bool, completed: bool): History {
    if tokens && !completed then Refund(h) else h
  }

  // expireStaleJob.lua on the hashes of the job
  function ExpireView(now: int, native: bool, v: View): View {
    var h := v.job.hist;
    View(v.job.(hist := Settle(h, Failed).(userToken := if native then Returned else h.userToken)),
         Some(MetaIn(v).(status := Some(Failed), updatedAt := Some(now))),
         Some(ResultIn(v).(status := Some(Failed), error := Some("expired"), errorCode := Some("expired"),
                           finishedAt := Some(now), expiredAt := Some(now))),
         v.row)
  }

  // src/cron/expireStaleJobs.ts; the cron run began at `startedAt`, and `native` says that the
  // user's token came from the counter that the script gives it back to.
  function StaleView(now: int, native: bool, v: View, e: StaleStep): View
    requires EnabledStale(now, v, e)
  {
    var x := v.job;
    var h := x.hist;
    match e
    case ListStale => v.(job := x.(cron := Listed))
    case ReadStale => v.(job := x.(cron := Read(MetaIn(v).tokensConsumed, MetaIn(v).providerCompleted)))
    case SkipStale => v.(job := x.(cron := Idle))
    case RemoveStale =>
      if InQueue(x.pc) then v.(job := x.(pc := Removed(x.cron.tokens, x.cron.completed), cron := Idle))
      else v.(job := x.(cron := LateRemoved(x.cron.tokens, x.cron.completed)))
    case RefundStale(_) =>
      if x.pc.Removed? then v.(job := x.(pc := RemovedRefunded, hist := RefundIf(h, x.pc.tokens, x.pc.completed)))
      else
        var h' := RefundIf(h, x.cron.tokens, x.cron.completed);
        v.(job := x.(cron := LateRefunded, hist := h'.(lateRefunds := h.lateRefunds + h'.refunds - h.refunds)))
    case ReleaseStale(_) =>
      var v' := ExpireView(now, native, v);
      if x.pc.RemovedRefunded? then v'.(job := v'.job.(pc := Expired))
      else v'.(job := v'.job.(cron := LateExpired, hist := v'.job.hist.(lateWrites := h.lateWrites + 1)))
  }

  // src/cron/syncDbResults.ts, one job at a time, and the expiry of the job's keys
  function SyncView(now: int, v: View, e: SyncStep): View {
    match e
    case SyncRow =>
      v.(row := Some(if ResultIn(v).status.Some? then ResultIn(v).status.value
                     else if MetaIn(v).status.Some? then MetaIn(v).status.value else Unknown),
         result := Some(ResultIn(v).(syncedAt := Some(now))))
    case SyncMissing => v.(row := Some(if MetaIn(v).status.Some? then MetaIn(v).status.value else Failed))
    case DropMeta => v.(meta := None)
    case DropResult => v.(result := None)
  }

  // ---- shared keys -----------------------------------------------------------------

  // user:{userId}:rpd:{type}:{date of the request}
  function QuotaKey(c: Config, e: Event): Key
    requires e.TryAcquire?
  {
    UserRpd(e.user, e.mode, c.date(e.askedAt))
  }

  function AcquireArgsFor(c: Config, e: Event): AcquireArgs
    requires e.TryAcquire?
  {
    AcquireArgs(
      e.user, QuotaKey(c, e), ModelRpd(e.model), e.j,
      c.userLimit(e.user, e.mode), c.concurrency(e.user), c.rpd(e.model),
      c.DayTtl(e.askedAt), LOCK_TTL, c.DayTtl(e.askedAt), 1, e.askedAt)
  }

  function ConsumeArgsFor(c: Config, m: Model, now: int): ConsumeArgs {
    ConsumeArgs(ModelRpm(m), ModelRpd(m), c.rpm(m), c.rpd(m), MINUTE_TTL, c.DayTtl(now), 1)
  }

  function ReturnArgsFor(m: Model, dayTtl: int): ReturnArgs {
    ReturnArgs(Some(ModelRpm(m)), Some(ModelRpd(m)), None, 1, MINUTE_TTL, dayTtl, 0)
  }

  // The expiry cron gives the user's token back under the date of that moment.
  function StaleKey(c: Config, now: int, x: Job): Key {
    UserRpd(x.info.user, x.info.mode, c.date(now))
  }

  function CodeFor(c: Config, s: State, x: Job): int {
    ConsumeCode(s.db.counters, ConsumeArgsFor(c, x.info.model, s.now))
  }

  // The flags that the expiry cron has read call for a refund.
  predicate StaleRefunds(x: Job)
    requires x.pc.Removed? || x.cron.LateRemoved?
  {
    if x.pc.Removed? then x.pc.tokens && !x.pc.completed else x.cron.tokens && !x.cron.completed
  }

  // The command or script on the counters that a step sends to Redis.
  datatype Command =
    | Nothing
    | Increment(k: Key, n: int)
    | ConsumeLimits(model: Model)
    | ReturnTokens(model: Model, dayTtl: int)
    | DecrementClamped(k: Key)
    | ExpireJob(waiting: Key, userRpd: Key, dayTtl: int)

  function CommandOf(c: Config, now: int, v: View, e: JobStep): Command
    requires EnabledStep(now, v, e)
  {
    var x := v.job;
    var k := Waiting(x.info.model);
    match e
    case Request(IncrWaiting) => Increment(k, 1)
    case Request(CompareAndDecr) =>
      if x.pc.count > c.MaxQueueLength(x.info.model, x.info.mode) then Increment(k, -1) else Nothing
    case Request(EnqueueFails) => Increment(k, -1)
    case Work(Consume) => if x.pc.tokens then Nothing else ConsumeLimits(x.info.model)
    case Succeed(ReleaseSuccess) => DecrementClamped(k)
    case Fail(DecideRefund) =>
      if v.meta.Some? && RefundsOnFailure(v) then ReturnTokens(FailureModel(v).value, c.DayTtl(now)) else Nothing
    case Fail(ReleaseFailed) => if x.pc.model.Some? then DecrementClamped(Waiting(x.pc.model.value)) else Nothing
    case Stale(RefundStale(startedAt)) =>
      if StaleRefunds(x) then ReturnTokens(x.info.model, c.DayTtl(startedAt)) else Nothing
    case Stale(ReleaseStale(startedAt)) => ExpireJob(k, StaleKey(c, now, x), c.DayTtl(startedAt))
    case _ => Nothing
  }

  function Send(c: Config, counters: Counters, now: int, cmd: Command): Counters {
    match cmd
    case Nothing => counters
    case Increment(k, n) => IncrBy(counters, k, n)
    case ConsumeLimits(m) => ConsumeExecutionLimits(counters, now, ConsumeArgsFor(c, m, now))
    case ReturnTokens(m, dayTtl) => ReturnTokensAtomic(counters, now, ReturnArgsFor(m, dayTtl))
    case DecrementClamped(k) => ClampedDecr(counters, k, 1)
    case ExpireJob(k, u, dayTtl) => ReturnOne(ClampedDecr(counters, k, 1), now, Some(u), 1, dayTtl)
  }

  function NextLocks(s: State, j: JobId, v: View, e: JobStep): Locks
    requires EnabledStep(s.now, v, e)
  {
    if e == Succeed(UnlockSuccess) || (e.Stale? && e.stale.ReleaseStale?) then ZRem(s.db.locks, v.job.info.user, j)
    else if e == Fail(UnlockFailed) && v.job.pc.user.Some? then ZRem(s.db.locks, v.job.pc.user.value, j)
    else s.db.locks
  }

  // The user's token goes back to the counter it came from.
  predicate NativeUserToken(c: Config, s: State, x: Job) {
    x.info.day == c.date(s.now) && x.hist.userToken == Held(BookOf(s, StaleKey(c, s.now, x)).life)
  }

  predicate NativeModelToken(s: State, x: Job, m: Model) {
    x.info.model == m && x.hist.token == Held(BookOf(s, ModelRpd(m)).life)
  }

  function GiveBack(b: Book, native: bool): Book {
    if native then b.(returned := b.returned + 1) else b.(foreign := b.foreign + 1)
  }

  // The job loses its token, and no refund goes to the counter it came from.
  predicate Leaks(s: State, v: View, e: JobStep)
    requires EnabledStep(s.now, v, e)
  {
    && NativeModelToken(s, v.job, v.job.info.model)
    && ((e.Work? && e.work.WorkerDies? && v.job.pc.Granted?)
        || (e == Fail(DecideRefund) && v.meta.Some? && RefundsOnFailure(v) && FailureModel(v) != Some(v.job.info.model)))
  }

  // How a command is entered in the ledger of the key it touches.
  function Enter(c: Config, s: State, x: Job, cmd: Command): map<Key, Book> {
    match cmd
    case ConsumeLimits(m) =>
      var b := BookOf(s, ModelRpd(m));
      if CodeFor(c, s, x) == OK then s.books[ModelRpd(m) := b.(granted := b.granted + 1)] else s.books
    case ReturnTokens(m, _) => s.books[ModelRpd(m) := GiveBack(BookOf(s, ModelRpd(m)), NativeModelToken(s, x, m))]
    case ExpireJob(_, k, _) => s.books[k := GiveBack(BookOf(s, k), NativeUserToken(c, s, x))]
    case _ => s.books
  }

  function NextBooks(c: Config, s: State, v: View, e: JobStep): map<Key, Book>
    requires EnabledStep(s.now, v, e)
  {
    var k := ModelRpd(v.job.info.model);
    var b := BookOf(s, k);
    var books := Enter(c, s, v.job, CommandOf(c, s.now, v, e));
    if Leaks(s, v, e) then books[k := b.(leaked := b.leaked + 1)] else books
  }

  // An expired counter starts a new life with an empty ledger.
  function TurnPages(s: State, to: int): map<Key, Book> {
    s.books + map k | k in s.db.counters && !Live(s.db.counters[k], to)
                   :: Book(BookOf(s, k).life + 1, 0, 0, 0, 0)
  }

  function NewJob(c: Config, s: State, e: Event): Job
    requires e.TryAcquire?
  {
    Job(Info(e.user, e.mode, e.model, e.requested, c.date(e.askedAt), e.askedAt), s.now, Selected, Idle, false,
        History(NoToken, if c.userLimit(e.user, e.mode) > 0 then Held(BookOf(s, QuotaKey(c, e)).life) else NoToken,
                0, 0, 0, 0, None, 0, 0, 0, 0))
  }

  predicate Acquires(c: Config, s: State, e: Event)
    requires e.TryAcquire?
  {
    AcquireCode(s.db, AcquireArgsFor(c, e)) == OK
  }

  function AcquireBooks(c: Config, s: State, e: Event): map<Key, Book>
    requires e.TryAcquire?
  {
    var k := QuotaKey(c, e);
    var b := BookOf(s, k);
    if Acquires(c, s, e) && c.userLimit(e.user, e.mode) > 0 then s.books[k := b.(granted := b.granted + 1)] else s.books
  }

  // ---- enabling conditions ---------------------------------------------------------

  predicate EnabledRequest(v: View, e: RequestStep) {
    match e
    case IncrWaiting => v.job.pc.Selected?
    case CompareAndDecr => v.job.pc.Incremented?
    case Enqueue => v.job.pc.Accepted?
    case EnqueueFails => v.job.pc.Accepted?
  }

  predicate EnabledWork(v: View, e: WorkStep) {
    var pc := v.job.pc;
    match e
    case Fetch => InQueue(pc)
    case MarkInProgress => pc.Fetched?
    case Consume => pc.Marked?
    case FlagConsumed => pc.Granted?
    case RequeueStatus => pc.RpmBlocked?
    case MoveToDelayed => pc.RpmRequeued?
    case LimitError => pc.RpdBlocked?
    case CallProvider => pc.Ready?
    case ProviderAnswers => pc.Calling?
    case ProviderFails(_) => pc.Calling?
    case FlagCompleted => pc.Answered?
    // While the hashes are there and the job is still with BullMQ.
    case WorkerDies(_) => Running(pc) || (Succeeding(pc) && v.meta.Some? && !Late(v.job.cron))
  }

  predicate EnabledSuccess(v: View, e: SuccessStep) {
    match e
    case WriteSuccessMeta(_) => v.job.pc.Flagged?
    case WriteSuccessResult(_) => v.job.pc.SuccessMeta?
    case UnlockSuccess => v.job.pc.SuccessResult?
    case ReleaseSuccess => v.job.pc.SuccessUnlocked?
  }

  predicate EnabledFailure(v: View, e: FailureStep) {
    match e
    case FindMissing => v.job.failedEvent && v.meta.Some? && (v.job.pc.Removed? || v.job.pc.RemovedRefunded? || v.job.pc.Expired?)
    case DecideRefund => v.job.pc.FailurePending?
    case WriteFailedResult(_) => v.job.pc.FailureDecided?
    case WriteFailedMeta => v.job.pc.FailureResult?
    case UnlockFailed => v.job.pc.FailureMeta?
    case ReleaseFailed => v.job.pc.FailureUnlocked?
  }

  predicate EnabledStale(now: int, v: View, e: StaleStep) {
    match e
    case ListStale => InQueue(v.job.pc) && v.job.cron.Idle? && now - v.job.queuedAt > EXPIRE_SLA_MS
    case ReadStale => v.job.cron.Listed?
    case SkipStale => v.job.cron.Listed? || v.job.cron.Read?
    case RemoveStale => v.job.cron.Read? && (InQueue(v.job.pc) || LeftQueue(v.job.pc))
    case RefundStale(startedAt) => (v.job.pc.Removed? || v.job.cron.LateRemoved?) && startedAt <= now
    case ReleaseStale(startedAt) => (v.job.pc.RemovedRefunded? || v.job.cron.LateRefunded?) && startedAt <= now
  }

  // Job keys live for 24 hours after their last write and for 5 minutes after a sync: they
  // go once the job has finished and its row was written. SyncMissing is a result key that
  // vanished between the scan and the read while its meta was still there.
  predicate EnabledSync(v: View, e: SyncStep) {
    match e
    case SyncRow => v.meta.Some? && v.result.Some? && v.result.value.syncedAt.None?
    case SyncMissing => Finished(v.job.pc) && v.meta.Some? && v.result.None?
    case DropMeta => Finished(v.job.pc) && v.row.Some?
    case DropResult => Finished(v.job.pc) && v.row.Some?
  }

  predicate EnabledStep(now: int, v: View, e: JobStep) {
    match e
    case Request(r) => EnabledRequest(v, r)
    case Work(w) => EnabledWork(v, w)
    case Succeed(w) => EnabledSuccess(v, w)
    case Fail(f) => EnabledFailure(v, f)
    case Stale(t) => EnabledStale(now, v, t)
    case Sync(y) => EnabledSync(v, y)
  }

  function NextView(c: Config, s: State, v: View, e: JobStep): View
    requires EnabledStep(s.now, v, e)
  {
    var info := v.job.info;
    match e
    case Request(r) =>
      RequestView(s.now, Val(s.db.counters, Waiting(info.model)) + 1, c.MaxQueueLength(info.model, info.mode), v, r)
    case Work(w) => WorkView(s.now, CodeFor(c, s, v.job), BookOf(s, ModelRpd(info.model)).life, v, w)
    case Succeed(w) => SuccessView(s.now, v, w)
    case Fail(f) => FailureView(s.now, v, f)
    case Stale(t) => StaleView(s.now, NativeUserToken(c, s, v.job), v, t)
    case Sync(y) => SyncView(s.now, v, y)
  }

  predicate Enabled(s: State, e: Event) {
    match e
    case Tick(to) => s.now <= to
    case CleanLocks(_, upTo) => upTo <= s.now
    case TryAcquire(j, _, _, _, _, askedAt) => j !in s.jobs && askedAt <= s.now
    case OfJob(j, step) => j in s.jobs && EnabledStep(s.now, ViewOf(s, j), step)
  }

  function AfterTick(s: State, to: int): State {
    State(s.db.(counters := Purge(s.db.counters, to)), to, s.jobs, TurnPages(s, to), s.rows)
  }

  function AfterClean(s: State, u: User, upTo: int): State {
    State(s.db.(locks := ZRemRangeByScore(s.db.locks, u, upTo)), s.now, s.jobs, s.books, s.rows)
  }

  function AfterAcquire(c: Config, s: State, e: Event): State
    requires e.TryAcquire?
  {
    State(CombinedCheckAndAcquire(s.db, s.now, AcquireArgsFor(c, e)), s.now,
          if Acquires(c, s, e) then s.jobs[e.j := NewJob(c, s, e)] else s.jobs,
          AcquireBooks(c, s, e), s.rows)
  }

  function AfterStep(c: Config, s: State, j: JobId, e: JobStep): State
    requires Enabled(s, OfJob(j, e))
  {
    var v := ViewOf(s, j);
    var v' := NextView(c, s, v, e);
    State(
      Db(Send(c, s.db.counters, s.now, CommandOf(c, s.now, v, e)), NextLocks(s, j, v, e),
         Put(s.db.metas, j, v'.meta), Put(s.db.results, j, v'.result)),
      s.now, s.jobs[j := v'.job], NextBooks(c, s, v, e), Put(s.rows, j, v'.row))
  }

  function Apply(c: Config, s: State, e: Event): State
    requires Enabled(s, e)
  {
    match e
    case Tick(to) => AfterTick(s, to)
    case CleanLocks(u, upTo) => AfterClean(s, u, upTo)
    case TryAcquire(_, _, _, _, _, _) => AfterAcquire(c, s, e)
    case OfJob(j, step) => AfterStep(c, s, j, step)
  }

  // ---- runs ------------------------------------------------------------------------

  // es[i] is an event of ss[i] and leads to ss[i + 1].
  ghost predicate StepAt(c: Config, ss: seq<State>, es: seq<Event>, i: nat)
    requires i < |es| < |ss|
  {
    Enabled(ss[i], es[i]) && ss[i + 1] == Apply(c, ss[i], es[i])
  }

  // ss[0], ss[1], ... are the states of a run.
  ghost predicate Run(c: Config, ss: seq<State>, es: seq<Event>) {
    && |ss| == |es| + 1
    && Init(ss[0])
    && forall i: nat {:trigger StepAt(c, ss, es, i)} :: i < |es| ==> StepAt(c, ss, es, i)
  }
}
