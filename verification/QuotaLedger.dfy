/** The daily counters agree with their ledgers: since a counter's key last expired, its value
    is the tokens granted minus the tokens given back, short by at most the refunds of tokens
    that were granted in an earlier life of the key (or never). */
module QuotaLedger {
  import opened Redis
  import opened Counting
  import opened Lifecycle
  import opened JobInvariant

  // `held` jobs still hold a token of this life of the key, and the counter reads `n`.
  ghost predicate Balanced(b: Book, held: nat, n: int) {
    && b.granted == held + b.returned + b.leaked
    && 0 <= n
    && b.granted - b.returned - b.foreign <= n <= b.granted - b.returned
  }

  // What one step writes into the ledger.
  datatype Entry = NoEntry | Grant | NativeReturn | ForeignReturn | Leak

  function Write(b: Book, entry: Entry): Book {
    match entry
    case NoEntry => b
    case Grant => b.(granted := b.granted + 1)
    case NativeReturn => GiveBack(b, true)
    case ForeignReturn => GiveBack(b, false)
    case Leak => b.(leaked := b.leaked + 1)
  }

  function Clamp(n: int): int { if n < 0 then 0 else n }

  function NewValue(n: int, entry: Entry): int {
    match entry
    case Grant => n + 1
    case NativeReturn => Clamp(n - 1)
    case ForeignReturn => Clamp(n - 1)
    case _ => n
  }

  function HeldChange(entry: Entry): int {
    match entry
    case Grant => 1
    case NativeReturn => -1
    case Leak => -1
    case _ => 0
  }

  // The two kinds of daily quota: model:{model}:rpd and user:{user}:rpd:{mode}:{date}.
  datatype Quota = ModelQuota(model: Model) | UserQuota(user: User, mode: Mode, date: int)

  function KeyOf(q: Quota): Key {
    match q
    case ModelQuota(m) => ModelRpd(m)
    case UserQuota(u, mode, date) => UserRpd(u, mode, date)
  }

  function LimitOf(c: Config, q: Quota): nat {
    match q
    case ModelQuota(m) => c.rpd(m)
    case UserQuota(u, mode, _) => c.userLimit(u, mode)
  }

  ghost predicate Holds(q: Quota, life: nat, x: Job) {
    match q
    case ModelQuota(m) => x.info.model == m && x.hist.token == Held(life)
    case UserQuota(u, mode, date) =>
      x.info.user == u && x.info.mode == mode && x.info.day == date && x.hist.userToken == Held(life)
  }

  ghost function Holder(q: Quota, life: nat): Job -> bool {
    (x: Job) => Holds(q, life, x)
  }

  ghost predicate Balance(c: Config, counters: Counters, books: map<Key, Book>, jobs: map<JobId, Job>, q: Quota) {
    var b := BookIn(books, KeyOf(q));
    var n := Val(counters, KeyOf(q));
    Balanced(b, Count(jobs, Holder(q, b.life)), n) && (LimitOf(c, q) > 0 ==> n <= LimitOf(c, q))
  }

  ghost predicate LedgersOk(c: Config, s: State) {
    forall q: Quota :: Balance(c, s.db.counters, s.books, s.jobs, q)
  }

  // The job moves from `jobs`, where it may be missing, to y.
  ghost predicate MovesToken(jobs: map<JobId, Job>, j: JobId, y: Job, q: Quota, life: nat, entry: Entry) {
    Ind(Holds(q, life, y)) == Ind(j in jobs && Holds(q, life, jobs[j])) + HeldChange(entry)
  }

  lemma HeldMoves(jobs: map<JobId, Job>, j: JobId, y: Job, q: Quota, life: nat, entry: Entry)
    requires MovesToken(jobs, j, y, q, life, entry)
    ensures Count(jobs[j := y], Holder(q, life)) == Count(jobs, Holder(q, life)) + HeldChange(entry)
  {
    CountUpdate(jobs, j, y, Holder(q, life));
  }

  lemma WriteKeepsBalanced(b: Book, held: nat, n: int, held': nat, entry: Entry)
    requires Balanced(b, held, n) && held' == held + HeldChange(entry)
    ensures Balanced(Write(b, entry), held', NewValue(n, entry)) && Write(b, entry).life == b.life
  {}

  lemma ValueStaysWithin(n: int, entry: Entry, limit: nat)
    requires 0 <= n && (limit > 0 ==> n <= limit) && (entry == Grant && limit > 0 ==> NewValue(n, entry) <= limit)
    ensures limit > 0 ==> NewValue(n, entry) <= limit
  {}

  // Counter, ledger and job follow the same entry.
  lemma EntryKeepsBalance(c: Config, counters: Counters, books: map<Key, Book>, jobs: map<JobId, Job>, q: Quota,
                          j: JobId, y: Job, counters': Counters, books': map<Key, Book>, entry: Entry)
    requires Balance(c, counters, books, jobs, q)
    requires MovesToken(jobs, j, y, q, BookIn(books, KeyOf(q)).life, entry)
    requires BookIn(books', KeyOf(q)) == Write(BookIn(books, KeyOf(q)), entry)
    requires Val(counters', KeyOf(q)) == NewValue(Val(counters, KeyOf(q)), entry)
    requires entry == Grant && LimitOf(c, q) > 0 ==> Val(counters', KeyOf(q)) <= LimitOf(c, q)
    ensures Balance(c, counters', books', jobs[j := y], q)
  {
    var b, n := BookIn(books, KeyOf(q)), Val(counters, KeyOf(q));
    HeldMoves(jobs, j, y, q, b.life, entry);
    ghost var held := Count(jobs, Holder(q, b.life));
    ghost var held' := Count(jobs[j := y], Holder(q, b.life));
    WriteKeepsBalanced(b, held, n, held', entry);
    ValueStaysWithin(n, entry, LimitOf(c, q));
  }

  function EntryOf(c: Config, s: State, v: View, e: JobStep, q: Quota): Entry
    requires EnabledStep(s.now, v, e)
  {
    var cmd := CommandOf(c, s.now, v, e);
    match q
    case ModelQuota(m) =>
      if m == v.job.info.model && Leaks(s, v, e) then Leak
      else if cmd == ConsumeLimits(m) && CodeFor(c, s, v.job) == OK then Grant
      else if cmd.ReturnTokens? && cmd.model == m then
        if NativeModelToken(s, v.job, m) then NativeReturn else ForeignReturn
      else NoEntry
    case UserQuota(_, _, _) =>
      if cmd.ExpireJob? && cmd.userRpd == KeyOf(q) then
        if NativeUserToken(c, s, v.job) then NativeReturn else ForeignReturn
      else NoEntry
  }

  // ---- steps of a job --------------------------------------------------------------

  // Model tokens are taken from the counter of the job's own model only.
  ghost predicate OwnKeys(c: Config, now: int, x: Job, cmd: Command) {
    && (cmd.ConsumeLimits? ==> cmd.model == x.info.model)
    && (cmd.Increment? || cmd.DecrementClamped? ==> cmd.k.Waiting?)
    && (cmd.ExpireJob? ==> cmd.waiting.Waiting? && cmd.userRpd == StaleKey(c, now, x))
  }

  lemma CommandNamesOwnKeys(c: Config, s: State, v: View, e: JobStep)
    requires JobOk(v) && EnabledStep(s.now, v, e)
    ensures OwnKeys(c, s.now, v.job, CommandOf(c, s.now, v, e))
  {}

  // The token that a step leaves with its job, under one key.
  ghost predicate EntryMovesJob(c: Config, s: State, v: View, e: JobStep, q: Quota)
    requires EnabledStep(s.now, v, e)
  {
    var life := BookOf(s, KeyOf(q)).life;
    Ind(Holds(q, life, NextView(c, s, v, e).job)) == Ind(Holds(q, life, v.job)) + HeldChange(EntryOf(c, s, v, e, q))
  }

  lemma QuietStepKeepsToken(c: Config, s: State, v: View, e: JobStep)
    requires JobOk(v) && EnabledStep(s.now, v, e)
    requires !e.Work? && !CommandOf(c, s.now, v, e).ReturnTokens?
    ensures NextView(c, s, v, e).job.hist.token == v.job.hist.token
    ensures NextView(c, s, v, e).job.info == v.job.info
  {}

  lemma QuietMovesJob(c: Config, s: State, v: View, e: JobStep, q: Quota)
    requires JobOk(v) && EnabledStep(s.now, v, e) && q.ModelQuota?
    requires !e.Work? && !CommandOf(c, s.now, v, e).ReturnTokens?
    ensures EntryMovesJob(c, s, v, e, q)
  {
    QuietStepKeepsToken(c, s, v, e);
  }

  lemma RefundMovesJob(c: Config, s: State, v: View, e: JobStep, q: Quota)
    requires JobOk(v) && EnabledStep(s.now, v, e) && q.ModelQuota?
    requires !e.Work? && CommandOf(c, s.now, v, e).ReturnTokens?
    ensures EntryMovesJob(c, s, v, e, q)
  {}

  lemma WorkMovesJob(c: Config, s: State, v: View, e: WorkStep, q: Quota)
    requires JobOk(v) && EnabledWork(v, e) && q.ModelQuota?
    ensures EntryMovesJob(c, s, v, Work(e), q)
  {}

  lemma ModelEntryMovesJob(c: Config, s: State, v: View, e: JobStep, q: Quota)
    requires JobOk(v) && EnabledStep(s.now, v, e) && q.ModelQuota?
    ensures EntryMovesJob(c, s, v, e, q)
  {
    if e.Work? {
      WorkMovesJob(c, s, v, e.work, q);
    } else if CommandOf(c, s.now, v, e).ReturnTokens? {
      RefundMovesJob(c, s, v, e, q);
    } else {
      QuietMovesJob(c, s, v, e, q);
    }
  }

  lemma WorkKeepsUserToken(now: int, code: int, life: nat, v: View, e: WorkStep)
    requires EnabledWork(v, e)
    ensures WorkView(now, code, life, v, e).job.hist.userToken == v.job.hist.userToken
  {}

  lemma UserTokenMoves(c: Config, s: State, v: View, e: JobStep)
    requires EnabledStep(s.now, v, e)
    ensures NextView(c, s, v, e).job.hist.userToken
         == if CommandOf(c, s.now, v, e).ExpireJob? && NativeUserToken(c, s, v.job) then Returned else v.job.hist.userToken
  {
    if e.Work? {
      WorkKeepsUserToken(s.now, CodeFor(c, s, v.job), BookOf(s, ModelRpd(v.job.info.model)).life, v, e.work);
    }
  }

  lemma UserEntryMovesJob(c: Config, s: State, v: View, e: JobStep, q: Quota)
    requires JobOk(v) && EnabledStep(s.now, v, e) && LifeOk(v.job, s.now, s.books) && q.UserQuota?
    ensures EntryMovesJob(c, s, v, e, q)
  {
    StepKeepsLife(c, s, v, e);
    CommandNamesOwnKeys(c, s, v, e);
    UserTokenMoves(c, s, v, e);
  }

  lemma EntryIsBooked(c: Config, s: State, v: View, e: JobStep, q: Quota)
    requires JobOk(v) && EnabledStep(s.now, v, e)
    ensures BookIn(NextBooks(c, s, v, e), KeyOf(q)) == Write(BookOf(s, KeyOf(q)), EntryOf(c, s, v, e, q))
  {
    CommandNamesOwnKeys(c, s, v, e);
  }

  // The scripts grant only below the limit and give back no lower than zero.
  lemma SendMovesCounter(c: Config, s: State, x: Job, cmd: Command, q: Quota)
    requires OwnKeys(c, s.now, x, cmd)
    ensures var n := Val(s.db.counters, KeyOf(q));
            var n' := Val(Send(c, s.db.counters, s.now, cmd), KeyOf(q));
            if q == ModelQuota(x.info.model) && cmd.ConsumeLimits? && CodeFor(c, s, x) == OK
            then n' == n + 1 && (LimitOf(c, q) > 0 ==> n' <= LimitOf(c, q))
            else if (cmd.ReturnTokens? && q == ModelQuota(cmd.model)) || (cmd.ExpireJob? && cmd.userRpd == KeyOf(q))
            then n' == Clamp(n - 1)
            else n' == n
  {}

  lemma EntryMovesCounter(c: Config, s: State, v: View, e: JobStep, q: Quota)
    requires JobOk(v) && EnabledStep(s.now, v, e)
    ensures var n' := Val(Send(c, s.db.counters, s.now, CommandOf(c, s.now, v, e)), KeyOf(q));
            && n' == NewValue(Val(s.db.counters, KeyOf(q)), EntryOf(c, s, v, e, q))
            && (EntryOf(c, s, v, e, q) == Grant && LimitOf(c, q) > 0 ==> n' <= LimitOf(c, q))
  {
    CommandNamesOwnKeys(c, s, v, e);
    SendMovesCounter(c, s, v.job, CommandOf(c, s.now, v, e), q);
  }

  lemma JobStepKeepsBalance(c: Config, s: State, j: JobId, e: JobStep, q: Quota)
    requires Local(s) && LedgersOk(c, s) && Enabled(s, OfJob(j, e))
    ensures var v := ViewOf(s, j);
            Balance(c, Send(c, s.db.counters, s.now, CommandOf(c, s.now, v, e)), NextBooks(c, s, v, e),
                    s.jobs[j := NextView(c, s, v, e).job], q)
  {
    var v := ViewOf(s, j);
    if q.ModelQuota? {
      ModelEntryMovesJob(c, s, v, e, q);
    } else {
      UserEntryMovesJob(c, s, v, e, q);
    }
    EntryIsBooked(c, s, v, e, q);
    EntryMovesCounter(c, s, v, e, q);
    EntryKeepsBalance(c, s.db.counters, s.books, s.jobs, q, j, NextView(c, s, v, e).job,
                      Send(c, s.db.counters, s.now, CommandOf(c, s.now, v, e)), NextBooks(c, s, v, e),
                      EntryOf(c, s, v, e, q));
  }

  lemma JobStepKeepsLedgers(c: Config, s: State, j: JobId, e: JobStep)
    requires Local(s) && LedgersOk(c, s) && Enabled(s, OfJob(j, e))
    ensures LedgersOk(c, AfterStep(c, s, j, e))
  {
    var s' := AfterStep(c, s, j, e);
    forall q: Quota ensures Balance(c, s'.db.counters, s'.books, s'.jobs, q) {
      JobStepKeepsBalance(c, s, j, e, q);
    }
  }

  // ---- the other events ------------------------------------------------------------

  function AcquireEntry(c: Config, s: State, e: Event, q: Quota): Entry
    requires e.TryAcquire?
  {
    if Acquires(c, s, e) && c.userLimit(e.user, e.mode) > 0 && KeyOf(q) == QuotaKey(c, e) then Grant else NoEntry
  }

  lemma AcquireMovesCounter(c: Config, s: State, e: Event, q: Quota)
    requires e.TryAcquire?
    ensures var n' := Val(AfterAcquire(c, s, e).db.counters, KeyOf(q));
            && n' == NewValue(Val(s.db.counters, KeyOf(q)), AcquireEntry(c, s, e, q))
            && (AcquireEntry(c, s, e, q) == Grant ==> n' <= LimitOf(c, q))
  {}

  lemma AcquireIsBooked(c: Config, s: State, e: Event, q: Quota)
    requires e.TryAcquire?
    ensures BookIn(AcquireBooks(c, s, e), KeyOf(q)) == Write(BookOf(s, KeyOf(q)), AcquireEntry(c, s, e, q))
  {}

  lemma NewJobMovesToken(c: Config, s: State, e: Event, q: Quota)
    requires e.TryAcquire? && e.j !in s.jobs && Acquires(c, s, e)
    ensures MovesToken(s.jobs, e.j, NewJob(c, s, e), q, BookOf(s, KeyOf(q)).life, AcquireEntry(c, s, e, q))
  {}

  lemma AcquireKeepsBalance(c: Config, s: State, e: Event, q: Quota)
    requires LedgersOk(c, s) && Enabled(s, e) && e.TryAcquire?
    ensures var s' := AfterAcquire(c, s, e);
            Balance(c, s'.db.counters, s'.books, s'.jobs, q)
  {
    var s' := AfterAcquire(c, s, e);
    AcquireMovesCounter(c, s, e, q);
    AcquireIsBooked(c, s, e, q);
    if Acquires(c, s, e) {
      NewJobMovesToken(c, s, e, q);
      EntryKeepsBalance(c, s.db.counters, s.books, s.jobs, q, e.j, NewJob(c, s, e),
                        s'.db.counters, s'.books, AcquireEntry(c, s, e, q));
    }
  }

  // When a counter expires, no job holds a token of its new life yet.
  lemma ExpiryKeepsBalance(c: Config, s: State, to: int, q: Quota)
    requires Local(s) && KeyOf(q) in s.db.counters && !Live(s.db.counters[KeyOf(q)], to)
    ensures Balance(c, Purge(s.db.counters, to), TurnPages(s, to), s.jobs, q)
  {}

  lemma TickKeepsBalance(c: Config, s: State, to: int, q: Quota)
    requires Local(s) && Balance(c, s.db.counters, s.books, s.jobs, q)
    ensures Balance(c, Purge(s.db.counters, to), TurnPages(s, to), s.jobs, q)
  {
    var k := KeyOf(q);
    if k in s.db.counters && !Live(s.db.counters[k], to) {
      ExpiryKeepsBalance(c, s, to, q);
    } else {
      assert BookIn(TurnPages(s, to), k) == BookOf(s, k);
      assert Val(Purge(s.db.counters, to), k) == Val(s.db.counters, k);
    }
  }

  lemma StepKeepsLedgers(c: Config, s: State, e: Event)
    requires Local(s) && LedgersOk(c, s) && Enabled(s, e)
    ensures LedgersOk(c, Apply(c, s, e))
  {
    match e
    case OfJob(j, step) => JobStepKeepsLedgers(c, s, j, step);
    case TryAcquire(_, _, _, _, _, _) =>
      forall q: Quota
        ensures var s' := AfterAcquire(c, s, e); Balance(c, s'.db.counters, s'.books, s'.jobs, q)
      {
        AcquireKeepsBalance(c, s, e, q);
      }
    case Tick(to) =>
      forall q: Quota ensures Balance(c, Purge(s.db.counters, to), TurnPages(s, to), s.jobs, q) {
        TickKeepsBalance(c, s, to, q);
      }
    case CleanLocks(_, _) =>
  }
}
