/** The concurrency slots of a user: a sorted set of job ids scored by the instant at which
    the slot lapses. A user with limit L > 0 never holds more than L slots, and every young
    job without an outcome still holds its own, whatever acquisitions, completions, failures,
    expiries and cleanups happen in between. */
module Concurrency {
  import opened Redis
  import opened Counting
  import opened Lifecycle
  import opened JobInvariant

  const LOCK_TTL_MS := LOCK_TTL * 1000

  ghost predicate SlotsWithin(c: Config, l: Locks) {
    forall u: User :: c.concurrency(u) > 0 ==> |LocksOf(l, u)| <= c.concurrency(u)
  }

  ghost predicate HoldsLock(l: Locks, j: JobId, info: Info) {
    j in LocksOf(l, info.user) && LocksOf(l, info.user)[j] == info.askedAt + LOCK_TTL_MS
  }

  // Admitted within the last LOCK_TTL seconds and without a result.
  ghost predicate Young(x: Job, now: int) {
    x.hist.outcome.None? && now < x.info.askedAt + LOCK_TTL_MS
  }

  ghost predicate YoungHold(c: Config, jobs: map<JobId, Job>, l: Locks, now: int) {
    forall j :: j in jobs && c.concurrency(jobs[j].info.user) > 0 && Young(jobs[j], now)
            ==> HoldsLock(l, j, jobs[j].info)
  }

  ghost predicate LocksOk(c: Config, s: State) {
    SlotsWithin(c, s.db.locks) && YoungHold(c, s.jobs, s.db.locks, s.now)
  }

  lemma AboveShrinks(z: Scores, upTo: int)
    ensures |Above(z, upTo)| <= |z|
  {
    SubsetSize(Above(z, upTo).Keys, z.Keys);
  }

  lemma ZRemKeepsSlots(c: Config, l: Locks, u: User, j: JobId)
    requires SlotsWithin(c, l)
    ensures SlotsWithin(c, ZRem(l, u, j))
  {}

  lemma CleanKeepsSlots(c: Config, l: Locks, u: User, upTo: int)
    requires SlotsWithin(c, l)
    ensures SlotsWithin(c, ZRemRangeByScore(l, u, upTo))
  {
    AboveShrinks(LocksOf(l, u), upTo);
  }

  // A job's own unlock comes after its outcome.
  lemma UnlockedHasOutcome(c: Config, s: State, j: JobId, v: View, e: JobStep)
    requires JobOk(v) && EnabledStep(s.now, v, e)
    ensures NextLocks(s, j, v, e) == s.db.locks || NextView(c, s, v, e).job.hist.outcome.Some?
    ensures v.job.hist.outcome.Some? ==> NextView(c, s, v, e).job.hist.outcome.Some?
  {}

  lemma NextLocksShape(s: State, j: JobId, v: View, e: JobStep) returns (u: User)
    requires EnabledStep(s.now, v, e)
    ensures NextLocks(s, j, v, e) == s.db.locks || NextLocks(s, j, v, e) == ZRem(s.db.locks, u, j)
  {
    u := if e == Fail(UnlockFailed) && v.job.pc.user.Some? then v.job.pc.user.value else v.job.info.user;
  }

  lemma MoveKeepsYoung(c: Config, jobs: map<JobId, Job>, l: Locks, now: int, j: JobId, y: Job, u: User, l': Locks)
    requires YoungHold(c, jobs, l, now)
    requires j in jobs && y.info == jobs[j].info
    requires jobs[j].hist.outcome.Some? ==> y.hist.outcome.Some?
    requires l' == l || (l' == ZRem(l, u, j) && y.hist.outcome.Some?)
    ensures YoungHold(c, jobs[j := y], l', now)
  {}

  lemma JobStepKeepsLocks(c: Config, s: State, j: JobId, e: JobStep)
    requires Local(s) && LocksOk(c, s) && Enabled(s, OfJob(j, e))
    ensures LocksOk(c, AfterStep(c, s, j, e))
  {
    var v := ViewOf(s, j);
    StepKeepsLife(c, s, v, e);
    UnlockedHasOutcome(c, s, j, v, e);
    var u := NextLocksShape(s, j, v, e);
    ZRemKeepsSlots(c, s.db.locks, u, j);
    MoveKeepsYoung(c, s.jobs, s.db.locks, s.now, j, NextView(c, s, v, e).job, u, NextLocks(s, j, v, e));
  }

  lemma CleanKeepsYoung(c: Config, jobs: map<JobId, Job>, l: Locks, now: int, u: User, upTo: int)
    requires YoungHold(c, jobs, l, now) && upTo <= now
    ensures YoungHold(c, jobs, ZRemRangeByScore(l, u, upTo), now)
  {}

  // What the script does to the user's slots, and the job it lets in.
  lemma AcquireAddsSlot(c: Config, s: State, e: Event)
    requires e.TryAcquire?
    ensures var cleaned := ZRemRangeByScore(s.db.locks, e.user, e.askedAt);
            var l := AfterAcquire(c, s, e).db.locks;
            if Acquires(c, s, e) && c.concurrency(e.user) > 0
            then |LocksOf(cleaned, e.user)| < c.concurrency(e.user)
                 && l == ZAdd(cleaned, e.user, e.askedAt + LOCK_TTL_MS, e.j)
            else l == cleaned
  {}

  lemma AddedKeepsLocks(c: Config, l: Locks, jobs: map<JobId, Job>, now: int, j: JobId, y: Job)
    requires SlotsWithin(c, l) && YoungHold(c, jobs, l, now) && j !in jobs
    requires c.concurrency(y.info.user) > 0 ==> |LocksOf(l, y.info.user)| < c.concurrency(y.info.user)
    ensures var l' := if c.concurrency(y.info.user) > 0
                      then ZAdd(l, y.info.user, y.info.askedAt + LOCK_TTL_MS, j) else l;
            SlotsWithin(c, l') && YoungHold(c, jobs[j := y], l', now)
  {}

  lemma CleanThenAdd(c: Config, jobs: map<JobId, Job>, l: Locks, now: int, j: JobId, y: Job)
    requires SlotsWithin(c, l) && YoungHold(c, jobs, l, now) && j !in jobs && y.info.askedAt <= now
    ensures var cleaned := ZRemRangeByScore(l, y.info.user, y.info.askedAt);
            && SlotsWithin(c, cleaned) && YoungHold(c, jobs, cleaned, now)
            && (c.concurrency(y.info.user) == 0 ==> YoungHold(c, jobs[j := y], cleaned, now))
            && (|LocksOf(cleaned, y.info.user)| < c.concurrency(y.info.user) ==>
                  var l' := ZAdd(cleaned, y.info.user, y.info.askedAt + LOCK_TTL_MS, j);
                  SlotsWithin(c, l') && YoungHold(c, jobs[j := y], l', now))
  {
    var cleaned := ZRemRangeByScore(l, y.info.user, y.info.askedAt);
    CleanKeepsSlots(c, l, y.info.user, y.info.askedAt);
    CleanKeepsYoung(c, jobs, l, now, y.info.user, y.info.askedAt);
    if |LocksOf(cleaned, y.info.user)| < c.concurrency(y.info.user) || c.concurrency(y.info.user) == 0 {
      AddedKeepsLocks(c, cleaned, jobs, now, j, y);
    }
  }

  // The gate of the script leaves room for the slot it adds.
  lemma AcquireKeepsLocks(c: Config, s: State, e: Event)
    requires LocksOk(c, s) && Enabled(s, e) && e.TryAcquire?
    ensures LocksOk(c, AfterAcquire(c, s, e))
  {
    var y := NewJob(c, s, e);
    AcquireAddsSlot(c, s, e);
    CleanThenAdd(c, s.jobs, s.db.locks, s.now, e.j, y);
    LetIn(c, s.jobs, ZRemRangeByScore(s.db.locks, e.user, e.askedAt), s.now, e.j, y, Acquires(c, s, e),
          AfterAcquire(c, s, e).db.locks);
  }

  lemma LetIn(c: Config, jobs: map<JobId, Job>, cleaned: Locks, now: int, j: JobId, y: Job, acquired: bool, l: Locks)
    requires SlotsWithin(c, cleaned) && YoungHold(c, jobs, cleaned, now)
    requires c.concurrency(y.info.user) == 0 ==> YoungHold(c, jobs[j := y], cleaned, now)
    requires acquired && c.concurrency(y.info.user) > 0 ==>
      var l' := ZAdd(cleaned, y.info.user, y.info.askedAt + LOCK_TTL_MS, j);
      l == l' && SlotsWithin(c, l') && YoungHold(c, jobs[j := y], l', now)
    requires !(acquired && c.concurrency(y.info.user) > 0) ==> l == cleaned
    ensures SlotsWithin(c, l) && YoungHold(c, if acquired then jobs[j := y] else jobs, l, now)
  {}

  lemma StepKeepsLocks(c: Config, s: State, e: Event)
    requires Local(s) && LocksOk(c, s) && Enabled(s, e)
    ensures LocksOk(c, Apply(c, s, e))
  {
    match e
    case OfJob(j, step) => JobStepKeepsLocks(c, s, j, step);
    case TryAcquire(_, _, _, _, _, _) => AcquireKeepsLocks(c, s, e);
    case Tick(_) =>
    case CleanLocks(u, upTo) =>
      CleanKeepsSlots(c, s.db.locks, u, upTo);
      CleanKeepsYoung(c, s.jobs, s.db.locks, s.now, u, upTo);
  }

  ghost function YoungJobs(s: State, u: User): set<JobId> {
    set j | j in s.jobs && s.jobs[j].info.user == u && Young(s.jobs[j], s.now)
  }

  lemma YoungAtMostLimit(c: Config, s: State, u: User)
    requires LocksOk(c, s) && c.concurrency(u) > 0
    ensures YoungJobs(s, u) <= LocksOf(s.db.locks, u).Keys
    ensures |YoungJobs(s, u)| <= c.concurrency(u)
  {
    SubsetSize(YoungJobs(s, u), LocksOf(s.db.locks, u).Keys);
  }
}
