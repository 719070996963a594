/** The part of Redis that the service uses, as values: counters with a deadline, one lock
    set per user, and the meta and result hashes of jobs. Each Lua script is one function on
    a `Db`; `Store.dfy` proves the step-by-step scripts equal to these functions.

    Times are integers in milliseconds, as in `Date.now()`. EXPIRE takes seconds. A key whose
    deadline has passed is removed by `Purge`, which every clock step applies. */
module Redis {

  datatype Option<+T> = None | Some(value: T)

  // Job ids, users and models are only ever compared, so a number stands for each name.
  type JobId = nat
  type User = nat
  type Model = nat

  datatype Mode = Hard | Lite

  datatype Status = Queued | InProgress | Completed | Failed | Unknown

  datatype Key =
    | ModelRpm(model: Model)
    | ModelRpd(model: Model)
    | UserRpd(user: User, mode: Mode, date: int)
    | Waiting(model: Model)

  datatype Cell = Cell(value: int, deadline: Option<int>)

  type Counters = map<Key, Cell>
  type Scores = map<JobId, int>
  type Locks = map<User, Scores>

  // A hash holds the fields that have been set; an absent or empty string is `None`.
  datatype Meta = Meta(
    user: Option<User>, requested: Option<Model>, processed: Option<Model>,
    status: Option<Status>, tokensConsumed: bool, providerCompleted: bool,
    createdAt: Option<int>, updatedAt: Option<int>)

  datatype Result = Result(
    status: Option<Status>, data: Option<string>, error: Option<string>, errorCode: Option<string>,
    usedModel: Option<Model>, finishedAt: Option<int>, expiredAt: Option<int>, syncedAt: Option<int>)

  const EMPTY_META := Meta(None, None, None, None, false, false, None, None)
  const EMPTY_RESULT := Result(None, None, None, None, None, None, None, None)

  datatype Db = Db(counters: Counters, locks: Locks, metas: map<JobId, Meta>, results: map<JobId, Result>)

  const EMPTY_DB := Db(map[], map[], map[], map[])

  function Lookup<K(==), V>(m: map<K, V>, k: K): Option<V> {
    if k in m then Some(m[k]) else None
  }

  // ---- single commands -------------------------------------------------------------

  function Val(c: Counters, k: Key): int {
    if k in c then c[k].value else 0
  }

  function IncrBy(c: Counters, k: Key, n: int): Counters {
    c[k := Cell(Val(c, k) + n, if k in c then c[k].deadline else None)]
  }

  function SetVal(c: Counters, k: Key, v: int): Counters {
    c[k := Cell(v, None)]
  }

  function Expire(c: Counters, k: Key, now: int, ttl: int): Counters {
    if k !in c then c
    else if ttl <= 0 then c - {k}
    else c[k := c[k].(deadline := Some(now + ttl * 1000))]
  }

  predicate Live(cell: Cell, now: int) {
    cell.deadline.None? || now < cell.deadline.value
  }

  function Purge(c: Counters, now: int): Counters {
    map k | k in c && Live(c[k], now) :: c[k]
  }

  function LocksOf(l: Locks, u: User): Scores {
    if u in l then l[u] else map[]
  }

  function Above(z: Scores, upTo: int): Scores {
    map j | j in z && upTo < z[j] :: z[j]
  }

  function ZRemRangeByScore(l: Locks, u: User, upTo: int): Locks {
    l[u := Above(LocksOf(l, u), upTo)]
  }

  function ZAdd(l: Locks, u: User, score: int, j: JobId): Locks {
    l[u := LocksOf(l, u)[j := score]]
  }

  function ZRem(l: Locks, u: User, j: JobId): Locks {
    l[u := LocksOf(l, u) - {j}]
  }

  function MetaOf(db: Db, j: JobId): Meta {
    if j in db.metas then db.metas[j] else EMPTY_META
  }

  function ResultOf(db: Db, j: JobId): Result {
    if j in db.results then db.results[j] else EMPTY_RESULT
  }

  // ---- Lua scripts -----------------------------------------------------------------

  const OK := 1
  const CONCURRENCY_EXCEEDED := 0
  const RPM_EXCEEDED := -1
  const RPD_EXCEEDED := -2
  const USER_RPD_EXCEEDED := -4

  function ClampedDecr(c: Counters, k: Key, n: int): Counters {
    SetVal(c, k, if Val(c, k) - n < 0 then 0 else Val(c, k) - n)
  }

  datatype AcquireArgs = AcquireArgs(
    user: User, userKey: Key, modelKey: Key, job: JobId,
    userDayLimit: int, concurrencyLimit: int, modelDayLimit: int,
    dayTtl: int, lockTtl: int, modelDayTtl: int, consume: int, nowMs: int)

  function AcquireCode(db: Db, a: AcquireArgs): int {
    var locks := Above(LocksOf(db.locks, a.user), a.nowMs);
    if a.concurrencyLimit > 0 && |locks| >= a.concurrencyLimit then CONCURRENCY_EXCEEDED
    else if a.userDayLimit > 0 && Val(db.counters, a.userKey) + a.consume > a.userDayLimit then USER_RPD_EXCEEDED
    else if a.modelDayLimit > 0 && Val(db.counters, a.modelKey) + a.consume > a.modelDayLimit then RPD_EXCEEDED
    else OK
  }

  function AcquireCounters(c: Counters, now: int, a: AcquireArgs): Counters {
    var c1 := if a.userDayLimit > 0
              then Expire(IncrBy(c, a.userKey, a.consume), a.userKey, now, a.dayTtl)
              else c;
    if a.modelDayLimit > 0 then Expire(c1, a.modelKey, now, a.modelDayTtl) else c1
  }

  function AcquireLocks(l: Locks, a: AcquireArgs): Locks {
    if a.concurrencyLimit > 0 then ZAdd(l, a.user, a.nowMs + a.lockTtl * 1000, a.job) else l
  }

  function CombinedCheckAndAcquire(db: Db, now: int, a: AcquireArgs): Db {
    var locks := ZRemRangeByScore(db.locks, a.user, a.nowMs);
    if AcquireCode(db, a) != OK then db.(locks := locks)
    else db.(counters := AcquireCounters(db.counters, now, a), locks := AcquireLocks(locks, a))
  }

  datatype ConsumeArgs = ConsumeArgs(
    rpmKey: Key, rpdKey: Key, minuteLimit: int, dayLimit: int, minuteTtl: int, dayTtl: int, consume: int)

  function ConsumeCode(c: Counters, a: ConsumeArgs): int {
    if a.minuteLimit > 0 && Val(c, a.rpmKey) + a.consume > a.minuteLimit then RPM_EXCEEDED
    else if a.dayLimit > 0 && Val(c, a.rpdKey) + a.consume > a.dayLimit then RPD_EXCEEDED
    else OK
  }

  function ConsumeExecutionLimits(c: Counters, now: int, a: ConsumeArgs): Counters {
    if ConsumeCode(c, a) != OK then c
    else
      var c1 := Expire(IncrBy(c, a.rpmKey, a.consume), a.rpmKey, now, a.minuteTtl);
      Expire(IncrBy(c1, a.rpdKey, a.consume), a.rpdKey, now, a.dayTtl)
  }

  function ReturnOne(c: Counters, now: int, k: Option<Key>, consume: int, ttl: int): Counters {
    if k.None? then c
    else
      var c1 := ClampedDecr(c, k.value, consume);
      if ttl > 0 then Expire(c1, k.value, now, ttl) else c1
  }

  datatype ReturnArgs = ReturnArgs(
    rpmKey: Option<Key>, rpdKey: Option<Key>, userKey: Option<Key>,
    consume: int, minuteTtl: int, dayTtl: int, userDayTtl: int)

  function ReturnTokensAtomic(c: Counters, now: int, a: ReturnArgs): Counters {
    var c1 := ReturnOne(c, now, a.rpmKey, a.consume, a.minuteTtl);
    var c2 := ReturnOne(c1, now, a.rpdKey, a.consume, a.dayTtl);
    ReturnOne(c2, now, a.userKey, a.consume, a.userDayTtl)
  }

  datatype ExpireArgs = ExpireArgs(
    waitingKey: Option<Key>, activeUser: Option<User>, userRpdKey: Option<Key>, job: JobId,
    dayTtl: int, finishedAt: int, status: Status, error: string, errorCode: string)

  function ExpireStaleJob(db: Db, now: int, a: ExpireArgs): Db {
    var c1 := if a.waitingKey.Some? then ClampedDecr(db.counters, a.waitingKey.value, 1) else db.counters;
    var c2 := ReturnOne(c1, now, a.userRpdKey, 1, a.dayTtl);
    Db(c2,
       if a.activeUser.Some? then ZRem(db.locks, a.activeUser.value, a.job) else db.locks,
       db.metas[a.job := MetaOf(db, a.job).(status := Some(a.status), updatedAt := Some(a.finishedAt))],
       db.results[a.job := ResultOf(db, a.job).(
         status := Some(a.status), error := Some(a.error), errorCode := Some(a.errorCode),
         finishedAt := Some(a.finishedAt), expiredAt := Some(a.finishedAt))])
  }
}
