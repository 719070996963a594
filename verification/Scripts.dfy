/** What the Lua scripts reply and change, said of the keys they are given. */
module Scripts {
  import opened Redis

  // Everything but the keys of `ks` is as it was.
  ghost predicate OnlyKeys(c: Counters, c': Counters, ks: set<Key>) {
    forall k :: k !in ks ==> (k in c <==> k in c') && (k in c ==> c'[k] == c[k])
  }

  // The counter is lowered by n, at zero at the lowest, and lives `ttl` seconds from now; a
  // TTL of zero leaves it without a deadline.
  ghost predicate GivesBack(c: Counters, c': Counters, k: Key, n: int, now: int, ttl: int) {
    && k in c'
    && c'[k].value == (if Val(c, k) <= n then 0 else Val(c, k) - n)
    && c'[k].deadline == (if ttl > 0 then Some(now + ttl * 1000) else None)
  }

  ghost function HeldAfter(db: Db, user: User, at: int): set<JobId> {
    set j | j in LocksOf(db.locks, user) && at < LocksOf(db.locks, user)[j]
  }

  // The reply to a request is that of the first gate which is closed: locks, user, model.
  lemma AcquireReplies(db: Db, a: AcquireArgs)
    ensures var locks := a.concurrencyLimit > 0 && |HeldAfter(db, a.user, a.nowMs)| >= a.concurrencyLimit;
            var user := a.userDayLimit > 0 && Val(db.counters, a.userKey) + a.consume > a.userDayLimit;
            var model := a.modelDayLimit > 0 && Val(db.counters, a.modelKey) + a.consume > a.modelDayLimit;
            && (AcquireCode(db, a) == 0 <==> locks)
            && (AcquireCode(db, a) == -4 <==> !locks && user)
            && (AcquireCode(db, a) == -2 <==> !locks && !user && model)
            && (AcquireCode(db, a) == 1 <==> !locks && !user && !model)
  {
    var held := Above(LocksOf(db.locks, a.user), a.nowMs);
    assert held.Keys == HeldAfter(db, a.user, a.nowMs);
    assert |held| == |held.Keys|;
  }

  // An acquisition takes the user's tokens and renews the deadlines of both days.
  lemma AcquireTakesTokens(c: Counters, now: int, a: AcquireArgs)
    requires a.userKey != a.modelKey && a.dayTtl > 0 && a.modelDayTtl > 0
    ensures var c', u, m := AcquireCounters(c, now, a), a.userKey, a.modelKey;
            && OnlyKeys(c, c', {u, m})
            && Lookup(c', u) == (if a.userDayLimit > 0 then Some(Cell(Val(c, u) + a.consume, Some(now + a.dayTtl * 1000)))
                                 else Lookup(c, u))
            && Lookup(c', m) == (if a.modelDayLimit > 0 && m in c then Some(Cell(Val(c, m), Some(now + a.modelDayTtl * 1000)))
                                 else Lookup(c, m))
  {}

  // A request drops the locks of its user that are over; an admitted one takes a lock until the
  // lock TTL is over.
  lemma AcquireTakesLock(db: Db, now: int, a: AcquireArgs)
    ensures var db' := CombinedCheckAndAcquire(db, now, a);
            var takes, locks := AcquireCode(db, a) == 1 && a.concurrencyLimit > 0, LocksOf(db'.locks, a.user);
            && (forall j :: j in locks <==> j in HeldAfter(db, a.user, a.nowMs) || (takes && j == a.job))
            && (forall j :: j in locks ==>
                  locks[j] == if takes && j == a.job then a.nowMs + a.lockTtl * 1000 else LocksOf(db.locks, a.user)[j])
            && (forall w :: w != a.user ==> LocksOf(db'.locks, w) == LocksOf(db.locks, w))
            && db'.counters == (if AcquireCode(db, a) == 1 then AcquireCounters(db.counters, now, a) else db.counters)
            && db'.metas == db.metas && db'.results == db.results
  {
    var db', held := CombinedCheckAndAcquire(db, now, a), Above(LocksOf(db.locks, a.user), a.nowMs);
    if AcquireCode(db, a) == 1 && a.concurrencyLimit > 0 {
      assert LocksOf(db'.locks, a.user) == held[a.job := a.nowMs + a.lockTtl * 1000];
    } else {
      assert LocksOf(db'.locks, a.user) == held;
    }
  }

  lemma ReturnMoves(c: Counters, now: int, a: ReturnArgs)
    requires a.rpmKey.Some? && a.rpdKey.Some? && a.userKey.None? && a.rpmKey != a.rpdKey
    ensures var c' := ReturnTokensAtomic(c, now, a);
            && OnlyKeys(c, c', {a.rpmKey.value, a.rpdKey.value})
            && GivesBack(c, c', a.rpmKey.value, a.consume, now, a.minuteTtl)
            && GivesBack(c, c', a.rpdKey.value, a.consume, now, a.dayTtl)
  {}

  // An expiry gives back a place in the backlog and the user's token, drops the lock of the job
  // and no other, and writes the failure into both hashes of the job and no other.
  lemma ExpiryWrites(db: Db, now: int, a: ExpireArgs)
    requires a.waitingKey.Some? && a.activeUser.Some? && a.userRpdKey.Some? && a.waitingKey != a.userRpdKey
    ensures var db' := ExpireStaleJob(db, now, a);
            var j, user, r := a.job, a.activeUser.value, ResultOf(db', a.job);
            && OnlyKeys(db.counters, db'.counters, {a.waitingKey.value, a.userRpdKey.value})
            && GivesBack(db.counters, db'.counters, a.waitingKey.value, 1, now, 0)
            && GivesBack(db.counters, db'.counters, a.userRpdKey.value, 1, now, a.dayTtl)
            && (forall w, i :: i in LocksOf(db'.locks, w) <==> i in LocksOf(db.locks, w) && !(w == user && i == j))
            && (forall w, i :: i in LocksOf(db'.locks, w) ==> LocksOf(db'.locks, w)[i] == LocksOf(db.locks, w)[i])
            && (forall i :: i != j ==> Lookup(db'.metas, i) == Lookup(db.metas, i))
            && (forall i :: i != j ==> Lookup(db'.results, i) == Lookup(db.results, i))
            && j in db'.metas && j in db'.results
            && MetaOf(db', j) == MetaOf(db, j).(status := Some(a.status), updatedAt := Some(a.finishedAt))
            && r.status == Some(a.status) && r.error == Some(a.error) && r.errorCode == Some(a.errorCode)
            && r.finishedAt == Some(a.finishedAt) && r.expiredAt == Some(a.finishedAt)
            && r.data == ResultOf(db, j).data && r.usedModel == ResultOf(db, j).usedModel
            && r.syncedAt == ResultOf(db, j).syncedAt
  {}
}
