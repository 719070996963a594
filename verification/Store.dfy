/** The five Lua scripts as Redis runs them: each command updates the shared keys in turn and
    early returns leave the rest untouched. Redis runs a script without interleaving, so each
    script is one method, proved equal to its function in `Redis`. */
module StoreModule {
  import opened Redis

  class Store {
    var counters: Counters
    var locks: Locks
    var metas: map<JobId, Meta>
    var results: map<JobId, Result>
    var now: int

    constructor (start: int)
      ensures AsDb() == EMPTY_DB && now == start
    {
      counters, locks, metas, results, now := map[], map[], map[], map[], start;
    }

    function AsDb(): Db
      reads this
    {
      Db(counters, locks, metas, results)
    }

    method GetOrZero(k: Key) returns (v: int)
      ensures v == Val(counters, k)
    {
      if k !in counters { return 0; }
      v := counters[k].value;
    }

    method IncrByCmd(k: Key, n: int) returns (v: int)
      modifies this`counters
      ensures counters == IncrBy(old(counters), k, n)
      ensures v == Val(counters, k)
    {
      v := GetOrZero(k);
      v := v + n;
      counters := counters[k := Cell(v, if k in counters then counters[k].deadline else None)];
    }

    method SetCmd(k: Key, v: int)
      modifies this`counters
      ensures counters == SetVal(old(counters), k, v)
    {
      counters := counters[k := Cell(v, None)];
    }

    method ExpireCmd(k: Key, ttl: int)
      modifies this`counters
      ensures counters == Expire(old(counters), k, now, ttl)
    {
      if k in counters {
        if ttl <= 0 {
          counters := counters - {k};
        } else {
          counters := counters[k := counters[k].(deadline := Some(now + ttl * 1000))];
        }
      }
    }

    // src/redis/luaScripts/combinedCheckAndAcquire.lua
    method CombinedCheckAndAcquire(a: AcquireArgs) returns (code: int)
      modifies this`counters, this`locks
      ensures code == Redis.AcquireCode(old(AsDb()), a)
      ensures AsDb() == Redis.CombinedCheckAndAcquire(old(AsDb()), now, a)
    {
      var expiryMs := a.nowMs + a.lockTtl * 1000;
      locks := ZRemRangeByScore(locks, a.user, a.nowMs);
      if a.concurrencyLimit > 0 {
        var count := |LocksOf(locks, a.user)|;
        if count >= a.concurrencyLimit {
          return CONCURRENCY_EXCEEDED;
        }
      }
      var userDay := GetOrZero(a.userKey);
      if a.userDayLimit > 0 && userDay + a.consume > a.userDayLimit {
        return USER_RPD_EXCEEDED;
      }
      var modelDay := GetOrZero(a.modelKey);
      if a.modelDayLimit > 0 && modelDay + a.consume > a.modelDayLimit {
        return RPD_EXCEEDED;
      }
      Acquire(a, expiryMs);
      return OK;
    }

    // The last part of the script, reached when every gate is open.
    method Acquire(a: AcquireArgs, expiryMs: int)
      requires expiryMs == a.nowMs + a.lockTtl * 1000
      modifies this`counters, this`locks
      ensures counters == AcquireCounters(old(counters), now, a)
      ensures locks == AcquireLocks(old(locks), a)
    {
      if a.concurrencyLimit > 0 {
        locks := ZAdd(locks, a.user, expiryMs, a.job);
      }
      if a.userDayLimit > 0 {
        var _ := IncrByCmd(a.userKey, a.consume);
        ExpireCmd(a.userKey, a.dayTtl);
      }
      if a.modelDayLimit > 0 {
        ExpireCmd(a.modelKey, a.modelDayTtl);
      }
    }

    // src/redis/luaScripts/consumeExecutionLimits.lua
    method ConsumeExecutionLimits(a: ConsumeArgs) returns (code: int)
      modifies this`counters
      ensures var minute, day := old(Val(counters, a.rpmKey)) + a.consume, old(Val(counters, a.rpdKey)) + a.consume;
              && (code == -1 <==> a.minuteLimit > 0 && minute > a.minuteLimit)
              && (code == -2 <==> !(a.minuteLimit > 0 && minute > a.minuteLimit) && a.dayLimit > 0 && day > a.dayLimit)
              && (code == -1 || code == -2 || code == 1)
              && (code != 1 ==> counters == old(counters))
              && (code == 1 && a.rpmKey != a.rpdKey && a.minuteTtl > 0 && a.dayTtl > 0 ==>
                    counters == old(counters)[a.rpmKey := Cell(minute, Some(now + a.minuteTtl * 1000))]
                                             [a.rpdKey := Cell(day, Some(now + a.dayTtl * 1000))])
      ensures code == ConsumeCode(old(counters), a)
      ensures counters == Redis.ConsumeExecutionLimits(old(counters), now, a)
    {
      var modelMinute := GetOrZero(a.rpmKey);
      if a.minuteLimit > 0 && modelMinute + a.consume > a.minuteLimit {
        return RPM_EXCEEDED;
      }
      var modelDay := GetOrZero(a.rpdKey);
      if a.dayLimit > 0 && modelDay + a.consume > a.dayLimit {
        return RPD_EXCEEDED;
      }
      var _ := IncrByCmd(a.rpmKey, a.consume);
      ExpireCmd(a.rpmKey, a.minuteTtl);
      var _ := IncrByCmd(a.rpdKey, a.consume);
      ExpireCmd(a.rpdKey, a.dayTtl);
      return OK;
    }

    method DecrAndClamp(k: Option<Key>, consume: int, ttl: int)
      modifies this`counters
      ensures counters == ReturnOne(old(counters), now, k, consume, ttl)
    {
      if k.Some? {
        var current := GetOrZero(k.value);
        var next := current - consume;
        if next < 0 { next := 0; }
        SetCmd(k.value, next);
        if ttl > 0 { ExpireCmd(k.value, ttl); }
      }
    }

    // src/redis/luaScripts/returnTokensAtomic.lua
    method ReturnTokensAtomic(a: ReturnArgs)
      modifies this`counters
      ensures counters == Redis.ReturnTokensAtomic(old(counters), now, a)
    {
      DecrAndClamp(a.rpmKey, a.consume, a.minuteTtl);
      DecrAndClamp(a.rpdKey, a.consume, a.dayTtl);
      DecrAndClamp(a.userKey, a.consume, a.userDayTtl);
    }

    // src/redis/luaScripts/decrAndClampToZero.lua
    method DecrAndClampToZero(k: Key) returns (next: int)
      modifies this`counters
      ensures counters == ClampedDecr(old(counters), k, 1)
      ensures next == Val(counters, k) >= 0
    {
      var current := GetOrZero(k);
      next := current - 1;
      if next < 0 { next := 0; }
      SetCmd(k, next);
    }

    // src/redis/luaScripts/expireStaleJob.lua
    method ExpireStaleJob(a: ExpireArgs)
      modifies this`counters, this`locks, this`metas, this`results
      ensures AsDb() == Redis.ExpireStaleJob(old(AsDb()), now, a)
    {
      if a.waitingKey.Some? {
        var _ := DecrAndClampToZero(a.waitingKey.value);
      }
      if a.activeUser.Some? {
        locks := ZRem(locks, a.activeUser.value, a.job);
      }
      DecrAndClamp(a.userRpdKey, 1, a.dayTtl);
      results := results[a.job := ResultOf(AsDb(), a.job).(
        status := Some(a.status), error := Some(a.error), errorCode := Some(a.errorCode),
        finishedAt := Some(a.finishedAt), expiredAt := Some(a.finishedAt))];
      metas := metas[a.job := MetaOf(AsDb(), a.job).(status := Some(a.status), updatedAt := Some(a.finishedAt))];
    }
  }
}
