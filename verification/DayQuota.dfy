/** Daily quotas over a day. Every touch of a daily counter sets its deadline to the end of the
    PT day, by a TTL that was taken a little earlier. If it was taken in the same day the key
    lives through the day, and the acquisitions (or charges) of the day are bounded by the
    limit plus the tokens given back. If it was taken before midnight and is applied after it,
    the key ends early and its counter starts again within the day. */
module DayQuota {
  import opened Redis
  import opened Counting
  import opened Lifecycle
  import opened JobInvariant
  import opened QuotaLedger
  import Safety
  import opened EventCounts

  // What an event enters in the ledger of q.
  ghost function EventEntry(c: Config, s: State, e: Event, q: Quota): Entry
    requires Enabled(s, e)
  {
    match e
    case TryAcquire(_, _, _, _, _, _) => AcquireEntry(c, s, e, q)
    case OfJob(j, step) => EntryOf(c, s, ViewOf(s, j), step, q)
    case _ => NoEntry
  }

  // Tokens counted against q: acquisitions for a user quota, charges for a model quota.
  ghost function TakeOf(c: Config, q: Quota): (State, Event) -> bool {
    (s: State, e: Event) => Enabled(s, e) && EventEntry(c, s, e, q) == Grant
  }

  // Tokens given back under q, whoever had taken them and whenever.
  ghost function ReturnOf(c: Config, q: Quota): (State, Event) -> bool {
    (s: State, e: Event) => Enabled(s, e) && IsReturn(EventEntry(c, s, e, q))
  }

  predicate IsReturn(entry: Entry) { entry == NativeReturn || entry == ForeignReturn }

  // ---- the ledger counts the events of a life ------------------------------------------

  ghost predicate Advances(b: Book, b': Book, taken: int, back: int) {
    b'.life == b.life && b'.granted == b.granted + taken && b'.returned + b'.foreign == b.returned + b.foreign + back
    && b.foreign <= b'.foreign
  }

  lemma WriteAdvances(b: Book, entry: Entry)
    ensures Advances(b, Write(b, entry), Ind(entry == Grant), Ind(IsReturn(entry)))
  {}

  lemma StepWrites(c: Config, s: State, e: Event, q: Quota)
    requires Local(s) && Enabled(s, e)
    requires BookOf(Apply(c, s, e), KeyOf(q)).life == BookOf(s, KeyOf(q)).life
    ensures BookOf(Apply(c, s, e), KeyOf(q)) == Write(BookOf(s, KeyOf(q)), EventEntry(c, s, e, q))
  {
    match e
    case OfJob(j, step) => EntryIsBooked(c, s, ViewOf(s, j), step, q);
    case TryAcquire(_, _, _, _, _, _) => AcquireIsBooked(c, s, e, q);
    case Tick(_) =>
    case CleanLocks(_, _) =>
  }

  lemma StepAdvances(c: Config, s: State, e: Event, q: Quota)
    requires Local(s) && Enabled(s, e)
    requires BookOf(Apply(c, s, e), KeyOf(q)).life == BookOf(s, KeyOf(q)).life
    ensures Advances(BookOf(s, KeyOf(q)), BookOf(Apply(c, s, e), KeyOf(q)),
                     Ind(TakeOf(c, q)(s, e)), Ind(ReturnOf(c, q)(s, e)))
  {
    StepWrites(c, s, e, q);
    WriteAdvances(BookOf(s, KeyOf(q)), EventEntry(c, s, e, q));
  }

  // A step of the same life moves the counter by its entry; a clamp can only leave it higher.
  lemma StepCounts(c: Config, s: State, e: Event, q: Quota)
    requires Local(s) && Enabled(s, e)
    requires BookOf(Apply(c, s, e), KeyOf(q)).life == BookOf(s, KeyOf(q)).life
    ensures Val(Apply(c, s, e).db.counters, KeyOf(q)) == NewValue(Val(s.db.counters, KeyOf(q)), EventEntry(c, s, e, q))
  {
    match e
    case OfJob(j, step) => EntryMovesCounter(c, s, ViewOf(s, j), step, q);
    case TryAcquire(_, _, _, _, _, _) => AcquireMovesCounter(c, s, e, q);
    case Tick(_) =>
    case CleanLocks(_, _) =>
  }

  lemma StepLowerBound(c: Config, s: State, e: Event, q: Quota)
    requires Local(s) && Enabled(s, e)
    requires BookOf(Apply(c, s, e), KeyOf(q)).life == BookOf(s, KeyOf(q)).life
    ensures Val(Apply(c, s, e).db.counters, KeyOf(q))
         >= Val(s.db.counters, KeyOf(q)) + Ind(TakeOf(c, q)(s, e)) - Ind(ReturnOf(c, q)(s, e))
  {
    StepCounts(c, s, e, q);
  }

  lemma {:induction false} WindowLowerBound(c: Config, ss: seq<State>, es: seq<Event>, q: Quota, lo: nat, hi: nat)
    requires Run(c, ss, es) && lo <= hi <= |es|
    requires BookOf(ss[lo], KeyOf(q)).life == BookOf(ss[hi], KeyOf(q)).life
    ensures Val(ss[hi].db.counters, KeyOf(q))
         >= Val(ss[lo].db.counters, KeyOf(q)) + Events(ss, es, TakeOf(c, q), lo, hi) - Events(ss, es, ReturnOf(c, q), lo, hi)
  {
    if lo < hi {
      LivesNeverShrink(c, ss, es, KeyOf(q), lo, hi - 1);
      LivesNeverShrink(c, ss, es, KeyOf(q), hi - 1, hi);
      WindowLowerBound(c, ss, es, q, lo, hi - 1);
      Safety.RunIsGood(c, ss, es, hi - 1);
      assert StepAt(c, ss, es, hi - 1);
      StepLowerBound(c, ss[hi - 1], es[hi - 1], q);
    }
  }

  lemma AdvancesCompose(b: Book, b1: Book, b2: Book, t1: int, r1: int, t2: int, r2: int)
    requires Advances(b, b1, t1, r1) && Advances(b1, b2, t2, r2)
    ensures Advances(b, b2, t1 + t2, r1 + r2)
  {}

  lemma StepGrowsLife(c: Config, s: State, e: Event, k: Key)
    requires Enabled(s, e)
    ensures BookOf(s, k).life <= BookOf(Apply(c, s, e), k).life
  {
    if e.OfJob? {
      NextBooksGrowLives(c, s, ViewOf(s, e.j), e.step);
    }
  }

  lemma {:induction false} LivesNeverShrink(c: Config, ss: seq<State>, es: seq<Event>, k: Key, lo: nat, hi: nat)
    requires Run(c, ss, es) && lo <= hi < |ss|
    ensures BookOf(ss[lo], k).life <= BookOf(ss[hi], k).life
  {
    if lo < hi {
      LivesNeverShrink(c, ss, es, k, lo, hi - 1);
      assert StepAt(c, ss, es, hi - 1);
      StepGrowsLife(c, ss[hi - 1], es[hi - 1], k);
    }
  }

  lemma {:induction false} WindowAdvances(c: Config, ss: seq<State>, es: seq<Event>, q: Quota, lo: nat, hi: nat)
    requires Run(c, ss, es) && lo <= hi <= |es|
    requires BookOf(ss[lo], KeyOf(q)).life == BookOf(ss[hi], KeyOf(q)).life
    ensures Advances(BookOf(ss[lo], KeyOf(q)), BookOf(ss[hi], KeyOf(q)),
                     Events(ss, es, TakeOf(c, q), lo, hi), Events(ss, es, ReturnOf(c, q), lo, hi))
  {
    if lo < hi {
      LivesNeverShrink(c, ss, es, KeyOf(q), lo, hi - 1);
      LivesNeverShrink(c, ss, es, KeyOf(q), hi - 1, hi);
      WindowAdvances(c, ss, es, q, lo, hi - 1);
      Safety.RunIsGood(c, ss, es, hi - 1);
      assert StepAt(c, ss, es, hi - 1);
      StepAdvances(c, ss[hi - 1], es[hi - 1], q);
      AdvancesCompose(BookOf(ss[lo], KeyOf(q)), BookOf(ss[hi - 1], KeyOf(q)), BookOf(ss[hi], KeyOf(q)),
                      Events(ss, es, TakeOf(c, q), lo, hi - 1), Events(ss, es, ReturnOf(c, q), lo, hi - 1),
                      Ind(TakeOf(c, q)(ss[hi - 1], es[hi - 1])), Ind(ReturnOf(c, q)(ss[hi - 1], es[hi - 1])));
    }
  }

  lemma LedgerArithmetic(b: Book, held: nat, n: int, b': Book, held': nat, n': int, taken: nat, back: nat, limit: nat)
    requires Balanced(b, held, n) && Balanced(b', held', n') && Advances(b, b', taken, back)
    requires limit > 0 ==> n' <= limit
    requires n' >= n + taken - back
    ensures limit > 0 ==> taken <= limit + back
    ensures b'.foreign == 0 ==> n' == n + taken - back
  {}

  // While the key does not expire: the tokens taken are at most the limit plus the tokens
  // given back, and the counter moves by exactly taken minus given back unless a refund hit
  // a token of an earlier life.
  lemma QuotaPerLife(c: Config, ss: seq<State>, es: seq<Event>, q: Quota, lo: nat, hi: nat)
    requires Run(c, ss, es) && lo <= hi <= |es|
    requires BookOf(ss[lo], KeyOf(q)).life == BookOf(ss[hi], KeyOf(q)).life
    ensures var taken, back := Events(ss, es, TakeOf(c, q), lo, hi), Events(ss, es, ReturnOf(c, q), lo, hi);
            && (LimitOf(c, q) > 0 ==> taken <= LimitOf(c, q) + back)
            && (BookOf(ss[hi], KeyOf(q)).foreign == 0 ==>
                  Val(ss[hi].db.counters, KeyOf(q)) == Val(ss[lo].db.counters, KeyOf(q)) + taken - back)
  {
    WindowAdvances(c, ss, es, q, lo, hi);
    WindowLowerBound(c, ss, es, q, lo, hi);
    BalanceAt(c, ss, es, q, lo);
    BalanceAt(c, ss, es, q, hi);
    var b, b' := BookOf(ss[lo], KeyOf(q)), BookOf(ss[hi], KeyOf(q));
    LedgerArithmetic(b, Count(ss[lo].jobs, Holder(q, b.life)), Val(ss[lo].db.counters, KeyOf(q)),
                     b', Count(ss[hi].jobs, Holder(q, b'.life)), Val(ss[hi].db.counters, KeyOf(q)),
                     Events(ss, es, TakeOf(c, q), lo, hi), Events(ss, es, ReturnOf(c, q), lo, hi), LimitOf(c, q));
  }

  lemma BalanceAt(c: Config, ss: seq<State>, es: seq<Event>, q: Quota, i: nat)
    requires Run(c, ss, es) && i < |ss|
    ensures Balance(c, ss[i].db.counters, ss[i].books, ss[i].jobs, q)
  {
    Safety.RunIsGood(c, ss, es, i);
  }

  // ---- deadlines -----------------------------------------------------------------------

  // The instant at which a step has taken the seconds to midnight: the expiry cron does so
  // once, at its start.
  function TtlClock(now: int, e: JobStep): int {
    match e
    case Stale(RefundStale(startedAt)) => startedAt
    case Stale(ReleaseStale(startedAt)) => startedAt
    case _ => now
  }

  function StepTtlTakenAt(c: Config, s: State, v: View, e: JobStep, q: Quota): Option<int>
    requires EnabledStep(s.now, v, e)
  {
    var cmd := CommandOf(c, s.now, v, e);
    if || (cmd.ConsumeLimits? && ModelRpd(cmd.model) == KeyOf(q) && CodeFor(c, s, v.job) == OK)
       || (cmd.ReturnTokens? && ModelRpd(cmd.model) == KeyOf(q))
       || (cmd.ExpireJob? && cmd.userRpd == KeyOf(q))
    then Some(TtlClock(s.now, e))
    else None
  }

  predicate AcquireTouches(c: Config, s: State, e: Event, q: Quota)
    requires e.TryAcquire?
  {
    && Acquires(c, s, e)
    && ((KeyOf(q) == QuotaKey(c, e) && c.userLimit(e.user, e.mode) > 0)
        || (KeyOf(q) == ModelRpd(e.model) && c.rpd(e.model) > 0))
  }

  // The instant at which the TTL was taken that an event sets on the counter of q, if it does.
  function TtlTakenAt(c: Config, s: State, e: Event, q: Quota): Option<int>
    requires Enabled(s, e)
  {
    match e
    case TryAcquire(_, _, _, _, _, askedAt) => if AcquireTouches(c, s, e, q) then Some(askedAt) else None
    case OfJob(j, step) => StepTtlTakenAt(c, s, ViewOf(s, j), step, q)
    case _ => None
  }

  // The counter gets a deadline `ttl` seconds from now, or keeps the one it has.
  ghost predicate Renews(counters: Counters, counters': Counters, k: Key, now: int, ttl: Option<int>) {
    if ttl.Some? then k in counters' ==> counters'[k].deadline == Some(now + ttl.value * 1000)
    else (k in counters' <==> k in counters) && (k in counters ==> counters'[k].deadline == counters[k].deadline)
  }

  function TtlOf(c: Config, taken: Option<int>): Option<int> {
    if taken.Some? then Some(c.DayTtl(taken.value)) else None
  }

  lemma AcquireRenews(c: Config, s: State, e: Event, q: Quota)
    requires Enabled(s, e) && e.TryAcquire?
    ensures Renews(s.db.counters, AfterAcquire(c, s, e).db.counters, KeyOf(q), s.now, TtlOf(c, TtlTakenAt(c, s, e, q)))
  {}

  lemma CommandTtl(c: Config, s: State, v: View, e: JobStep)
    requires EnabledStep(s.now, v, e)
    ensures var cmd := CommandOf(c, s.now, v, e);
            cmd.ReturnTokens? || cmd.ExpireJob? ==> cmd.dayTtl == c.DayTtl(TtlClock(s.now, e))
    ensures CommandOf(c, s.now, v, e).ConsumeLimits? ==> TtlClock(s.now, e) == s.now
  {}

  lemma SendRenews(c: Config, counters: Counters, now: int, cmd: Command, q: Quota)
    requires cmd.Increment? || cmd.DecrementClamped? ==> cmd.k.Waiting?
    requires cmd.ExpireJob? ==> cmd.waiting.Waiting?
    requires cmd.ReturnTokens? || cmd.ExpireJob? ==> cmd.dayTtl >= 1
    ensures Renews(counters, Send(c, counters, now, cmd), KeyOf(q), now,
                   if cmd.ConsumeLimits? && ModelRpd(cmd.model) == KeyOf(q)
                      && ConsumeCode(counters, ConsumeArgsFor(c, cmd.model, now)) == OK then Some(c.DayTtl(now))
                   else if cmd.ReturnTokens? && ModelRpd(cmd.model) == KeyOf(q) then Some(cmd.dayTtl)
                   else if cmd.ExpireJob? && cmd.userRpd == KeyOf(q) then Some(cmd.dayTtl)
                   else None)
  {}

  lemma StepRenews(c: Config, s: State, v: View, e: JobStep, q: Quota)
    requires JobOk(v) && EnabledStep(s.now, v, e)
    ensures Renews(s.db.counters, Send(c, s.db.counters, s.now, CommandOf(c, s.now, v, e)), KeyOf(q), s.now,
                   TtlOf(c, StepTtlTakenAt(c, s, v, e, q)))
  {
    CommandNamesOwnKeys(c, s, v, e);
    CommandTtl(c, s, v, e);
    SendRenews(c, s.db.counters, s.now, CommandOf(c, s.now, v, e), q);
  }

  lemma EventRenews(c: Config, s: State, e: Event, q: Quota)
    requires Local(s) && Enabled(s, e) && !e.Tick?
    ensures Renews(s.db.counters, Apply(c, s, e).db.counters, KeyOf(q), s.now, TtlOf(c, TtlTakenAt(c, s, e, q)))
  {
    match e
    case OfJob(j, step) => StepRenews(c, s, ViewOf(s, j), step, q);
    case TryAcquire(_, _, _, _, _, _) => AcquireRenews(c, s, e, q);
    case CleanLocks(_, _) =>
  }

  // ---- the clock of the source ---------------------------------------------------------

  // A TTL that is taken within the day reaches the end of the day.
  ghost predicate TtlReaches(c: Config, dayStart: int, dayEnd: int) {
    forall t: int :: dayStart <= t < dayEnd ==> dayEnd <= t + c.DayTtl(t) * 1000
  }

  // getSecondsUntilMidnightPT reads the time from a text without milliseconds and counts to
  // the next midnight.
  function WholeSecond(t: int): int { t / 1000 * 1000 }

  ghost predicate CountsToNext(c: Config, dayStart: int, dayEnd: int) {
    && dayStart % 1000 == 0 && dayEnd % 1000 == 0 && dayStart < dayEnd
    && forall t: int :: dayStart <= t < dayEnd ==> c.secondsToMidnight(t) == (dayEnd - WholeSecond(t)) / 1000
  }

  lemma TtlIsTimeToMidnight(c: Config, dayStart: int, dayEnd: int, t: int)
    requires CountsToNext(c, dayStart, dayEnd) && dayStart <= t < dayEnd
    ensures c.DayTtl(t) * 1000 == dayEnd - WholeSecond(t)
  {}

  // So every TTL reaches its own midnight, because the milliseconds are missing.
  lemma TtlOfSourceReaches(c: Config, dayStart: int, dayEnd: int)
    requires CountsToNext(c, dayStart, dayEnd)
    ensures TtlReaches(c, dayStart, dayEnd)
  {
    forall t: int | dayStart <= t < dayEnd ensures dayEnd <= t + c.DayTtl(t) * 1000 {
      TtlIsTimeToMidnight(c, dayStart, dayEnd, t);
    }
  }

  ghost predicate LivesUntil(counters: Counters, k: Key, dayEnd: int) {
    k in counters ==> counters[k].deadline.Some? && dayEnd <= counters[k].deadline.value
  }

  // A touch leaves the counter with a deadline short of the end of the day if and only if its
  // TTL was taken on the day before and less than the length of the day ago.
  lemma TouchFallsShort(c: Config, s: State, e: Event, q: Quota, dayBefore: int, dayStart: int, dayEnd: int, taken: int)
    requires Local(s) && Enabled(s, e) && TtlTakenAt(c, s, e, q) == Some(taken)
    requires CountsToNext(c, dayBefore, dayStart) && CountsToNext(c, dayStart, dayEnd)
    requires dayBefore <= taken && dayStart <= s.now < dayEnd
    ensures var counters := Apply(c, s, e).db.counters;
            KeyOf(q) in counters ==>
              (!LivesUntil(counters, KeyOf(q), dayEnd)
               <==> taken < dayStart && s.now - WholeSecond(taken) < dayEnd - dayStart)
  {
    EventRenews(c, s, e, q);
    TakenInTime(c, s, e, q);
    if taken < dayStart {
      TtlIsTimeToMidnight(c, dayBefore, dayStart, taken);
    } else {
      TtlIsTimeToMidnight(c, dayStart, dayEnd, taken);
    }
  }

  lemma TakenInTime(c: Config, s: State, e: Event, q: Quota)
    requires Enabled(s, e)
    ensures var taken := TtlTakenAt(c, s, e, q); taken.Some? ==> taken.value <= s.now && !e.Tick?
  {}

  lemma TickEnds(s: State, k: Key, to: int)
    requires s.now <= to && k in s.db.counters && s.db.counters[k].deadline.Some? && s.db.counters[k].deadline.value <= to
    ensures Val(AfterTick(s, to).db.counters, k) == 0 && BookOf(AfterTick(s, to), k).life == BookOf(s, k).life + 1
  {}

  lemma ExpirySetsDeadline(c: Config, s: State, j: JobId, startedAt: int)
    requires Enabled(s, OfJob(j, Stale(ReleaseStale(startedAt))))
    ensures var s' := AfterStep(c, s, j, Stale(ReleaseStale(startedAt)));
            var k := StaleKey(c, s.now, s.jobs[j]);
            && s'.now == s.now && k in s'.db.counters
            && s'.db.counters[k].deadline == Some(s.now + c.DayTtl(startedAt) * 1000)
  {}

  // A pass of the expiry cron that starts within the last second of a day and expires a job
  // just after midnight gives the user's counter of the new day one second more: unless it is
  // touched again it is gone within the day, and the quota begins anew.
  lemma ExpiryCutsTheNewDay(c: Config, s: State, j: JobId, midnight: int)
    requires Enabled(s, OfJob(j, Stale(ReleaseStale(midnight - 1000))))
    requires s.now == midnight + 1 && c.secondsToMidnight(midnight - 1000) == 1
    ensures var s1 := AfterStep(c, s, j, Stale(ReleaseStale(midnight - 1000)));
            var s2 := AfterTick(s1, midnight + 1001);
            var k := StaleKey(c, s.now, s.jobs[j]);
            && k in s1.db.counters && s1.db.counters[k].deadline == Some(midnight + 1001)
            && Val(s2.db.counters, k) == 0 && BookOf(s2, k).life == BookOf(s1, k).life + 1
  {
    ExpirySetsDeadline(c, s, j, midnight - 1000);
    TickEnds(AfterStep(c, s, j, Stale(ReleaseStale(midnight - 1000))), StaleKey(c, s.now, s.jobs[j]), midnight + 1001);
  }

  // ---- a key lives to the end of its day -----------------------------------------------

  // An event leaves the key its deadline if the TTL it sets was taken within the day.
  lemma EventKeepsDeadline(c: Config, s: State, e: Event, q: Quota, dayStart: int, dayEnd: int)
    requires Local(s) && Enabled(s, e) && TtlReaches(c, dayStart, dayEnd) && !e.Tick? && s.now < dayEnd
    requires var taken := TtlTakenAt(c, s, e, q);
             if taken.Some? then dayStart <= taken.value else LivesUntil(s.db.counters, KeyOf(q), dayEnd)
    ensures LivesUntil(Apply(c, s, e).db.counters, KeyOf(q), dayEnd)
  {
    EventRenews(c, s, e, q);
    TakenInTime(c, s, e, q);
    if TtlTakenAt(c, s, e, q).Some? {
      var t := TtlTakenAt(c, s, e, q).value;
      assert dayEnd <= t + c.DayTtl(t) * 1000;
    }
  }

  lemma JobStepKeepsLife(c: Config, s: State, v: View, e: JobStep, q: Quota)
    requires JobOk(v) && EnabledStep(s.now, v, e)
    ensures BookIn(NextBooks(c, s, v, e), KeyOf(q)).life == BookOf(s, KeyOf(q)).life
  {}

  lemma EventKeepsLife(c: Config, s: State, e: Event, q: Quota)
    requires Local(s) && Enabled(s, e) && !e.Tick?
    ensures BookOf(Apply(c, s, e), KeyOf(q)).life == BookOf(s, KeyOf(q)).life
  {
    match e
    case OfJob(j, step) => JobStepKeepsLife(c, s, ViewOf(s, j), step, q);
    case TryAcquire(_, _, _, _, _, _) => AcquireIsBooked(c, s, e, q);
    case CleanLocks(_, _) =>
  }

  lemma TickKeepsLiving(c: Config, s: State, to: int, q: Quota, dayEnd: int)
    requires s.now <= to < dayEnd && LivesUntil(s.db.counters, KeyOf(q), dayEnd)
    ensures LivesUntil(AfterTick(s, to).db.counters, KeyOf(q), dayEnd)
    ensures BookOf(AfterTick(s, to), KeyOf(q)).life == BookOf(s, KeyOf(q)).life
  {}

  lemma StepKeepsDeadline(c: Config, s: State, e: Event, q: Quota, dayStart: int, dayEnd: int)
    requires Local(s) && Enabled(s, e) && TtlReaches(c, dayStart, dayEnd)
    requires s.now < dayEnd && Apply(c, s, e).now < dayEnd
    requires LivesUntil(s.db.counters, KeyOf(q), dayEnd)
    requires TtlTakenAt(c, s, e, q).Some? ==> dayStart <= TtlTakenAt(c, s, e, q).value
    ensures LivesUntil(Apply(c, s, e).db.counters, KeyOf(q), dayEnd)
    ensures BookOf(Apply(c, s, e), KeyOf(q)).life == BookOf(s, KeyOf(q)).life
  {
    if e.Tick? {
      TickKeepsLiving(c, s, e.to, q, dayEnd);
    } else {
      EventKeepsDeadline(c, s, e, q, dayStart, dayEnd);
      EventKeepsLife(c, s, e, q);
    }
  }

  // Every touch of the counter between two states of a day carries a TTL taken in that day.
  ghost predicate Timely(c: Config, ss: seq<State>, es: seq<Event>, q: Quota, lo: nat, hi: nat, dayStart: int)
    requires lo <= hi <= |es| < |ss|
  {
    forall i: nat {:trigger StepAt(c, ss, es, i)} :: lo <= i < hi && StepAt(c, ss, es, i) ==>
      var taken := TtlTakenAt(c, ss[i], es[i], q); taken.Some? ==> dayStart <= taken.value
  }

  ghost predicate Within(ss: seq<State>, lo: nat, hi: nat, dayStart: int, dayEnd: int)
    requires lo <= hi < |ss|
  {
    forall i :: lo <= i <= hi ==> dayStart <= ss[i].now < dayEnd
  }

  lemma {:induction false} KeyLivesThroughDay(c: Config, ss: seq<State>, es: seq<Event>, q: Quota, lo: nat, hi: nat,
                                              dayStart: int, dayEnd: int)
    requires Run(c, ss, es) && lo <= hi <= |es| && TtlReaches(c, dayStart, dayEnd)
    requires Within(ss, lo, hi, dayStart, dayEnd) && Timely(c, ss, es, q, lo, hi, dayStart)
    requires LivesUntil(ss[lo].db.counters, KeyOf(q), dayEnd)
    ensures LivesUntil(ss[hi].db.counters, KeyOf(q), dayEnd)
    ensures BookOf(ss[lo], KeyOf(q)).life == BookOf(ss[hi], KeyOf(q)).life
  {
    if lo < hi {
      KeyLivesThroughDay(c, ss, es, q, lo, hi - 1, dayStart, dayEnd);
      RunIsLocal(c, ss, es, hi - 1);
      assert StepAt(c, ss, es, hi - 1);
      StepKeepsDeadline(c, ss[hi - 1], es[hi - 1], q, dayStart, dayEnd);
    }
  }

  lemma TakeIsTouch(c: Config, s: State, e: Event, q: Quota)
    requires Local(s) && Enabled(s, e) && TakeOf(c, q)(s, e)
    ensures TtlTakenAt(c, s, e, q).Some?
  {
    if e.OfJob? {
      CommandNamesOwnKeys(c, s, ViewOf(s, e.j), e.step);
    }
  }

  lemma TouchStartsDay(c: Config, ss: seq<State>, es: seq<Event>, q: Quota, i: nat, dayStart: int, dayEnd: int)
    requires Run(c, ss, es) && i < |es| && TtlReaches(c, dayStart, dayEnd) && ss[i].now < dayEnd
    requires StepAt(c, ss, es, i)
    requires var taken := TtlTakenAt(c, ss[i], es[i], q); taken.Some? && dayStart <= taken.value
    ensures LivesUntil(ss[i + 1].db.counters, KeyOf(q), dayEnd)
    ensures BookOf(ss[i + 1], KeyOf(q)).life == BookOf(ss[i], KeyOf(q)).life
  {
    RunIsLocal(c, ss, es, i);
    TakenInTime(c, ss[i], es[i], q);
    EventKeepsDeadline(c, ss[i], es[i], q, dayStart, dayEnd);
    EventKeepsLife(c, ss[i], es[i], q);
  }

  lemma TimelyLater(c: Config, ss: seq<State>, es: seq<Event>, q: Quota, lo: nat, hi: nat, dayStart: int)
    requires lo < hi <= |es| < |ss| && Timely(c, ss, es, q, lo, hi, dayStart)
    ensures Timely(c, ss, es, q, lo + 1, hi, dayStart)
  {}

  // From the first touch on the key lives to the end of the day.
  lemma LifeFromTouch(c: Config, ss: seq<State>, es: seq<Event>, q: Quota, lo: nat, hi: nat, dayStart: int, dayEnd: int)
    requires Run(c, ss, es) && lo < hi <= |es| && TtlReaches(c, dayStart, dayEnd)
    requires Within(ss, lo, hi, dayStart, dayEnd) && Timely(c, ss, es, q, lo + 1, hi, dayStart)
    requires StepAt(c, ss, es, lo)
    requires var taken := TtlTakenAt(c, ss[lo], es[lo], q); taken.Some? && dayStart <= taken.value
    ensures BookOf(ss[lo], KeyOf(q)).life == BookOf(ss[hi], KeyOf(q)).life
  {
    TouchStartsDay(c, ss, es, q, lo, dayStart, dayEnd);
    KeyLivesThroughDay(c, ss, es, q, lo + 1, hi, dayStart, dayEnd);
  }

  // Within one day at most `limit` tokens are taken beyond those given back, if every TTL that
  // is set in it was taken in it.
  lemma {:induction false} QuotaPerDay(c: Config, ss: seq<State>, es: seq<Event>, q: Quota, lo: nat, hi: nat,
                                       dayStart: int, dayEnd: int)
    requires Run(c, ss, es) && lo <= hi <= |es| && LimitOf(c, q) > 0 && TtlReaches(c, dayStart, dayEnd)
    requires Within(ss, lo, hi, dayStart, dayEnd) && Timely(c, ss, es, q, lo, hi, dayStart)
    ensures Events(ss, es, TakeOf(c, q), lo, hi) <= LimitOf(c, q) + Events(ss, es, ReturnOf(c, q), lo, hi)
    decreases hi - lo
  {
    if lo < hi {
      assert StepAt(c, ss, es, lo);
      TimelyLater(c, ss, es, q, lo, hi, dayStart);
      if TtlTakenAt(c, ss[lo], es[lo], q).Some? {
        LifeFromTouch(c, ss, es, q, lo, hi, dayStart, dayEnd);
        QuotaPerLife(c, ss, es, q, lo, hi);
      } else {
        NoTakeAt(c, ss, es, q, lo);
        QuotaPerDay(c, ss, es, q, lo + 1, hi, dayStart, dayEnd);
        EventsSplit(ss, es, TakeOf(c, q), lo, lo + 1, hi);
        EventsSplit(ss, es, ReturnOf(c, q), lo, lo + 1, hi);
      }
    }
  }

  lemma NoTakeAt(c: Config, ss: seq<State>, es: seq<Event>, q: Quota, i: nat)
    requires Run(c, ss, es) && i < |es| && StepAt(c, ss, es, i) && TtlTakenAt(c, ss[i], es[i], q).None?
    ensures Events(ss, es, TakeOf(c, q), i, i + 1) == 0
  {
    RunIsLocal(c, ss, es, i);
    if TakeOf(c, q)(ss[i], es[i]) {
      TakeIsTouch(c, ss[i], es[i], q);
    }
  }
}
