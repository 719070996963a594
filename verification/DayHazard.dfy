/** A run in which a day's quota is exceeded: a pass of the expiry cron starts in the last second
    of a day and releases an old job just after midnight, so the user's counter of the new day
    ends within a second, and the day's quota is spent a second time. */
module DayHazard {
  import opened Redis
  import opened Counting
  import opened Lifecycle
  import opened EventCounts
  import opened QuotaLedger
  import opened DayQuota
  import Hazards

  // The old job is thirty minutes and two seconds older than the new day.
  const OLD_JOB_AGE_MS := EXPIRE_SLA_MS + 2000

  lemma {:induction false} EventsOfLonger(ss: seq<State>, es: seq<Event>, ss': seq<State>, es': seq<Event>,
                                          p: (State, Event) -> bool, lo: nat, hi: nat)
    requires lo <= hi <= |es| < |ss| && ss <= ss' && es <= es' && |es'| < |ss'|
    ensures Events(ss', es', p, lo, hi) == Events(ss, es, p, lo, hi)
  {
    if lo < hi {
      EventsOfLonger(ss, es, ss', es', p, lo, hi - 1);
    }
  }

  // What the window from lo on has taken and given back.
  ghost predicate Tally(c: Config, q: Quota, ss: seq<State>, es: seq<Event>, lo: nat, taken: nat, back: nat)
    requires lo <= |es| < |ss|
  {
    Events(ss, es, TakeOf(c, q), lo, |es|) == taken && Events(ss, es, ReturnOf(c, q), lo, |es|) == back
  }

  lemma Next(c: Config, ss: seq<State>, es: seq<Event>, e: Event) returns (ss': seq<State>, es': seq<Event>)
    requires Run(c, ss, es) && Enabled(ss[|es|], e)
    ensures Run(c, ss', es') && ss' == ss + [Apply(c, ss[|es|], e)] && es' == es + [e]
  {
    ExtendRun(c, ss, es, e);
    ss', es' := ss + [Apply(c, ss[|es|], e)], es + [e];
  }

  lemma TallyNext(c: Config, q: Quota, ss: seq<State>, es: seq<Event>, e: Event, s': State, lo: nat, taken: nat, back: nat)
    requires |ss| == |es| + 1 && lo <= |es| && Tally(c, q, ss, es, lo, taken, back)
    ensures Tally(c, q, ss + [s'], es + [e], lo,
                  taken + Ind(TakeOf(c, q)(ss[|es|], e)), back + Ind(ReturnOf(c, q)(ss[|es|], e)))
  {
    EventsOfLonger(ss, es, ss + [s'], es + [e], TakeOf(c, q), lo, |es|);
    EventsOfLonger(ss, es, ss + [s'], es + [e], ReturnOf(c, q), lo, |es|);
  }

  // Two tokens a day for the user, and clock and dates of an ordinary midnight.
  ghost predicate Ordinary(c: Config, u: User, mode: Mode, midnight: int) {
    && c.userLimit(u, mode) == 2 && c.concurrency(u) == 0
    && c.secondsToMidnight(midnight - 1000) == 1
    && c.date(midnight - OLD_JOB_AGE_MS) != c.date(midnight) && c.date(midnight + 1000) == c.date(midnight)
  }

  // The new day's counter of the user reads n, and no charge of the model has been counted.
  ghost predicate Reads(c: Config, s: State, u: User, mode: Mode, m: Model, midnight: int, n: int) {
    && Val(s.db.counters, UserRpd(u, mode, c.date(midnight))) == n
    && Val(s.db.counters, ModelRpd(m)) == 0
  }

  // Where the old job stands.
  ghost predicate Old(s: State, u: User, mode: Mode, m: Model, pc: Pc, cron: Cron) {
    && 0 in s.jobs && s.jobs[0].pc == pc && s.jobs[0].cron == cron
    && s.jobs[0].info.user == u && s.jobs[0].info.mode == mode && s.jobs[0].info.model == m
    && s.jobs.Keys == {0}
  }

  lemma AdmitOld(c: Config, u: User, mode: Mode, m: Model, midnight: int) returns (ss: seq<State>, es: seq<Event>)
    requires Ordinary(c, u, mode, midnight)
    ensures Run(c, ss, es) && Old(ss[|es|], u, mode, m, Selected, Idle) && Reads(c, ss[|es|], u, mode, m, midnight, 0)
    ensures ss[|es|].now == midnight - OLD_JOB_AGE_MS && Val(ss[|es|].db.counters, Waiting(m)) == 0
    ensures 0 !in ss[|es|].db.metas
  {
    var now := midnight - OLD_JOB_AGE_MS;
    var s := State(EMPTY_DB, now, map[], map[], map[]);
    ss, es := Next(c, [s], [], TryAcquire(0, u, mode, m, m, now));
  }

  lemma SubmitOld(c: Config, ss: seq<State>, es: seq<Event>, u: User, mode: Mode, m: Model, midnight: int)
    returns (ss': seq<State>, es': seq<Event>)
    requires Run(c, ss, es) && Old(ss[|es|], u, mode, m, Selected, Idle) && Reads(c, ss[|es|], u, mode, m, midnight, 0)
    requires Val(ss[|es|].db.counters, Waiting(m)) == 0 && 0 !in ss[|es|].db.metas
    ensures Run(c, ss', es') && Old(ss'[|es'|], u, mode, m, WaitingInQueue, Idle)
    ensures Reads(c, ss'[|es'|], u, mode, m, midnight, 0)
    ensures ss'[|es'|].now == ss[|es|].now == ss'[|es'|].jobs[0].queuedAt && !MetaOf(ss'[|es'|].db, 0).tokensConsumed
  {
    ss', es' := Hazards.GoOn(c, ss, es, 0, Request(IncrWaiting));
    ss', es' := Hazards.GoOn(c, ss', es', 0, Request(CompareAndDecr));
    ss', es' := Hazards.GoOn(c, ss', es', 0, Request(Enqueue));
  }

  // Time passes; the counter of the new day is not there yet, or lives on or not.
  lemma Pass(c: Config, ss: seq<State>, es: seq<Event>, to: int) returns (ss': seq<State>, es': seq<Event>)
    requires Run(c, ss, es) && ss[|es|].now <= to
    ensures Run(c, ss', es') && es' == es + [Tick(to)] && ss' == ss + [AfterTick(ss[|es|], to)]
    ensures forall k :: Val(ss[|es|].db.counters, k) == 0 ==> Val(ss'[|es'|].db.counters, k) == 0
  {
    ss', es' := Next(c, ss, es, Tick(to));
  }

  // The pass of the cron that starts a second before midnight, up to the refund.
  lemma RemoveOld(c: Config, ss: seq<State>, es: seq<Event>, u: User, mode: Mode, m: Model, midnight: int)
    returns (ss': seq<State>, es': seq<Event>)
    requires Run(c, ss, es) && Old(ss[|es|], u, mode, m, WaitingInQueue, Idle) && Reads(c, ss[|es|], u, mode, m, midnight, 0)
    requires ss[|es|].now == midnight - 1000 && ss[|es|].jobs[0].queuedAt == midnight - OLD_JOB_AGE_MS
    requires !MetaOf(ss[|es|].db, 0).tokensConsumed
    ensures Run(c, ss', es') && Old(ss'[|es'|], u, mode, m, RemovedRefunded, Idle)
    ensures Reads(c, ss'[|es'|], u, mode, m, midnight, 0) && ss'[|es'|].now == midnight - 1000
  {
    ss', es' := Hazards.GoOn(c, ss, es, 0, Stale(ListStale));
    ss', es' := Hazards.GoOn(c, ss', es', 0, Stale(ReadStale));
    ss', es' := Hazards.GoOn(c, ss', es', 0, Stale(RemoveStale));
    ss', es' := Hazards.GoOn(c, ss', es', 0, Stale(RefundStale(midnight - 1000)));
  }

  // A request of the user on the new day that finds room.
  lemma Take(c: Config, ss: seq<State>, es: seq<Event>, u: User, mode: Mode, m: Model, midnight: int, j: JobId, n: nat,
             lo: nat, taken: nat, back: nat)
    returns (ss': seq<State>, es': seq<Event>)
    requires Run(c, ss, es) && Ordinary(c, u, mode, midnight) && n < 2 && j !in ss[|es|].jobs && lo <= |es|
    requires Reads(c, ss[|es|], u, mode, m, midnight, n) && c.date(ss[|es|].now) == c.date(midnight)
    requires Tally(c, UserQuota(u, mode, c.date(midnight)), ss, es, lo, taken, back)
    ensures Run(c, ss', es') && ss < ss' && |es'| == |es| + 1 && ss'[|es'|].now == ss[|es|].now
    ensures Reads(c, ss'[|es'|], u, mode, m, midnight, n + 1)
    ensures j in ss'[|es'|].jobs && ss'[|es'|].jobs == ss[|es|].jobs[j := ss'[|es'|].jobs[j]]
    ensures Tally(c, UserQuota(u, mode, c.date(midnight)), ss', es', lo, taken + 1, back)
  {
    var e := TryAcquire(j, u, mode, m, m, ss[|es|].now);
    ss', es' := Next(c, ss, es, e);
    TallyNext(c, UserQuota(u, mode, c.date(midnight)), ss, es, e, Apply(c, ss[|es|], e), lo, taken, back);
  }

  lemma ReleaseIsReturn(c: Config, s: State, e: Event, q: Quota)
    requires Enabled(s, e) && e.OfJob? && e.step.Stale? && e.step.stale.ReleaseStale?
    requires q == UserQuota(s.jobs[e.j].info.user, s.jobs[e.j].info.mode, c.date(s.now))
    ensures ReturnOf(c, q)(s, e) && !TakeOf(c, q)(s, e)
  {}

  // The old job is released on the new day with the TTL of the old one.
  lemma ReleaseCuts(c: Config, s: State, j: JobId, midnight: int, m: Model)
    requires Enabled(s, OfJob(j, Stale(ReleaseStale(midnight - 1000)))) && s.now == midnight
    requires c.secondsToMidnight(midnight - 1000) == 1
    ensures var s' := AfterStep(c, s, j, Stale(ReleaseStale(midnight - 1000)));
            var k := StaleKey(c, midnight, s.jobs[j]);
            && s'.now == midnight && s'.jobs.Keys == s.jobs.Keys
            && k in s'.db.counters && s'.db.counters[k].deadline == Some(midnight + 1000)
            && Val(s'.db.counters, ModelRpd(m)) == Val(s.db.counters, ModelRpd(m))
  {
    ExpirySetsDeadline(c, s, j, midnight - 1000);
  }

  lemma ReleaseOld(c: Config, ss: seq<State>, es: seq<Event>, u: User, mode: Mode, m: Model, midnight: int, lo: nat)
    returns (ss': seq<State>, es': seq<Event>)
    requires Run(c, ss, es) && Ordinary(c, u, mode, midnight) && ss[|es|].now == midnight && lo <= |es|
    requires 0 in ss[|es|].jobs && ss[|es|].jobs[0].pc.RemovedRefunded?
    requires ss[|es|].jobs[0].info.user == u && ss[|es|].jobs[0].info.mode == mode
    requires Reads(c, ss[|es|], u, mode, m, midnight, 2)
    requires Tally(c, UserQuota(u, mode, c.date(midnight)), ss, es, lo, 2, 0)
    ensures Run(c, ss', es') && ss'[|es'|].now == midnight && |es'| == |es| + 1 && ss < ss'
    ensures var k := UserRpd(u, mode, c.date(midnight));
            k in ss'[|es'|].db.counters && ss'[|es'|].db.counters[k].deadline == Some(midnight + 1000)
    ensures Val(ss'[|es'|].db.counters, ModelRpd(m)) == 0 && ss'[|es'|].jobs.Keys == ss[|es|].jobs.Keys
    ensures Tally(c, UserQuota(u, mode, c.date(midnight)), ss', es', lo, 2, 1)
  {
    var e := OfJob(0, Stale(ReleaseStale(midnight - 1000)));
    var q := UserQuota(u, mode, c.date(midnight));
    ss', es' := Next(c, ss, es, e);
    ReleaseCuts(c, ss[|es|], 0, midnight, m);
    ReleaseIsReturn(c, ss[|es|], e, q);
    TallyNext(c, q, ss, es, e, Apply(c, ss[|es|], e), lo, 2, 0);
  }

  // Up to midnight of the new day.
  lemma UntilMidnight(c: Config, u: User, mode: Mode, m: Model, midnight: int) returns (ss: seq<State>, es: seq<Event>)
    requires Ordinary(c, u, mode, midnight)
    ensures Run(c, ss, es) && Old(ss[|es|], u, mode, m, RemovedRefunded, Idle)
    ensures Reads(c, ss[|es|], u, mode, m, midnight, 0) && ss[|es|].now == midnight
  {
    ss, es := AdmitOld(c, u, mode, m, midnight);
    ss, es := SubmitOld(c, ss, es, u, mode, m, midnight);
    ss, es := Pass(c, ss, es, midnight - 1000);
    ss, es := RemoveOld(c, ss, es, u, mode, m, midnight);
    ss, es := Pass(c, ss, es, midnight);
  }

  // A second after midnight the counter is gone.
  lemma SecondLater(c: Config, ss: seq<State>, es: seq<Event>, u: User, mode: Mode, m: Model, midnight: int, lo: nat)
    returns (ss': seq<State>, es': seq<Event>)
    requires Run(c, ss, es) && ss[|es|].now == midnight && lo <= |es|
    requires var k := UserRpd(u, mode, c.date(midnight));
             k in ss[|es|].db.counters && ss[|es|].db.counters[k].deadline == Some(midnight + 1000)
    requires Val(ss[|es|].db.counters, ModelRpd(m)) == 0
    requires Tally(c, UserQuota(u, mode, c.date(midnight)), ss, es, lo, 2, 1)
    ensures Run(c, ss', es') && ss'[|es'|].now == midnight + 1000 && Reads(c, ss'[|es'|], u, mode, m, midnight, 0)
    ensures |es'| == |es| + 1 && ss < ss' && ss'[|es'|].jobs == ss[|es|].jobs
    ensures Tally(c, UserQuota(u, mode, c.date(midnight)), ss', es', lo, 2, 1)
  {
    ss', es' := Pass(c, ss, es, midnight + 1000);
    TickEnds(ss[|es|], UserRpd(u, mode, c.date(midnight)), midnight + 1000);
    TallyNext(c, UserQuota(u, mode, c.date(midnight)), ss, es, Tick(midnight + 1000), AfterTick(ss[|es|], midnight + 1000), lo, 2, 1);
  }

  // In the first second of a day that a late pass of the cron reaches, a user with a quota of
  // two acquires four tokens, although only one is given back.
  lemma QuotaIsExceeded(c: Config, u: User, mode: Mode, m: Model, midnight: int)
    returns (ss: seq<State>, es: seq<Event>, lo: nat)
    requires Ordinary(c, u, mode, midnight)
    ensures Run(c, ss, es) && lo <= |es| && ss[lo].now == midnight && ss[|es|].now == midnight + 1000
    ensures var q := UserQuota(u, mode, c.date(midnight));
            && LimitOf(c, q) == 2
            && Events(ss, es, TakeOf(c, q), lo, |es|) == 4 && Events(ss, es, ReturnOf(c, q), lo, |es|) == 1
  {
    ss, es := UntilMidnight(c, u, mode, m, midnight);
    lo := |es|;
    ss, es := Take(c, ss, es, u, mode, m, midnight, 1, 0, lo, 0, 0);
    ss, es := Take(c, ss, es, u, mode, m, midnight, 2, 1, lo, 1, 0);
    ss, es := ReleaseOld(c, ss, es, u, mode, m, midnight, lo);
    ss, es := SecondLater(c, ss, es, u, mode, m, midnight, lo);
    ss, es := Take(c, ss, es, u, mode, m, midnight, 3, 0, lo, 2, 1);
    ss, es := Take(c, ss, es, u, mode, m, midnight, 4, 1, lo, 3, 1);
  }
}
