/** Who is turned away, and why. A counter tells what was taken since its key last began to
    live, short by no more than what was given back. So a job is delayed, fails for the day, or a
    request is refused, only if the whole limit was taken in that life; and it is, if the limit
    was taken beyond what was given back. */
module Gates {
  import opened Redis
  import opened Counting
  import opened Lifecycle
  import opened JobInvariant
  import opened EventCounts
  import Safety
  import RpmWindow
  import QuotaLedger
  import DayQuota
  import Handlers

  // The limited counters: model:{model}:rpm, model:{model}:rpd and user:{user}:rpd:{mode}:{date}.
  datatype Gauge = Minute(model: Model) | Day(quota: QuotaLedger.Quota)

  function KeyOf(g: Gauge): Key {
    match g
    case Minute(m) => ModelRpm(m)
    case Day(q) => QuotaLedger.KeyOf(q)
  }

  ghost function TakeOf(c: Config, g: Gauge): (State, Event) -> bool {
    match g
    case Minute(m) => RpmWindow.ModelChargeOf(c, m)
    case Day(q) => DayQuota.TakeOf(c, q)
  }

  ghost function ReturnOf(c: Config, g: Gauge): (State, Event) -> bool {
    match g
    case Minute(m) => RpmWindow.ModelRefundOf(c, m)
    case Day(q) => DayQuota.ReturnOf(c, q)
  }

  // The key was missing in ss[lo] and has been there ever since.
  ghost predicate LivesSince(ss: seq<State>, k: Key, lo: nat, hi: nat) {
    lo <= hi < |ss| && k !in ss[lo].db.counters && forall i :: lo < i <= hi ==> k in ss[i].db.counters
  }

  ghost predicate Between(n: int, taken: nat, back: nat) { taken - back <= n <= taken }

  lemma DayEntry(n: int, entry: QuotaLedger.Entry)
    requires 0 <= n
    ensures Between(QuotaLedger.NewValue(n, entry) - n, Ind(entry == QuotaLedger.Grant), Ind(DayQuota.IsReturn(entry)))
  {}

  lemma DayStep(c: Config, s: State, e: Event, q: QuotaLedger.Quota)
    requires Local(s) && Enabled(s, e) && 0 <= Val(s.db.counters, QuotaLedger.KeyOf(q))
    requires QuotaLedger.KeyOf(q) in s.db.counters ==> QuotaLedger.KeyOf(q) in Apply(c, s, e).db.counters
    ensures Between(Val(Apply(c, s, e).db.counters, QuotaLedger.KeyOf(q)) - Val(s.db.counters, QuotaLedger.KeyOf(q)),
                    Ind(DayQuota.TakeOf(c, q)(s, e)), Ind(DayQuota.ReturnOf(c, q)(s, e)))
  {
    DayEntry(Val(s.db.counters, QuotaLedger.KeyOf(q)), DayQuota.EventEntry(c, s, e, q));
    if e.OfJob? {
      QuotaLedger.EntryMovesCounter(c, s, ViewOf(s, e.j), e.step, q);
    } else if e.TryAcquire? {
      QuotaLedger.AcquireMovesCounter(c, s, e, q);
    }
  }

  lemma MinuteStep(c: Config, s: State, e: Event, m: Model)
    requires Local(s) && Enabled(s, e) && 0 <= Val(s.db.counters, ModelRpm(m))
    requires ModelRpm(m) in s.db.counters ==> ModelRpm(m) in Apply(c, s, e).db.counters
    ensures Between(Val(Apply(c, s, e).db.counters, ModelRpm(m)) - Val(s.db.counters, ModelRpm(m)),
                    Ind(RpmWindow.ModelChargeOf(c, m)(s, e)), Ind(RpmWindow.ModelRefundOf(c, m)(s, e)))
  {
    match e
    case OfJob(j, step) =>
      RpmWindow.CommandKeys(c, s, ViewOf(s, j), step);
      RpmWindow.SendMovesRpm(c, s.db.counters, s.now, CommandOf(c, s.now, ViewOf(s, j), step), m);
    case TryAcquire(_, _, _, _, _, _) => RpmWindow.AcquireLeavesRpm(c, s, e, m);
    case Tick(_) =>
    case CleanLocks(_, _) =>
  }

  lemma StepMovesGauge(c: Config, ss: seq<State>, es: seq<Event>, i: nat, g: Gauge)
    requires Run(c, ss, es) && i < |es|
    requires KeyOf(g) in ss[i].db.counters ==> KeyOf(g) in ss[i + 1].db.counters
    ensures Between(Val(ss[i + 1].db.counters, KeyOf(g)) - Val(ss[i].db.counters, KeyOf(g)),
                    Ind(TakeOf(c, g)(ss[i], es[i])), Ind(ReturnOf(c, g)(ss[i], es[i])))
  {
    Safety.RunIsGood(c, ss, es, i);
    assert StepAt(c, ss, es, i);
    match g
    case Minute(m) =>
      RpmWindow.RunKeepsRpm(c, ss, es, i, m);
      MinuteStep(c, ss[i], es[i], m);
    case Day(q) =>
      DayQuota.BalanceAt(c, ss, es, q, i);
      DayStep(c, ss[i], es[i], q);
  }

  lemma {:induction false} GaugeCountsItsLife(c: Config, ss: seq<State>, es: seq<Event>, g: Gauge, lo: nat, hi: nat)
    requires Run(c, ss, es) && LivesSince(ss, KeyOf(g), lo, hi)
    ensures Between(Val(ss[hi].db.counters, KeyOf(g)), Events(ss, es, TakeOf(c, g), lo, hi),
                    Events(ss, es, ReturnOf(c, g), lo, hi))
  {
    if lo < hi {
      GaugeCountsItsLife(c, ss, es, g, lo, hi - 1);
      StepMovesGauge(c, ss, es, hi - 1, g);
    }
  }

  // The last state up to n without the key: its present life began after it.
  ghost function BirthOf(ss: seq<State>, k: Key, n: nat): (lo: nat)
    requires n < |ss|
    ensures lo <= n
  {
    if n == 0 || k !in ss[n].db.counters then n else BirthOf(ss, k, n - 1)
  }

  // No counter is there at first.
  lemma {:induction false} KeyLivesSinceBirth(c: Config, ss: seq<State>, es: seq<Event>, k: Key, n: nat)
    requires Run(c, ss, es) && n < |ss|
    ensures LivesSince(ss, k, BirthOf(ss, k, n), n)
  {
    if n > 0 && k in ss[n].db.counters {
      KeyLivesSinceBirth(c, ss, es, k, n - 1);
    }
  }

  // What was taken and given back in the life that the counter has in ss[n].
  ghost function Taken(c: Config, ss: seq<State>, es: seq<Event>, g: Gauge, n: nat): nat
    requires n <= |es| < |ss|
  {
    Events(ss, es, TakeOf(c, g), BirthOf(ss, KeyOf(g), n), n)
  }

  ghost function GivenBack(c: Config, ss: seq<State>, es: seq<Event>, g: Gauge, n: nat): nat
    requires n <= |es| < |ss|
  {
    Events(ss, es, ReturnOf(c, g), BirthOf(ss, KeyOf(g), n), n)
  }

  lemma GaugeTellsItsLife(c: Config, ss: seq<State>, es: seq<Event>, g: Gauge, n: nat)
    requires Run(c, ss, es) && n < |ss|
    ensures LivesSince(ss, KeyOf(g), BirthOf(ss, KeyOf(g), n), n)
    ensures Taken(c, ss, es, g, n) - GivenBack(c, ss, es, g, n) <= Val(ss[n].db.counters, KeyOf(g)) <= Taken(c, ss, es, g, n)
  {
    KeyLivesSinceBirth(c, ss, es, KeyOf(g), n);
    GaugeCountsItsLife(c, ss, es, g, BirthOf(ss, KeyOf(g), n), n);
  }

  // ---- who is turned away --------------------------------------------------------------

  // The limit was taken, or it was taken beyond what was given back.
  ghost predicate UsedUp(c: Config, ss: seq<State>, es: seq<Event>, g: Gauge, limit: nat, n: nat)
    requires n <= |es| < |ss|
  {
    limit > 0 && Taken(c, ss, es, g, n) >= limit
  }

  ghost predicate UsedUpForGood(c: Config, ss: seq<State>, es: seq<Event>, g: Gauge, limit: nat, n: nat)
    requires n <= |es| < |ss|
  {
    limit > 0 && Taken(c, ss, es, g, n) >= limit + GivenBack(c, ss, es, g, n)
  }

  // A request finds no token for its user, or a model without one, only if the whole limit was
  // taken since the key began to live, and always if it was not given back.
  lemma RefusalIsDue(c: Config, ss: seq<State>, es: seq<Event>, n: nat, q: Handlers.Wish, m: Model)
    requires Run(c, ss, es) && n < |ss|
    ensures var user, limit := Day(QuotaLedger.UserQuota(q.user, q.mode, c.date(q.askedAt))), c.userLimit(q.user, q.mode);
            && (!Handlers.HasToken(c, ss[n], q) ==> UsedUp(c, ss, es, user, limit, n))
            && (UsedUpForGood(c, ss, es, user, limit, n) ==> !Handlers.HasToken(c, ss[n], q))
    ensures var day := Day(QuotaLedger.ModelQuota(m));
            && (!Handlers.HasRoom(c, ss[n], m) ==> UsedUp(c, ss, es, day, c.rpd(m), n))
            && (UsedUpForGood(c, ss, es, day, c.rpd(m), n) ==> !Handlers.HasRoom(c, ss[n], m))
  {
    GaugeTellsItsLife(c, ss, es, Day(QuotaLedger.UserQuota(q.user, q.mode, c.date(q.askedAt))), n);
    GaugeTellsItsLife(c, ss, es, Day(QuotaLedger.ModelQuota(m)), n);
  }

  lemma ConsumeMoves(c: Config, s: State, j: JobId)
    requires Enabled(s, OfJob(j, Work(Consume))) && s.jobs[j].pc == Marked(false)
    ensures var m := s.jobs[j].info.model;
            var s' := Apply(c, s, OfJob(j, Work(Consume)));
            var minute, day := Val(s.db.counters, ModelRpm(m)), Val(s.db.counters, ModelRpd(m));
            && j in s'.jobs
            && s'.jobs[j].pc == (if 0 < c.rpm(m) <= minute then RpmBlocked
                                 else if 0 < c.rpd(m) <= day then RpdBlocked
                                 else Granted)
            && (s'.jobs[j].pc.Granted? ==>
                  Val(s'.db.counters, ModelRpm(m)) == minute + 1 && Val(s'.db.counters, ModelRpd(m)) == day + 1)
            && (!s'.jobs[j].pc.Granted? ==> s'.db.counters == s.db.counters)
  {
    StepDbCounters(c, s, j);
  }

  lemma StepDbCounters(c: Config, s: State, j: JobId)
    requires Enabled(s, OfJob(j, Work(Consume))) && s.jobs[j].pc == Marked(false)
    ensures AfterStep(c, s, j, Work(Consume)).db.counters
         == ConsumeExecutionLimits(s.db.counters, s.now, ConsumeArgsFor(c, s.jobs[j].info.model, s.now))
  {}

  // A job that asks for its tokens is delayed only if the model was charged rpm times since its
  // minute key began to live, and fails for the day only if it was charged rpd times since its
  // day key did; it is turned away whenever so many charges were not given back, and charged
  // to both counters otherwise.
  lemma DelayIsDue(c: Config, ss: seq<State>, es: seq<Event>, n: nat, j: JobId)
    requires Run(c, ss, es) && n < |es| && es[n] == OfJob(j, Work(Consume))
    requires j in ss[n].jobs && ss[n].jobs[j].pc == Marked(false)
    ensures j in ss[n + 1].jobs
    ensures var m, pc := ss[n].jobs[j].info.model, ss[n + 1].jobs[j].pc;
            var minute, day := Minute(m), Day(QuotaLedger.ModelQuota(m));
            && (pc.RpmBlocked? || pc.RpdBlocked? || pc.Granted?)
            && (pc.RpmBlocked? ==> UsedUp(c, ss, es, minute, c.rpm(m), n))
            && (UsedUpForGood(c, ss, es, minute, c.rpm(m), n) ==> pc.RpmBlocked?)
            && (pc.RpdBlocked? ==> UsedUp(c, ss, es, day, c.rpd(m), n))
            && (UsedUpForGood(c, ss, es, day, c.rpd(m), n) ==> !pc.Granted?)
            && (pc.Granted? ==> Val(ss[n + 1].db.counters, ModelRpm(m)) == Val(ss[n].db.counters, ModelRpm(m)) + 1)
            && (pc.Granted? ==> Val(ss[n + 1].db.counters, ModelRpd(m)) == Val(ss[n].db.counters, ModelRpd(m)) + 1)
  {
    var m := ss[n].jobs[j].info.model;
    assert StepAt(c, ss, es, n);
    ConsumeMoves(c, ss[n], j);
    GaugeTellsItsLife(c, ss, es, Minute(m), n);
    GaugeTellsItsLife(c, ss, es, Day(QuotaLedger.ModelQuota(m)), n);
  }
}
