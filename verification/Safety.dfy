/** What holds in every state of every run: the invariants of the other modules together, and
    the guarantees a caller of the service can rely on. */
module Safety {
  import opened Redis
  import opened Counting
  import opened Lifecycle
  import opened JobInvariant
  import opened EventCounts
  import WaitingCounter
  import Concurrency
  import QuotaLedger

  ghost predicate Good(c: Config, s: State) {
    && Local(s)
    && WaitingCounter.CountersPersist(s)
    && Concurrency.LocksOk(c, s)
    && QuotaLedger.LedgersOk(c, s)
  }

  lemma InitIsGood(c: Config, s: State)
    requires Init(s)
    ensures Good(c, s)
  {}

  lemma StepKeepsGood(c: Config, s: State, e: Event)
    requires Good(c, s) && Enabled(s, e)
    ensures Good(c, Apply(c, s, e))
  {
    StepKeepsLocal(c, s, e);
    WaitingCounter.StepKeepsPersistent(c, s, e);
    Concurrency.StepKeepsLocks(c, s, e);
    QuotaLedger.StepKeepsLedgers(c, s, e);
  }

  lemma {:induction false} RunIsGood(c: Config, ss: seq<State>, es: seq<Event>, i: nat)
    requires Run(c, ss, es) && i < |ss|
    ensures Good(c, ss[i])
  {
    if i == 0 {
      InitIsGood(c, ss[0]);
    } else {
      RunIsGood(c, ss, es, i - 1);
      assert StepAt(c, ss, es, i - 1);
      StepKeepsGood(c, ss[i - 1], es[i - 1]);
    }
  }

  // ---- backlog ---------------------------------------------------------------------

  // The requests and jobs of a model that occupy its backlog.
  ghost function Occupants(s: State, m: Model): set<JobId> {
    set j | j in s.jobs && s.jobs[j].info.model == m && HoldsSlot(s.jobs[j].pc)
  }

  // queue:waiting:{model} is their number.
  ghost predicate Exact(s: State, m: Model) {
    Val(s.db.counters, Waiting(m)) == |Occupants(s, m)|
  }

  lemma BacklogIsCounted(s: State, m: Model)
    ensures WaitingCounter.Gap(s, m) == Val(s.db.counters, Waiting(m)) - |Occupants(s, m)|
  {
    assert Matching(s.jobs, WaitingCounter.SlotOf(m)) == Occupants(s, m);
  }

  lemma RunStepMovesGap(c: Config, ss: seq<State>, es: seq<Event>, i: nat, m: Model)
    requires Run(c, ss, es) && i < |es| && WaitingCounter.Gap(ss[i], m) >= 0
    ensures WaitingCounter.Gap(ss[i + 1], m) == WaitingCounter.Gap(ss[i], m)
         + Ind(WaitingCounter.AbandonOf(m)(ss[i], es[i])) - Ind(WaitingCounter.UndercountOf(m)(ss[i], es[i]))
  {
    RunIsGood(c, ss, es, i);
    assert StepAt(c, ss, es, i);
    WaitingCounter.EventMovesGap(c, ss[i], es[i], m);
  }

  // Without undercounting, the counter is above the backlog by the abandoned places.
  lemma {:induction false} GapIsAbandoned(c: Config, ss: seq<State>, es: seq<Event>, n: nat, m: Model)
    requires Run(c, ss, es) && n <= |es| && Events(ss, es, WaitingCounter.UndercountOf(m), 0, n) == 0
    ensures WaitingCounter.Gap(ss[n], m) == Events(ss, es, WaitingCounter.AbandonOf(m), 0, n)
  {
    if n > 0 {
      GapIsAbandoned(c, ss, es, n - 1, m);
      RunStepMovesGap(c, ss, es, n - 1, m);
    }
  }

  lemma {:induction false} DriftsAreBoth(ss: seq<State>, es: seq<Event>, n: nat, m: Model)
    requires n <= |es| < |ss|
    ensures Events(ss, es, WaitingCounter.DriftOf(m), 0, n)
         == Events(ss, es, WaitingCounter.AbandonOf(m), 0, n) + Events(ss, es, WaitingCounter.UndercountOf(m), 0, n)
  {
    if n > 0 {
      DriftsAreBoth(ss, es, n - 1, m);
      WaitingCounter.DriftsApart(ss[n - 1], es[n - 1], m);
    }
  }

  lemma {:induction false} ExactMeansNoDrift(c: Config, ss: seq<State>, es: seq<Event>, n: nat, m: Model)
    requires Run(c, ss, es) && n <= |es| && forall i: nat :: i <= n ==> Exact(ss[i], m)
    ensures Events(ss, es, WaitingCounter.DriftOf(m), 0, n) == 0
  {
    if n > 0 {
      ExactMeansNoDrift(c, ss, es, n - 1, m);
      assert Exact(ss[n - 1], m) && Exact(ss[n], m);
      BacklogIsCounted(ss[n - 1], m);
      BacklogIsCounted(ss[n], m);
      RunStepMovesGap(c, ss, es, n - 1, m);
      WaitingCounter.DriftsApart(ss[n - 1], es[n - 1], m);
    }
  }

  lemma NoDriftMeansExact(c: Config, ss: seq<State>, es: seq<Event>, n: nat, i: nat, m: Model)
    requires Run(c, ss, es) && i <= n <= |es| && Events(ss, es, WaitingCounter.DriftOf(m), 0, n) == 0
    ensures Exact(ss[i], m)
  {
    EventsSplit(ss, es, WaitingCounter.DriftOf(m), 0, i, n);
    DriftsAreBoth(ss, es, i, m);
    GapIsAbandoned(c, ss, es, i, m);
    BacklogIsCounted(ss[i], m);
  }

  // The counter is exact through a run if and only if no step of it abandons a place of the
  // model, releases one that nobody holds, or takes up a finished job again; abandoned places
  // alone leave it too high by their number.
  lemma WaitingCounterConserved(c: Config, ss: seq<State>, es: seq<Event>, n: nat, m: Model)
    requires Run(c, ss, es) && n <= |es|
    ensures (forall i: nat :: i <= n ==> Exact(ss[i], m)) <==> Events(ss, es, WaitingCounter.DriftOf(m), 0, n) == 0
    ensures Events(ss, es, WaitingCounter.UndercountOf(m), 0, n) == 0 ==>
      Val(ss[n].db.counters, Waiting(m)) == |Occupants(ss[n], m)| + Events(ss, es, WaitingCounter.AbandonOf(m), 0, n)
  {
    if Events(ss, es, WaitingCounter.DriftOf(m), 0, n) == 0 {
      forall i: nat | i <= n ensures Exact(ss[i], m) {
        NoDriftMeansExact(c, ss, es, n, i, m);
      }
    } else if forall i: nat :: i <= n ==> Exact(ss[i], m) {
      ExactMeansNoDrift(c, ss, es, n, m);
    }
    if Events(ss, es, WaitingCounter.UndercountOf(m), 0, n) == 0 {
      GapIsAbandoned(c, ss, es, n, m);
      BacklogIsCounted(ss[n], m);
    }
  }

  // As long as nothing undercounts, every decrement for a job that holds a place finds a
  // positive counter: neither the clamped nor the plain one can lose or invent a place. Any
  // other decrement is clamped exactly at zero.
  lemma DecrementsNeverClamp(c: Config, ss: seq<State>, es: seq<Event>, i: nat, m: Model)
    requires Run(c, ss, es) && i < |es| && es[i].OfJob? && StepAt(c, ss, es, i)
    requires Events(ss, es, WaitingCounter.UndercountOf(m), 0, i) == 0
    requires WaitingCounter.Change(CommandOf(c, ss[i].now, ViewOf(ss[i], es[i].j), es[i].step), Waiting(m)) < 0
    ensures var n, n' := Val(ss[i].db.counters, Waiting(m)), Val(ss[i + 1].db.counters, Waiting(m));
            && (n > 0 ==> n' == n - 1)
            && (n <= 0 ==> n == n' == 0 && WaitingCounter.ReleasesForeign(ViewOf(ss[i], es[i].j), es[i].step, m))
  {
    GapIsAbandoned(c, ss, es, i, m);
    DecrementFindsPlace(c, ss[i], es[i].j, es[i].step, m);
  }

  lemma LoweredForHolder(c: Config, s: State, v: View, e: JobStep, m: Model)
    requires EnabledStep(s.now, v, e) && WaitingCounter.Change(CommandOf(c, s.now, v, e), Waiting(m)) < 0
    ensures WaitingCounter.ReleasesForeign(v, e, m)
         || (m == v.job.info.model && HoldsSlot(v.job.pc))
    ensures WaitingCounter.ReleasesForeign(v, e, m) ==> !CommandOf(c, s.now, v, e).Increment?
  {}

  lemma DecrementFindsPlace(c: Config, s: State, j: JobId, e: JobStep, m: Model)
    requires Enabled(s, OfJob(j, e)) && WaitingCounter.Gap(s, m) >= 0
    requires WaitingCounter.Change(CommandOf(c, s.now, ViewOf(s, j), e), Waiting(m)) < 0
    ensures var n, n' := Val(s.db.counters, Waiting(m)), Val(AfterStep(c, s, j, e).db.counters, Waiting(m));
            && (n > 0 ==> n' == n - 1)
            && (n <= 0 ==> n == n' == 0 && WaitingCounter.ReleasesForeign(ViewOf(s, j), e, m))
  {
    var v := ViewOf(s, j);
    LoweredForHolder(c, s, v, e, m);
    WaitingCounter.CoveredByGap(s, j, m);
    WaitingCounter.ExpiryNamesUserKey(c, s, v, e);
    WaitingCounter.SendMovesCounter(c, s.db.counters, s.now, CommandOf(c, s.now, v, e), m);
  }

  lemma {:induction false} RunKeepsBound(c: Config, ss: seq<State>, es: seq<Event>, n: nat, m: Model)
    requires Run(c, ss, es) && n <= |es| && Events(ss, es, WaitingCounter.UndercountOf(m), 0, n) == 0
    ensures WaitingCounter.Bounded(c, ss[n].jobs, m)
  {
    if n > 0 {
      RunKeepsBound(c, ss, es, n - 1, m);
      GapIsAbandoned(c, ss, es, n - 1, m);
      assert StepAt(c, ss, es, n - 1);
      WaitingCounter.StepKeepsBacklog(c, ss[n - 1], es[n - 1], m);
    }
  }

  // Increment-then-compare never lets more jobs into a model's backlog than its bound, as long
  // as nothing undercounts; places that were abandoned only make room for fewer.
  lemma BacklogNeverExceedsBound(c: Config, ss: seq<State>, es: seq<Event>, n: nat, m: Model)
    requires Run(c, ss, es) && n <= |es| && Events(ss, es, WaitingCounter.UndercountOf(m), 0, n) == 0
    ensures |WaitingCounter.BackloggedJobs(ss[n].jobs, m)| <= c.MaxQueueLength(m, Hard)
         || |WaitingCounter.BackloggedJobs(ss[n].jobs, m)| <= c.MaxQueueLength(m, Lite)
  {
    RunKeepsBound(c, ss, es, n, m);
    WaitingCounter.BackloggedWithinBound(c, ss[n], m);
  }

  // ---- concurrency -----------------------------------------------------------------

  // A user's jobs that were admitted within the last LOCK_TTL seconds and have no result yet
  // all hold their slot, and there are at most max_concurrency of them.
  lemma ConcurrencyBound(c: Config, ss: seq<State>, es: seq<Event>, i: nat, u: User)
    requires Run(c, ss, es) && i < |ss| && c.concurrency(u) > 0
    ensures var s := ss[i];
            var young := set j | j in s.jobs && s.jobs[j].info.user == u && j !in s.db.results && j !in s.rows
                                 && s.now < s.jobs[j].info.askedAt + LOCK_TTL * 1000;
            young <= LocksOf(s.db.locks, u).Keys && |young| <= c.concurrency(u)
  {
    RunIsGood(c, ss, es, i);
    var s := ss[i];
    var young := set j | j in s.jobs && s.jobs[j].info.user == u && j !in s.db.results && j !in s.rows
                         && s.now < s.jobs[j].info.askedAt + LOCK_TTL * 1000;
    forall j | j in young ensures j in Concurrency.YoungJobs(s, u) {
      assert WritesOk(ViewOf(s, j));
    }
    Concurrency.YoungAtMostLimit(c, s, u);
    SubsetSize(young, Concurrency.YoungJobs(s, u));
  }

  // ---- daily quotas ----------------------------------------------------------------

  // Since the counter's key last expired: the counter is grants minus returns when every
  // refund went to the key that granted the token, and short of that by at most the others.
  // The tokens still held are the grants that were neither returned nor leaked.
  lemma DailyCounterMatchesLedger(c: Config, ss: seq<State>, es: seq<Event>, i: nat, q: QuotaLedger.Quota)
    requires Run(c, ss, es) && i < |ss|
    ensures var s := ss[i];
            var b := BookOf(s, QuotaLedger.KeyOf(q));
            var n := Val(s.db.counters, QuotaLedger.KeyOf(q));
            var held := set j | j in s.jobs && QuotaLedger.Holds(q, b.life, s.jobs[j]);
            && b.granted - b.returned - b.foreign <= n <= b.granted - b.returned
            && (b.foreign == 0 ==> n == |held| + b.leaked)
            && b.granted == |held| + b.returned + b.leaked
            && (QuotaLedger.LimitOf(c, q) > 0 ==>
                  n <= QuotaLedger.LimitOf(c, q)
                  && b.granted <= QuotaLedger.LimitOf(c, q) + b.returned + b.foreign)
  {
    RunIsGood(c, ss, es, i);
    var s := ss[i];
    var b := BookOf(s, QuotaLedger.KeyOf(q));
    assert QuotaLedger.Balance(c, s.db.counters, s.books, s.jobs, q);
    assert Matching(s.jobs, QuotaLedger.Holder(q, b.life))
        == set j | j in s.jobs && QuotaLedger.Holds(q, b.life, s.jobs[j]);
  }
}
