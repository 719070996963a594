/** Counting the events of a run where they occur, independently of the history kept in the
    state, and the events in which the environment is at its worst: a job with a result that is
    taken up again, a listener that takes the failure of an attempt for the last one, and an
    expiry that comes after the job has left the queue. */
module EventCounts {
  import opened Redis
  import opened Lifecycle

  // The number of events i in [lo, hi) with p(ss[i], es[i]).
  ghost function Events(ss: seq<State>, es: seq<Event>, p: (State, Event) -> bool, lo: nat, hi: nat): nat
    requires lo <= hi <= |es| < |ss|
  {
    if lo == hi then 0
    else Events(ss, es, p, lo, hi - 1) + (if p(ss[hi - 1], es[hi - 1]) then 1 else 0)
  }

  lemma {:induction false} EventsSplit(ss: seq<State>, es: seq<Event>, p: (State, Event) -> bool, lo: nat, mid: nat, hi: nat)
    requires lo <= mid <= hi <= |es| < |ss|
    ensures Events(ss, es, p, lo, hi) == Events(ss, es, p, lo, mid) + Events(ss, es, p, mid, hi)
  {
    if mid < hi {
      EventsSplit(ss, es, p, lo, mid, hi - 1);
    }
  }

  lemma ExtendRun(c: Config, ss: seq<State>, es: seq<Event>, e: Event)
    requires Run(c, ss, es) && Enabled(ss[|es|], e)
    ensures Run(c, ss + [Apply(c, ss[|es|], e)], es + [e])
  {
    var ss', es' := ss + [Apply(c, ss[|es|], e)], es + [e];
    forall i: nat | i < |es'|
      ensures StepAt(c, ss', es', i)
    {
      assert i < |es| ==> StepAt(c, ss, es, i);
    }
  }

  ghost predicate IsStepOf(s: State, e: Event, j: JobId) { e.OfJob? && e.j == j && j in s.jobs }

  // The listener does not find the job, because the expiry cron has removed it.
  ghost predicate Misses(e: JobStep) { e == Fail(FindMissing) }

  // A job with a result is taken up again: its worker dies after writing it, or the listener
  // does not find the expired job.
  ghost predicate Revives(v: View, e: JobStep) {
    Settled(v.job.pc) && ((e.Work? && e.work.WorkerDies?) || Misses(e))
  }

  // The expiry writes its result for a job that had left the queue by itself.
  ghost predicate WritesLate(v: View, e: JobStep) {
    e.Stale? && e.stale.ReleaseStale? && !v.job.pc.RemovedRefunded?
  }

  // The expiry returns the tokens of such a job.
  ghost predicate RefundsLate(v: View, e: JobStep) {
    e.Stale? && e.stale.RefundStale? && !v.job.pc.Removed? && v.job.cron.LateRemoved? && StaleRefunds(v.job)
  }

  ghost function RevivalOf(j: JobId): (State, Event) -> bool {
    (s: State, e: Event) => IsStepOf(s, e, j) && Revives(ViewOf(s, j), e.step)
  }

  ghost function MissOf(j: JobId): (State, Event) -> bool {
    (s: State, e: Event) => IsStepOf(s, e, j) && Misses(e.step)
  }

  ghost function LateWriteOf(j: JobId): (State, Event) -> bool {
    (s: State, e: Event) => IsStepOf(s, e, j) && WritesLate(ViewOf(s, j), e.step)
  }

  ghost function LateRefundOf(j: JobId): (State, Event) -> bool {
    (s: State, e: Event) => IsStepOf(s, e, j) && RefundsLate(ViewOf(s, j), e.step)
  }
}
