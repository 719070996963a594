/** `src/cron/utils/runWithLock.ts`: a cron job runs in the process that sets a lock key with a
    time to live, and the process deletes the key afterwards, whoever owns it by then. */
module CronLock {
  import opened Redis

  const LOCK_SAFETY_MS := 10000

  type Process = nat

  // The key of one cron job; the owner is not stored in Redis, where every value is '1'.
  datatype Lock = Lock(deadline: int, owner: Process)

  // `inside` maps the processes between their SET and their DEL to the time of the SET.
  datatype State = State(now: int, lock: Option<Lock>, inside: map<Process, int>)

  // A process that dies inside leaves its lock to expire.
  datatype Event = Tick(to: int) | Enter(p: Process) | Leave(p: Process) | Die(p: Process)

  // SET key '1' PX ttlMs + 10 s NX fails while the key is there.
  predicate Taken(s: State) { s.lock.Some? && s.now < s.lock.value.deadline }

  predicate Enabled(s: State, e: Event) {
    match e
    case Tick(to) => s.now <= to
    case Enter(p) => p !in s.inside
    case Leave(p) => p in s.inside
    case Die(p) => p in s.inside
  }

  function Apply(ttlMs: int, s: State, e: Event): State
    requires Enabled(s, e)
  {
    match e
    case Tick(to) => s.(now := to)
    case Enter(p) =>
      if Taken(s) then s
      else s.(lock := Some(Lock(s.now + ttlMs + LOCK_SAFETY_MS, p)), inside := s.inside[p := s.now])
    case Leave(p) => s.(lock := None, inside := s.inside - {p})
    case Die(p) => s.(inside := s.inside - {p})
  }

  ghost predicate Run(ttlMs: int, ss: seq<State>, es: seq<Event>) {
    |ss| == |es| + 1 && ss[0].lock.None? && ss[0].inside == map[]
    && forall i :: 0 <= i < |es| ==> Enabled(ss[i], es[i]) && ss[i + 1] == Apply(ttlMs, ss[i], es[i])
  }

  // No process is inside for ttlMs + 10 s or longer.
  predicate InTime(ttlMs: int, s: State) {
    forall p :: p in s.inside ==> s.now < s.inside[p] + ttlMs + LOCK_SAFETY_MS
  }

  // At most one process is inside and the key is its own.
  ghost predicate Exclusive(ttlMs: int, s: State) {
    && (forall p, q :: p in s.inside && q in s.inside ==> p == q)
    && (forall p :: p in s.inside ==> s.lock == Some(Lock(s.inside[p] + ttlMs + LOCK_SAFETY_MS, p)))
  }

  lemma StepExcludes(ttlMs: int, s: State, e: Event)
    requires Exclusive(ttlMs, s) && InTime(ttlMs, s) && Enabled(s, e)
    ensures Exclusive(ttlMs, Apply(ttlMs, s, e))
  {}

  // When every run ends in time, the cron job never runs twice at once, and every DEL removes
  // the lock of the process that sends it.
  lemma {:induction false} RunExcludes(ttlMs: int, ss: seq<State>, es: seq<Event>, i: nat)
    requires Run(ttlMs, ss, es) && i < |ss|
    requires forall k :: 0 <= k < i ==> InTime(ttlMs, ss[k])
    ensures Exclusive(ttlMs, ss[i])
    ensures i < |es| && es[i].Leave? ==> ss[i].lock.Some? && ss[i].lock.value.owner == es[i].p
  {
    if i > 0 {
      RunExcludes(ttlMs, ss, es, i - 1);
      StepExcludes(ttlMs, ss[i - 1], es[i - 1]);
    }
  }

  // Being in time is needed at every moment: while one process is inside, another one gets in
  // exactly when the first has overrun.
  lemma SecondEntersOnOverrun(ttlMs: int, s: State, p: Process, q: Process)
    requires Exclusive(ttlMs, s) && p in s.inside && q != p
    ensures Enabled(s, Enter(q)) && (p in Apply(ttlMs, s, Enter(q)).inside && q in Apply(ttlMs, s, Enter(q)).inside <==> !InTime(ttlMs, s))
    ensures !InTime(ttlMs, s) ==>
      var two := Apply(ttlMs, s, Enter(q));
      two.lock.Some? && two.lock.value.owner == q && Apply(ttlMs, two, Leave(p)).lock == None
  {}

  /** The same machine as an object that the processes share. */
  class Cluster {
    var now: int
    var lock: Option<Lock>
    var inside: map<Process, int>

    ghost function AsState(): State
      reads this
    {
      State(now, lock, inside)
    }

    method SetNx(p: Process, ttlMs: int) returns (acquired: bool)
      requires p !in inside
      modifies this
      ensures acquired == !Taken(old(AsState()))
      ensures AsState() == Apply(ttlMs, old(AsState()), Enter(p))
    {
      acquired := !(lock.Some? && now < lock.value.deadline);
      if acquired {
        lock, inside := Some(Lock(now + ttlMs + LOCK_SAFETY_MS, p)), inside[p := now];
      }
    }

    method Del(p: Process)
      requires p in inside
      modifies this
      ensures AsState() == Apply(0, old(AsState()), Leave(p))
    {
      lock, inside := None, inside - {p};
    }

    // Time passes and other processes try their luck, as long as nobody overruns.
    method Elapse(p: Process, ttlMs: int)
      requires Exclusive(ttlMs, AsState()) && InTime(ttlMs, AsState()) && p in inside
      modifies this
      ensures Exclusive(ttlMs, AsState()) && InTime(ttlMs, AsState()) && p in inside
      ensures inside[p] == old(inside[p]) && lock == old(lock)
    {
      var steps: int :| steps >= 0;
      for i := 0 to steps
        invariant Exclusive(ttlMs, AsState()) && InTime(ttlMs, AsState()) && p in inside
        invariant inside[p] == old(inside[p]) && lock == old(lock)
      {
        var to: int, q: Process, ticks: bool := *, *, *;
        if ticks {
          if now <= to < inside[p] + ttlMs + LOCK_SAFETY_MS {
            now := to;
          }
        } else if q !in inside {
          StepExcludes(ttlMs, AsState(), Enter(q));
          var _ := SetNx(q, ttlMs);
        }
      }
    }

    // `fn` runs between the two commands and may throw; the key is deleted either way.
    method RunWithLock(p: Process, ttlMs: int) returns (ran: bool)
      requires Exclusive(ttlMs, AsState()) && InTime(ttlMs, AsState()) && p !in inside && ttlMs >= 0
      modifies this
      ensures Exclusive(ttlMs, AsState()) && InTime(ttlMs, AsState()) && p !in inside
      ensures ran == !Taken(old(AsState()))
      ensures if ran then lock == None && inside == map[] else AsState() == old(AsState())
    {
      StepExcludes(ttlMs, AsState(), Enter(p));
      ran := SetNx(p, ttlMs);
      if !ran {
        return;
      }
      Elapse(p, ttlMs);
      assert lock.value.owner == p;
      Del(p);
      assert forall q :: q !in inside;
    }
  }
}
