/** The guarantees of the machine hold of Redis after any use of the handlers. */
module ServiceSafety {
  import opened Redis
  import opened ServiceModule
  import EventCounts
  import Safety
  import WaitingCounter

  // Whatever the handlers have done so far, every invariant of the machine holds of Redis, and
  // the waiting counter of a model is exact if no step has made it drift.
  lemma HandlersAreSafe(service: Service, m: Model)
    requires service.Valid()
    ensures Safety.Good(service.c, service.s)
    ensures EventCounts.Events(service.run, service.events, WaitingCounter.DriftOf(m), 0, |service.events|) == 0 ==>
      Val(service.store.counters, Waiting(m)) == |Safety.Occupants(service.s, m)|
  {
    var n := |service.events|;
    Safety.RunIsGood(service.c, service.run, service.events, n);
    Safety.WaitingCounterConserved(service.c, service.run, service.events, n, m);
    if EventCounts.Events(service.run, service.events, WaitingCounter.DriftOf(m), 0, n) == 0 {
      assert Safety.Exact(service.run[n], m);
    }
  }
}
