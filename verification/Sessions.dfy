/** A client over any number of connections of any kind: streamed, polled, answered from the
    stored result or from the archived row, each of them cut anywhere. */
module Sessions {
  import opened Redis
  import opened ResultStream
  import opened StreamServer

  // One connection that was cut after k events. A streamed one found n entries at first and m
  // in the end.
  datatype Visit =
    | Streamed(n: nat, m: nat, k: nat)
    | Polling(status: Option<Status>, k: nat)
    | Stored(jobId: JobId, result: Result, k: nat)
    | FromDb(jobId: JobId, row: DbRow, k: nat)

  // A client, the length of the stream that it has been shown, and the content of the last
  // stored result that has reached it.
  datatype Standing = Standing(cl: Client, seen: nat, stored: Option<Data>)

  const FRESH := Standing(NEW_CLIENT, 0, None)

  // The source answers from the result hash as long as there is one, and from the row once
  // the hashes are gone: no stream is read any more after a stored result.
  predicate Possible(s: Entries, st: Standing, v: Visit) {
    match v
    case Streamed(n, m, _) => st.stored.None? && st.seen <= n <= m <= |s|
    case Polling(_, _) => st.stored.None?
    case Stored(_, _, _) => true
    case FromDb(_, _, _) => true
  }

  function TraceOf(s: Entries, cl: Client, v: Visit): seq<Event>
    requires v.Streamed? ==> v.n <= v.m <= |s|
  {
    match v
    case Streamed(n, m, _) => Trace(s, CursorOf(cl), n, m)
    case Polling(status, _) => [Poll(status)]
    case Stored(jobId, r, _) => FinishedTrace(jobId, r)
    case FromDb(jobId, row, _) => ArchivedTrace(jobId, row)
  }

  predicate Allowed(s: Entries, st: Standing, v: Visit) {
    Possible(s, st, v) && v.k <= |TraceOf(s, st.cl, v)|
  }

  function After(s: Entries, st: Standing, v: Visit): Standing
    requires Allowed(s, st, v)
  {
    var trace := TraceOf(s, st.cl, v);
    Standing(
      Received(st.cl, trace, v.k),
      if v.Streamed? then v.m else st.seen,
      if v.k > 0 && (v.Stored? || v.FromDb?) then Some(trace[0].data) else st.stored)
  }

  // The standing after some visits; None when they cannot follow each other.
  function AfterVisits(s: Entries, vs: seq<Visit>): Option<Standing> {
    if vs == [] then Some(FRESH)
    else
      var before := AfterVisits(s, vs[..|vs| - 1]);
      var v := vs[|vs| - 1];
      if before.Some? && Allowed(s, before.value, v) then Some(After(s, before.value, v)) else None
  }

  // The answer to a poll reaches the client while it holds text.
  predicate EmptiesBuffer(st: Standing, v: Visit) { v.Polling? && v.k > 0 && st.cl.buffer != "" }

  ghost predicate NoPollOverText(s: Entries, vs: seq<Visit>) {
    if vs == [] then true
    else
      var before := AfterVisits(s, vs[..|vs| - 1]);
      NoPollOverText(s, vs[..|vs| - 1]) && (before.Some? ==> !EmptiesBuffer(before.value, vs[|vs| - 1]))
  }

  // The client holds the stored text, or exactly the chunks of the stream up to its cursor.
  ghost predicate Right(s: Entries, st: Standing) {
    if st.stored.Some? then st.cl.buffer == TextIn(st.stored.value)
    else
      && Agrees(s, st.cl) && Position(s, st.cl.lastSeen) <= st.seen
      && (st.cl.finished ==> Closed(s, Position(s, st.cl.lastSeen)))
  }

  lemma StoredIsRight(s: Entries, st: Standing, v: Visit)
    requires Allowed(s, st, v) && Right(s, st) && (v.Stored? || v.FromDb?)
    ensures Right(s, After(s, st, v))
  {
    var trace := TraceOf(s, st.cl, v);
    assert |trace| == 2;
    if v.k > 0 {
      assert Received(st.cl, trace, 1) == Receive(Received(st.cl, trace, 0), trace[0]);
    }
  }

  // Every connection keeps that, except an answer to a poll that meets a client with text.
  lemma VisitKeepsRight(s: Entries, st: Standing, v: Visit)
    requires Ordered(s) && Allowed(s, st, v) && Right(s, st)
    ensures Right(s, After(s, st, v)) <==> !EmptiesBuffer(st, v)
  {
    match v
    case Streamed(n, m, k) => ConnectionKeepsAgreement(s, st.cl, n, m, k);
    case Polling(status, k) =>
      PollKeepsAgreement(s, st.cl, status);
      assert k == 1 ==> Received(st.cl, [Poll(status)], 1) == Receive(Received(st.cl, [Poll(status)], 0), Poll(status));
    case Stored(_, _, _) => StoredIsRight(s, st, v);
    case FromDb(_, _, _) => StoredIsRight(s, st, v);
  }

  // Over any number of connections of any kind nothing is lost and nothing is repeated.
  lemma {:induction false} SessionIsRight(s: Entries, vs: seq<Visit>)
    requires Ordered(s) && AfterVisits(s, vs).Some? && NoPollOverText(s, vs)
    ensures Right(s, AfterVisits(s, vs).value)
  {
    if vs == [] {
      PositionOfZero(s);
      UpToCursor(s, |s|, 0, 0);
    } else {
      SessionIsRight(s, vs[..|vs| - 1]);
      VisitKeepsRight(s, AfterVisits(s, vs[..|vs| - 1]).value, vs[|vs| - 1]);
    }
  }
}
