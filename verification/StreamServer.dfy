/** The worker that writes a job's stream and the server that replays it: `executeModel.ts`
    and `streamingLogic.ts`, step by step, against the traces of `ResultStream`. */
module StreamServer {
  import opened Redis
  import opened ResultStream

  lemma AppendKeepsOrder(s: Entries, e: Entry)
    requires Ordered(s) && e.id > 0 && (s != [] ==> e.id > s[|s| - 1].id)
    ensures Ordered(s + [e])
  {
    forall i: nat, j: nat | i < j < |s + [e]|
      ensures Earlier(s + [e], i, j)
    {
      assert j < |s| ==> Earlier(s, i, j);
      assert i < |s| - 1 ==> Earlier(s, i, |s| - 1);
    }
  }

  // `found` are all the entries from position p on.
  ghost predicate Follow(s: Entries, p: nat, found: Entries) {
    && p + |found| == |s|
    && forall i :: 0 <= i < |found| ==> found[i] == s[p + i]
  }

  /** One Redis stream. Between two commands of one process another may append entries and
      the key may expire. */
  class JobStream {
    var entries: Entries
    var expired: bool

    ghost predicate Valid()
      reads this
    {
      Ordered(entries)
    }

    constructor ()
      ensures Valid() && entries == [] && !expired
    {
      entries, expired := [], false;
    }

    // The id of the last entry, which every later one exceeds.
    function LastId(): nat
      reads this
    {
      if entries == [] then 0 else entries[|entries| - 1].id
    }

    // What the key holds.
    function Present(): Entries
      reads this
    {
      if expired then [] else entries
    }

    // What other processes do meanwhile; they do not write to a key that has expired.
    method Elapse()
      requires Valid()
      modifies this
      ensures Valid() && old(entries) <= entries
      ensures old(expired) ==> expired && entries == old(entries)
    {
      if !expired {
        var count :| count >= 0;
        for i := 0 to count
          invariant Valid() && old(entries) <= entries
        {
          var gap :| gap >= 0;
          var msg: Message := *;
          AppendKeepsOrder(entries, Entry(LastId() + 1 + gap, msg));
          entries := entries + [Entry(LastId() + 1 + gap, msg)];
        }
        expired := *;
      }
    }

    method XRead(cursor: nat) returns (found: Entries)
      requires Valid()
      modifies this
      ensures Valid() && old(entries) <= entries
      ensures if expired then found == [] else Follow(entries, Position(entries, cursor), found)
    {
      Elapse();
      found := if expired then [] else entries[Position(entries, cursor)..];
    }

    method Exists() returns (exists_: bool)
      requires Valid()
      ensures exists_ == (!expired && entries != [])
    {
      exists_ := !expired && entries != [];
    }

    method XAdd(msg: Message)
      requires Valid()
      modifies this
      ensures Valid() && !expired && |entries| == |old(Present())| + 1 && old(Present()) < entries
      ensures entries[|entries| - 1].msg == msg
    {
      var id := LastId() + 1;
      AppendKeepsOrder(Present(), Entry(id, msg));
      entries, expired := Present() + [Entry(id, msg)], false;
    }
  }

  /** One HTTP response. The peer goes away after `patience` more writes. */
  class Reply {
    var log: seq<Event>
    var keepAlives: nat
    var ended: nat
    var patience: nat

    constructor (patience: nat)
      ensures log == [] && keepAlives == 0 && ended == 0 && this.patience == patience
    {
      log, keepAlives, ended, this.patience := [], 0, 0, patience;
    }

    predicate Destroyed()
      reads this
    {
      patience == 0
    }

    // Everything of `full` was written, or a prefix of it to a peer that has gone.
    ghost predicate Sent(full: seq<Event>)
      reads this
    {
      log <= full && (Destroyed() || log == full)
    }

    // `full` is what a patient peer has been sent so far.
    method SendSSE(e: Event, ghost full: seq<Event>) returns (ok: bool)
      requires ended == 0 && Sent(full)
      modifies this
      ensures Sent(full + [e])
      ensures ok == !old(Destroyed())
      ensures log == old(log) + (if ok then [e] else [])
      ensures patience == old(patience) - (if ok then 1 else 0)
      ensures ended == 0 && keepAlives == old(keepAlives)
    {
      if Destroyed() {
        return false;
      }
      log, patience := log + [e], patience - 1;
      return true;
    }

    method SendKeepAlive()
      requires ended == 0
      modifies this
      ensures log == old(log) && ended == 0
      ensures if old(Destroyed()) then patience == 0 else patience == old(patience) - 1
    {
      if !Destroyed() {
        keepAlives, patience := keepAlives + 1, patience - 1;
      }
    }

    method End()
      requires ended == 0
      modifies this
      ensures log == old(log) && ended == 1 && patience == old(patience)
    {
      ended := 1;
    }
  }

  // ---- the worker ------------------------------------------------------------------

  datatype Thrown = Thrown(code: Option<string>, message: string, retryable: bool)

  datatype Outcome = Answer(text: string, usedModel: string) | Throws(error: Thrown)

  const API_NAME_MISSING := "MODEL_API_NAME_MISSING:"

  function FailureOf(error: Thrown): Message {
    Failure(if error.code.Some? then error.code.value else "UNKNOWN_ERROR", error.message, error.retryable)
  }

  // One attempt. A streaming provider yields `chunks` and then ends or throws; a provider
  // that does not stream has the outcome `whole`.
  method ExecuteModel(stream: JobStream, model: string, apiName: Option<string>, streaming: bool,
        whole: Outcome, chunks: seq<string>, thrown: Option<Thrown>)
    returns (outcome: Outcome)
    requires stream.Valid()
    modifies stream
    ensures stream.Valid() && old(stream.Present()) <= stream.Present()
    ensures apiName.None? ==>
      outcome == Throws(Thrown(None, API_NAME_MISSING + model, false)) && stream.Present() == old(stream.Present())
    ensures apiName.Some? && !streaming ==> outcome == whole && stream.Present() == old(stream.Present())
    ensures apiName.Some? && streaming ==>
      && Written(old(stream.Present()), stream.Present(), chunks, thrown)
      && if thrown.Some? then outcome == Throws(thrown.value)
         else outcome.Answer? && outcome.usedModel == model && Adds(old(stream.Present()), stream.Present(), outcome.text)
  {
    if apiName.None? {
      return Throws(Thrown(None, API_NAME_MISSING + model, false));
    }
    if !streaming {
      return whole;
    }
    var fullText := StreamAttempt(stream, chunks, thrown);
    return if thrown.Some? then Throws(thrown.value) else Answer(fullText, model);
  }

  // One entry per chunk and the terminal entry were appended.
  ghost predicate Written(before: Entries, after: Entries, chunks: seq<string>, thrown: Option<Thrown>) {
    var n := |before|;
    && before <= after && |after| == n + |chunks| + 1
    && (forall i :: 0 <= i < |chunks| ==> after[n + i].msg == Chunk(chunks[i]))
    && after[n + |chunks|].msg == (if thrown.None? then Completion else FailureOf(thrown.value))
  }

  // The text of the appended entries.
  ghost predicate Adds(before: Entries, after: Entries, text: string) {
    Text(after, |after|) == Text(before, |before|) + text
  }

  method StreamAttempt(stream: JobStream, chunks: seq<string>, thrown: Option<Thrown>) returns (fullText: string)
    requires stream.Valid()
    modifies stream
    ensures stream.Valid() && Written(old(stream.Present()), stream.Present(), chunks, thrown)
    ensures Adds(old(stream.Present()), stream.Present(), fullText)
  {
    fullText := StreamChunks(stream, chunks);
    CloseStream(stream, if thrown.None? then Completion else FailureOf(thrown.value));
  }

  // The text that the first successful attempt returns is what its readers put together.
  lemma FirstAttemptIsWhole(s: Entries, chunks: seq<string>, text: string)
    requires Written([], s, chunks, None) && Adds([], s, text)
    ensures OneSuccess(s) && text == Text(s, |s|)
  {
    FirstMessages(s, chunks);
    FirstText(s, text);
  }

  lemma FirstMessages(s: Entries, chunks: seq<string>)
    requires Written([], s, chunks, None)
    ensures OneSuccess(s)
  {
    var none: Entries := [];
    forall i | 0 <= i < |s| - 1
      ensures s[i].msg.Chunk?
    {
      assert s[|none| + i].msg == Chunk(chunks[i]);
    }
  }

  lemma FirstText(s: Entries, text: string)
    requires Adds([], s, text)
    ensures text == Text(s, |s|)
  {
    var none: Entries := [];
    assert Text(none, 0) == "" && "" + text == text;
  }

  method CloseStream(stream: JobStream, last: Message)
    requires stream.Valid()
    modifies stream
    ensures stream.Valid() && old(stream.Present()) <= stream.Present() && |stream.Present()| == |old(stream.Present())| + 1
    ensures stream.Present()[|stream.Present()| - 1].msg == last
    ensures !last.Chunk? ==> Text(stream.Present(), |stream.Present()|) == Text(old(stream.Present()), |old(stream.Present())|)
  {
    ghost var before := stream.Present();
    stream.XAdd(last);
    TextOfLonger(before, stream.Present(), |before|);
    ghost var text := Text(before, |before|);
    assert text + "" == text;
  }

  method StreamChunks(stream: JobStream, chunks: seq<string>) returns (fullText: string)
    requires stream.Valid()
    modifies stream
    ensures stream.Valid() && old(stream.Present()) <= stream.Present()
    ensures |stream.Present()| == |old(stream.Present())| + |chunks|
    ensures forall i :: 0 <= i < |chunks| ==> stream.Present()[|old(stream.Present())| + i].msg == Chunk(chunks[i])
    ensures Text(stream.Present(), |stream.Present()|) == Text(old(stream.Present()), |old(stream.Present())|) + fullText
  {
    fullText := "";
    ghost var before := stream.Present();
    for i := 0 to |chunks|
      invariant stream.Valid() && before <= stream.Present() && |stream.Present()| == |before| + i
      invariant Text(stream.Present(), |stream.Present()|) == Text(before, |before|) + fullText
      invariant forall k :: 0 <= k < i ==> stream.Present()[|before| + k].msg == Chunk(chunks[k])
    {
      ghost var s := stream.Present();
      stream.XAdd(Chunk(chunks[i]));
      TextOfLonger(s, stream.Present(), |s|);
      assert Text(before, |before|) + fullText + chunks[i] == Text(before, |before|) + (fullText + chunks[i]);
      fullText := fullText + chunks[i];
    }
  }

  // ---- where a connection stands ---------------------------------------------------

  // A connection has sent the trace up to position p, has met no terminal entry and will go
  // on reading after `lastId`.
  ghost predicate Live(s: Entries, cursor: Option<nat>, n: nat, p: nat, lastId: nat) {
    && n <= p <= |s| && Start(s, cursor) <= p && (n > 0 ==> cursor.None?)
    && p == Position(s, lastId) && (cursor.Some? ==> cursor.value <= lastId)
    && (forall i :: Start(s, cursor) <= i < p ==> s[i].msg.Chunk?)
    && ((p > 0 && lastId == s[p - 1].id) || lastId == (if cursor.Some? then cursor.value else 0))
  }

  lemma {:induction false} TextOfLonger(s: Entries, s': Entries, n: nat)
    requires s <= s' && n <= |s|
    ensures Text(s', n) == Text(s, n) && StatusOf(s', n) == StatusOf(s, n) && ErrorOf(s', n) == ErrorOf(s, n)
  {
    if n > 0 {
      TextOfLonger(s, s', n - 1);
    }
  }

  lemma {:induction false} DeltasOfLonger(s: Entries, s': Entries, a: nat, b: nat)
    requires s <= s' && b <= |s|
    ensures Deltas(s', a, b) == Deltas(s, a, b)
    decreases b - a
  {
    if a < b {
      DeltasOfLonger(s, s', a + 1, b);
    }
  }

  lemma TraceOfLonger(s: Entries, s': Entries, cursor: Option<nat>, n: nat, p: nat)
    requires s <= s' && n <= p <= |s| && Start(s', cursor) == Start(s, cursor)
    ensures Trace(s', cursor, n, p) == Trace(s, cursor, n, p)
  {
    if n > 0 {
      TextOfLonger(s, s', n);
      DeltasOfLonger(s, s', n, p);
    }
    DeltasOfLonger(s, s', Start(s, cursor), p);
  }

  // New entries change nothing in what has been sent so far.
  lemma LiveGrows(s: Entries, s': Entries, cursor: Option<nat>, n: nat, p: nat, lastId: nat) returns (p': nat)
    requires Ordered(s) && Ordered(s') && s <= s' && Live(s, cursor, n, p, lastId)
    ensures Live(s', cursor, n, p', lastId)
    ensures Trace(s', cursor, n, p') == Trace(s, cursor, n, p)
  {
    p' := Position(s', lastId);
    if p > 0 && lastId == s[p - 1].id {
      SeenPosition(s', lastId, p);
      if cursor.Some? && Start(s, cursor) < p {
        SplitIsUnique(s', cursor.value, Start(s, cursor));
      }
      TraceOfLonger(s, s', cursor, n, p);
    } else {
      PositionOfZero(s);
      PositionOfZero(s');
    }
  }

  lemma SeenPosition(s: Entries, lastId: nat, p: nat)
    requires Ordered(s) && 0 < p <= |s| && lastId == s[p - 1].id
    ensures Position(s, lastId) == p
  {
    assert p < |s| ==> Earlier(s, p - 1, p);
    SplitIsUnique(s, lastId, p);
  }

  // Deltas do not depend on how entries arrive, as long as no terminal one has.
  lemma {:induction false} DeltasInTwoParts(s: Entries, a: nat, b: nat, c: nat)
    requires a <= b <= c <= |s| && forall i :: a <= i < b ==> s[i].msg.Chunk?
    ensures Deltas(s, a, c) == Deltas(s, a, b) + Deltas(s, b, c)
    decreases b - a
  {
    if a < b {
      DeltasInTwoParts(s, a + 1, b, c);
    }
  }

  lemma {:induction false} DeltasStop(s: Entries, a: nat, b: nat, c: nat)
    requires a <= b <= c <= |s|
    ensures Deltas(s, a, b) <= Deltas(s, a, c)
    ensures (exists i :: a <= i < b && Terminal(s[i].msg)) ==> Deltas(s, a, b) == Deltas(s, a, c)
    decreases b - a
  {
    if a < b && s[a].msg.Chunk? {
      DeltasStop(s, a + 1, b, c);
    }
  }

  lemma {:induction false} DeltasEndInTerminal(s: Entries, a: nat, b: nat)
    requires a <= b <= |s| && exists i :: a <= i < b && Terminal(s[i].msg)
    ensures EndsInTerminal(Deltas(s, a, b))
    decreases b - a
  {
    if s[a].msg.Chunk? {
      DeltasEndInTerminal(s, a + 1, b);
    }
  }

  ghost predicate EndsInTerminal(log: seq<Event>) {
    log != [] && TerminalEvent(log[|log| - 1])
  }

  // Sending all entries that XREAD found extends the trace by their deltas.
  lemma TraceOfBatch(s: Entries, cursor: Option<nat>, n: nat, p: nat, lastId: nat)
    requires Live(s, cursor, n, p, lastId)
    ensures Trace(s, cursor, n, |s|) == Trace(s, cursor, n, p) + Deltas(s, p, |s|)
  {
    if n > 0 {
      StatusMeansClosed(s, n);
      DeltasInTwoParts(s, n, p, |s|);
      return;
    }
    DeltasInTwoParts(s, Start(s, cursor), p, |s|);
  }

  lemma LiveAfterBatch(s: Entries, cursor: Option<nat>, n: nat, p: nat, lastId: nat)
    requires Ordered(s) && Live(s, cursor, n, p, lastId) && p < |s|
    requires forall i :: p <= i < |s| ==> s[i].msg.Chunk?
    ensures Live(s, cursor, n, |s|, s[|s| - 1].id)
  {}

  // Before anything was read, a connection stands at its cursor.
  lemma LiveAtStart(s: Entries, cursor: Option<nat>)
    requires Ordered(s)
    ensures Live(s, cursor, 0, Start(s, cursor), if cursor.Some? then cursor.value else 0)
    ensures Trace(s, cursor, 0, Start(s, cursor)) == []
  {}

  lemma OpenHistoryIsLive(s: Entries)
    requires Ordered(s) && s != [] && StatusOf(s, |s|) == InProgress
    ensures Live(s, None, |s|, |s|, s[|s| - 1].id)
  {
    StatusMeansClosed(s, |s|);
    SeenPosition(s, s[|s| - 1].id, |s|);
  }

  // ---- the server ------------------------------------------------------------------

  // job:{id}:meta, as far as streaming reads it
  datatype JobMeta = JobMeta(streaming: bool, status: Option<Status>)

  // The answer to a client whose job has no stream yet: come back in five seconds.
  function Poll(status: Option<Status>): Event {
    Event(0, SnapshotEvent, NO_DATA.(status := Some(if status.Some? then status.value else Queued)), Some(5000))
  }

  // The snapshot that streamHistory aggregates from all entries found.
  method Aggregate(entries: Entries) returns (snapshot: Event, status: Status)
    requires entries != []
    ensures snapshot == Snapshot(entries, |entries|) && status == StatusOf(entries, |entries|)
  {
    var fullContent, finalId := "", 0;
    var errorCode, errorMessage := None, None;
    status := InProgress;
    for i := 0 to |entries|
      invariant fullContent == Text(entries, i) && status == StatusOf(entries, i)
      invariant (errorCode, errorMessage) == ErrorOf(entries, i)
      invariant i > 0 ==> finalId == entries[i - 1].id
    {
      finalId := entries[i].id;
      match entries[i].msg
      case Chunk(data) => fullContent := fullContent + data;
      case Completion => status := Completed;
      case Failure(code, message, _) =>
        status := Failed;
        errorCode, errorMessage := Some(code), Some(message);
    }
    var failed := status == Failed;
    snapshot := Event(finalId, SnapshotEvent, NO_DATA.(
      content := Content(fullContent), status := Some(status),
      code := if failed then errorCode else None, message := if failed then errorMessage else None), None);
  }

  lemma NextDelta(s: Entries, a: nat, b: nat)
    requires a <= b < |s| && forall i :: a <= i < b ==> s[i].msg.Chunk?
    ensures Deltas(s, a, b + 1) == Deltas(s, a, b) + [Delta(s[b])]
  {
    DeltasInTwoParts(s, a, b, b + 1);
  }

  // The next entry of a batch, of which all entries before position b are chunks and were sent.
  method SendNext(reply: Reply, e: Entry, ghost before: seq<Event>, ghost s: Entries, ghost a: nat, ghost b: nat)
    returns (success: bool)
    requires reply.ended == 0 && a <= b < |s| && e == s[b]
    requires (forall i :: a <= i < b ==> s[i].msg.Chunk?) && reply.Sent(before + Deltas(s, a, b))
    modifies reply
    ensures reply.ended == 0 && reply.Sent(before + Deltas(s, a, b + 1))
    ensures reply.patience == old(reply.patience) - (if old(reply.Destroyed()) then 0 else 1)
    ensures success == !old(reply.Destroyed())
  {
    ghost var sent, d := Deltas(s, a, b), [Delta(e)];
    NextDelta(s, a, b);
    success := reply.SendSSE(Delta(e), before + sent);
    assert (before + sent) + d == before + (sent + d);
  }

  // Once a terminal entry has been sent, or the peer has gone, the rest of a batch does not
  // matter.
  lemma BatchIsOver(s: Entries, p: nat, b: nat, before: seq<Event>, log: seq<Event>, gone: bool)
    requires p < b <= |s| && (gone || Terminal(s[b - 1].msg))
    requires log <= before + Deltas(s, p, b) && (gone || log == before + Deltas(s, p, b))
    ensures log <= before + Deltas(s, p, |s|) && (gone || log == before + Deltas(s, p, |s|))
  {
    DeltasStop(s, p, b, |s|);
    assert before + Deltas(s, p, b) <= before + Deltas(s, p, |s|);
  }

  // Sends the entry at position b and ends the response after a terminal one or, if asked to,
  // when the peer has gone.
  method SendOrStop(reply: Reply, e: Entry, stopWhenGone: bool,
        ghost before: seq<Event>, ghost s: Entries, ghost p: nat, ghost b: nat)
    returns (closed: bool)
    requires reply.ended == 0 && p <= b < |s| && e == s[b]
    requires (forall i :: p <= i < b ==> s[i].msg.Chunk?) && reply.Sent(before + Deltas(s, p, b))
    modifies reply
    ensures reply.Sent(before + Deltas(s, p, if closed then |s| else b + 1))
    ensures reply.ended == if closed then 1 else 0
    ensures if closed then reply.Destroyed() || Terminal(e.msg) else e.msg.Chunk?
    ensures reply.patience <= old(reply.patience) && (!old(reply.Destroyed()) ==> reply.patience < old(reply.patience))
  {
    var success := SendNext(reply, e, before, s, p, b);
    closed := (stopWhenGone && !success) || Terminal(e.msg);
    if closed {
      reply.End();
      BatchIsOver(s, p, b + 1, before, reply.log, reply.Destroyed());
    }
  }

  // Sends the entries of a batch one by one up to a terminal one; `closed` says that the
  // response was ended.
  method SendEntries(reply: Reply, entries: Entries, stopWhenGone: bool,
        ghost before: seq<Event>, ghost s: Entries, ghost p: nat)
    returns (closed: bool)
    requires reply.ended == 0 && reply.Sent(before) && Follow(s, p, entries)
    modifies reply
    ensures reply.Sent(before + Deltas(s, p, |s|))
    ensures reply.ended == if closed then 1 else 0
    ensures closed && !reply.Destroyed() ==> exists i :: p <= i < |s| && Terminal(s[i].msg)
    ensures !closed ==> forall i :: p <= i < |s| ==> s[i].msg.Chunk?
    ensures reply.patience <= old(reply.patience)
    ensures entries != [] && !old(reply.Destroyed()) ==> reply.patience < old(reply.patience)
  {
    for i := 0 to |entries|
      invariant reply.ended == 0 && reply.Sent(before + Deltas(s, p, p + i))
      invariant forall k :: p <= k < p + i ==> s[k].msg.Chunk?
      invariant reply.patience <= old(reply.patience)
      invariant i > 0 && !old(reply.Destroyed()) ==> reply.patience < old(reply.patience)
    {
      closed := SendOrStop(reply, entries[i], stopWhenGone, before, s, p, p + i);
      if closed {
        return;
      }
    }
    closed := false;
  }

  // One batch of entries that XREAD found, after what a connection has sent already.
  method SendBatch(reply: Reply, entries: Entries, stopWhenGone: bool,
        ghost s: Entries, ghost cursor: Option<nat>, ghost n: nat, ghost p: nat, ghost startId: nat)
    returns (lastId: nat, closed: bool)
    requires Ordered(s) && Live(s, cursor, n, p, startId) && Follow(s, p, entries) && entries != []
    requires reply.ended == 0 && reply.Sent(Trace(s, cursor, n, p))
    modifies reply
    ensures reply.Sent(Trace(s, cursor, n, |s|))
    ensures reply.ended == if closed then 1 else 0
    ensures closed && !reply.Destroyed() ==> EndsInTerminal(reply.log)
    ensures !closed ==> Live(s, cursor, n, |s|, lastId)
    ensures reply.patience <= old(reply.patience)
    ensures !old(reply.Destroyed()) ==> reply.patience < old(reply.patience)
  {
    TraceOfBatch(s, cursor, n, p, startId);
    closed := SendEntries(reply, entries, stopWhenGone, Trace(s, cursor, n, p), s, p);
    lastId := entries[|entries| - 1].id;
    if closed {
      if !reply.Destroyed() {
        DeltasEndInTerminal(s, p, |s|);
      }
      return;
    }
    LiveAfterBatch(s, cursor, n, p, startId);
  }

  // All entries as one snapshot, for a client without a cursor.
  method SendSnapshot(reply: Reply, entries: Entries) returns (lastId: nat, isCompleted: bool)
    requires Ordered(entries) && entries != [] && reply.ended == 0 && reply.log == []
    modifies reply
    ensures reply.Sent(Trace(entries, None, |entries|, |entries|))
    ensures reply.ended == if isCompleted then 1 else 0
    ensures !isCompleted ==> Live(entries, None, |entries|, |entries|, lastId)
    ensures isCompleted && !reply.Destroyed() ==> EndsInTerminal(reply.log)
  {
    var snapshot, status := Aggregate(entries);
    lastId, isCompleted := snapshot.id, status != InProgress;
    var ok := reply.SendSSE(snapshot, []);
    if isCompleted {
      ok := reply.SendSSE(Event(snapshot.id, DoneEvent, NO_DATA.(status := Some(status)), None), [snapshot]);
      reply.End();
    } else {
      OpenHistoryIsLive(entries);
    }
  }

  // `thrown` says that Redis has thrown; then nothing has been sent.
  method StreamHistory(stream: JobStream, reply: Reply, lastEventId: Option<nat>)
    returns (lastId: nat, isCompleted: bool, thrown: bool, ghost n: nat, ghost p: nat)
    requires stream.Valid() && reply.ended == 0 && reply.log == []
    modifies stream, reply
    ensures stream.Valid() && old(stream.entries) <= stream.entries
    ensures n <= p <= |stream.entries| && reply.Sent(Trace(stream.entries, lastEventId, n, p))
    ensures reply.ended == if isCompleted then 1 else 0
    ensures !isCompleted ==> Live(stream.entries, lastEventId, n, p, lastId)
    ensures isCompleted && !reply.Destroyed() ==> EndsInTerminal(reply.log)
    ensures thrown ==> !isCompleted && reply.log == []
  {
    var startId := if lastEventId.Some? then lastEventId.value else 0;
    var entries := stream.XRead(startId);
    ghost var s := stream.entries;
    LiveAtStart(s, lastEventId);
    thrown := *;
    if thrown || entries == [] {
      return startId, false, thrown, 0, Start(s, lastEventId);
    }
    n, p := 0, |s|;
    if lastEventId.None? {
      assert entries == s;
      n := |s|;
      lastId, isCompleted := SendSnapshot(reply, entries);
      return;
    }
    lastId, isCompleted := SendBatch(reply, entries, false, s, lastEventId, 0, Start(s, lastEventId), startId);
  }

  // A job is streamed if its meta says so and it has a stream or is no longer queued. Any other
  // job with a meta or a stream is polled for.
  predicate IsStreamed(meta: Option<JobMeta>, streamExists: bool) {
    meta.Some? && meta.value.streaming && (streamExists || meta.value.status != Some(Queued))
  }

  // The response is one trace of the stream. It goes on to a terminal event or the end of the
  // stream, and is complete if the stream is a single success and outlives the connection.
  ghost predicate Streams(stream: JobStream, reply: Reply, cursor: Option<nat>, n: nat, m: nat)
    reads stream, reply
  {
    var s := stream.entries;
    && n <= m <= |s| && reply.Sent(Trace(s, cursor, n, m))
    && (reply.Destroyed() || EndsInTerminal(reply.log) || stream.expired || s == [])
    && (!reply.Destroyed() && !stream.expired && OneSuccess(s) ==> reply.log == Trace(s, cursor, n, |s|))
  }

  // The response is one snapshot: no content, the status of the job, come back in five seconds.
  ghost predicate AsksToPoll(reply: Reply, meta: Option<JobMeta>)
    reads reply
  {
    var status := if meta.Some? && meta.value.status.Some? then meta.value.status.value else Queued;
    && |reply.log| <= 1 && (!reply.Destroyed() ==> |reply.log| == 1)
    && forall e :: e in reply.log ==>
      && e.kind.SnapshotEvent? && e.retryMs == Some(5000) && e.id == 0
      && e.data == NO_DATA.(status := Some(status)) && e.data.content.None?
  }

  lemma {:induction false} DeltasReachTheEnd(s: Entries, a: nat, b: nat)
    requires OneSuccess(s) && b <= |s| && EndsInTerminal(Deltas(s, a, b))
    ensures b == |s|
    decreases b - a
  {
    if s[a].msg.Chunk? {
      var rest := Deltas(s, a + 1, b);
      assert Deltas(s, a, b) == [Delta(s[a])] + rest;
      if rest != [] {
        assert Deltas(s, a, b)[|rest|] == rest[|rest| - 1];
        DeltasReachTheEnd(s, a + 1, b);
      }
    }
  }

  // A trace of a single success that ends in a terminal event is the whole trace.
  lemma TraceReachesTheEnd(s: Entries, cursor: Option<nat>, n: nat, m: nat)
    requires OneSuccess(s) && n <= m <= |s| && EndsInTerminal(Trace(s, cursor, n, m))
    ensures Trace(s, cursor, n, m) == Trace(s, cursor, n, |s|)
  {
    if cursor.None? && n > 0 {
      if StatusOf(s, n) == InProgress {
        var ds := Deltas(s, n, m);
        assert ds != [] ==> FreshTrace(s, n, m)[|ds|] == ds[|ds| - 1];
        DeltasReachTheEnd(s, n, m);
      }
    } else {
      DeltasReachTheEnd(s, Start(s, cursor), m);
    }
  }

  lemma LiveStreams(stream: JobStream, reply: Reply, cursor: Option<nat>, n: nat, m: nat)
    requires n <= m <= |stream.entries| && reply.Sent(Trace(stream.entries, cursor, n, m))
    requires reply.Destroyed() || EndsInTerminal(reply.log) || stream.expired || stream.entries == []
    ensures Streams(stream, reply, cursor, n, m)
  {
    if !reply.Destroyed() && !stream.expired && OneSuccess(stream.entries) {
      TraceReachesTheEnd(stream.entries, cursor, n, m);
    }
  }

  // `thrown` says that Redis has thrown at some point: what was sent so far is the trace up to
  // there, and the response is open.
  method HandleActiveStreaming(stream: JobStream, reply: Reply, meta: Option<JobMeta>, lastEventId: Option<nat>)
    returns (handled: bool, thrown: bool, ghost n: nat, ghost m: nat)
    requires stream.Valid() && reply.ended == 0 && reply.log == []
    modifies stream, reply
    ensures stream.Valid() && old(stream.entries) <= stream.entries
    ensures thrown ==> !handled && reply.ended == 0
                       && n <= m <= |stream.entries| && reply.Sent(Trace(stream.entries, lastEventId, n, m))
    ensures !thrown ==>
      var streamExists := old(!stream.expired && stream.entries != []);
      && (handled <==> meta.Some? || streamExists)
      && (!handled ==> reply.log == [] && reply.ended == 0)
      && (IsStreamed(meta, streamExists) ==> Streams(stream, reply, lastEventId, n, m))
      && (handled && !IsStreamed(meta, streamExists) ==> AsksToPoll(reply, meta) && reply.ended == 1)
    ensures reply.ended <= 1 && (handled && !reply.Destroyed() ==> reply.ended == 1)
  {
    n, m := 0, 0;
    var streamExists := stream.Exists();
    thrown := *;
    if thrown {
      return false, true, 0, 0;
    }
    if meta.None? && !streamExists {
      return false, false, 0, 0;
    }
    var isStreamingJob := meta.Some? && meta.value.streaming;
    var isQueued := meta.Some? && meta.value.status == Some(Queued);
    if !isStreamingJob || (isQueued && !streamExists) {
      var ok := reply.SendSSE(Poll(if meta.Some? then meta.value.status else None), []);
      reply.End();
      return true, false, 0, 0;
    }
    var lastId, isCompleted;
    lastId, isCompleted, thrown, n, m := StreamHistory(stream, reply, lastEventId);
    if !isCompleted && !thrown {
      m, thrown := LiveLoop(stream, reply, lastEventId, lastId, n, m);
    }
    if !thrown {
      LiveStreams(stream, reply, lastEventId, n, m);
    }
    return !thrown, thrown, n, m;
  }

  // The live loop goes on until a terminal entry, the end of the stream or of the peer, unless
  // Redis throws.
  method LiveLoop(stream: JobStream, reply: Reply, cursor: Option<nat>, startId: nat, ghost n: nat, ghost p: nat)
    returns (ghost m: nat, thrown: bool)
    requires stream.Valid() && reply.ended == 0
    requires Live(stream.entries, cursor, n, p, startId)
    requires reply.Sent(Trace(stream.entries, cursor, n, p))
    modifies stream, reply
    ensures stream.Valid() && old(stream.entries) <= stream.entries
    ensures n <= m <= |stream.entries| && reply.Sent(Trace(stream.entries, cursor, n, m))
    ensures thrown ==> reply.ended == 0
    ensures !thrown ==> reply.ended <= 1 && (!reply.Destroyed() ==> reply.ended == 1)
    ensures !thrown ==> reply.Destroyed() || EndsInTerminal(reply.log) || stream.expired || stream.entries == []
  {
    m, thrown := p, false;
    var lastId, over := startId, false;
    while !reply.Destroyed() && !over
      invariant stream.Valid() && old(stream.entries) <= stream.entries
      invariant n <= m <= |stream.entries| && reply.Sent(Trace(stream.entries, cursor, n, m))
      invariant !over ==> reply.ended == 0 && Live(stream.entries, cursor, n, m, lastId)
      invariant over ==> reply.ended == 1
      invariant over ==> reply.Destroyed() || EndsInTerminal(reply.log) || stream.expired || stream.entries == []
      decreases if over then 0 else 1 + reply.patience
    {
      var entries;
      entries, m := ReadNext(stream, cursor, lastId, n, m);
      thrown := *;
      if thrown {
        return m, true;
      }
      lastId, over, m := LiveRound(stream, reply, entries, cursor, lastId, n, m);
    }
  }

  method ReadNext(stream: JobStream, cursor: Option<nat>, lastId: nat, ghost n: nat, ghost p: nat)
    returns (entries: Entries, ghost m: nat)
    requires stream.Valid() && Live(stream.entries, cursor, n, p, lastId)
    modifies stream
    ensures stream.Valid() && old(stream.entries) <= stream.entries
    ensures Live(stream.entries, cursor, n, m, lastId)
    ensures Trace(stream.entries, cursor, n, m) == old(Trace(stream.entries, cursor, n, p))
    ensures entries == [] || Follow(stream.entries, m, entries)
  {
    entries := stream.XRead(lastId);
    m := LiveGrows(old(stream.entries), stream.entries, cursor, n, p, lastId);
  }

  // No data in time: the stream is gone, or the client hears a keep-alive.
  method KeepWaiting(stream: JobStream, reply: Reply) returns (over: bool)
    requires stream.Valid() && reply.ended == 0 && !reply.Destroyed()
    modifies reply
    ensures over == (stream.expired || stream.entries == [])
    ensures reply.log == old(reply.log) && reply.ended == if over then 1 else 0
    ensures reply.patience == old(reply.patience) - (if over then 0 else 1)
  {
    var stillAlive := stream.Exists();
    if stillAlive {
      reply.SendKeepAlive();
    } else {
      reply.End();
    }
    return !stillAlive;
  }

  method LiveRound(stream: JobStream, reply: Reply, entries: Entries, cursor: Option<nat>, startId: nat,
        ghost n: nat, ghost p: nat)
    returns (lastId: nat, over: bool, ghost m: nat)
    requires stream.Valid() && reply.ended == 0 && !reply.Destroyed()
    requires Live(stream.entries, cursor, n, p, startId)
    requires entries == [] || Follow(stream.entries, p, entries)
    requires reply.Sent(Trace(stream.entries, cursor, n, p))
    modifies reply
    ensures n <= m <= |stream.entries| && reply.Sent(Trace(stream.entries, cursor, n, m))
    ensures reply.ended == if over then 1 else 0
    ensures over ==> reply.Destroyed() || EndsInTerminal(reply.log) || stream.expired || stream.entries == []
    ensures !over ==> Live(stream.entries, cursor, n, m, lastId) && reply.patience < old(reply.patience)
  {
    if entries == [] {
      over := KeepWaiting(stream, reply);
      return startId, over, p;
    }
    m := |stream.entries|;
    lastId, over := SendBatch(reply, entries, true, stream.entries, cursor, n, p, startId);
  }

  // ---- a stored result -------------------------------------------------------------

  // What a connection sends for a job whose result hash exists. The events carry the id of
  // the job where those of a stream carry an entry id.
  function FinishedTrace(jobId: JobId, r: Result): seq<Event> {
    var status := if r.status == Some(Failed) then Failed else Completed;
    [Event(jobId, SnapshotEvent, NO_DATA.(content := r.data, status := Some(status), error := r.error, code := r.errorCode), None),
     Event(jobId, DoneEvent, NO_DATA.(status := Some(status), usedModel := r.usedModel, finishedAt := r.finishedAt), None)]
  }

  // A stored result is told as a snapshot of its content with status and error, and an end
  // with model and time.
  ghost predicate Tells(snapshot: Event, done: Event, jobId: JobId, r: Result) {
    && snapshot.kind.SnapshotEvent? && snapshot.id == jobId && snapshot.data.content == r.data
    && snapshot.data.status == (match r.status case Some(Failed) => Some(Failed) case _ => Some(Completed))
    && snapshot.data.error == r.error && snapshot.data.code == r.errorCode
    && done.kind.DoneEvent? && done.id == jobId && done.data.content.None? && done.data.status == snapshot.data.status
    && done.data.usedModel == r.usedModel && done.data.finishedAt == r.finishedAt
  }

  method TrySendFinishedResult(reply: Reply, jobId: JobId, result: Option<Result>) returns (sent: bool)
    requires reply.ended == 0 && reply.log == []
    modifies reply
    ensures sent == result.Some? && reply.ended == if sent then 1 else 0
    ensures if sent then reply.Sent(FinishedTrace(jobId, result.value)) else reply.log == []
    ensures sent && !reply.Destroyed() ==> |reply.log| == 2 && Tells(reply.log[0], reply.log[1], jobId, result.value)
  {
    if result.None? {
      return false;
    }
    var full := FinishedTrace(jobId, result.value);
    var ok := reply.SendSSE(full[0], []);
    ok := reply.SendSSE(full[1], [full[0]]);
    reply.End();
    return true;
  }

  // The whole trace leaves any client done with the stored text and without a cursor. Cut
  // after the snapshot, it leaves the right text but the job id for a cursor.
  lemma FinishedResultDelivers(cl: Client, jobId: JobId, r: Result)
    requires jobId != 0
    ensures var cl' := Received(cl, FinishedTrace(jobId, r), 2);
            cl'.buffer == TextIn(NO_DATA.(content := r.data)) && cl'.finished && CursorOf(cl') == None
    ensures var cl' := Received(cl, FinishedTrace(jobId, r), 1);
            cl'.buffer == TextIn(NO_DATA.(content := r.data)) && (!cl.finished ==> CursorOf(cl') == Some(jobId))
  {}

  datatype DbRow = DbRow(status: Status, result: Option<string>, error: Option<string>)

  predicate Archived(row: Option<DbRow>) { row.Some? && (row.value.status.Completed? || row.value.status.Failed?) }

  function ArchivedTrace(jobId: JobId, row: DbRow): seq<Event> {
    [Event(jobId, SnapshotEvent, NO_DATA.(content := row.result, status := Some(row.status), error := row.error), None),
     Event(jobId, DoneEvent, NO_DATA, None)]
  }

  method TrySendFinishedResultFromDb(reply: Reply, jobId: JobId, row: Option<DbRow>) returns (sent: bool)
    requires reply.ended == 0 && reply.log == []
    modifies reply
    ensures sent == Archived(row) && reply.ended == if sent then 1 else 0
    ensures if sent then reply.Sent(ArchivedTrace(jobId, row.value)) else reply.log == []
    ensures sent && !reply.Destroyed() ==>
      var snapshot, r := reply.log[0], row.value;
      && |reply.log| == 2 && TerminalEvent(reply.log[1]) && snapshot.kind.SnapshotEvent?
      && snapshot.data.content == r.result && snapshot.data.status == Some(r.status) && snapshot.data.error == r.error
  {
    if row.None? || !(row.value.status.Completed? || row.value.status.Failed?) {
      return false;
    }
    var full := ArchivedTrace(jobId, row.value);
    var ok := reply.SendSSE(full[0], []);
    ok := reply.SendSSE(full[1], [full[0]]);
    reply.End();
    return true;
  }

  function JobNotFound(jobId: JobId): Event {
    Event(jobId, ErrorEvent, NO_DATA.(code := Some("NOT_FOUND"), message := Some("Job not found")), None)
  }

  function ServerError(jobId: JobId): Event {
    Event(jobId, ErrorEvent, NO_DATA.(code := Some("SERVER_ERROR"), message := Some("Streaming failed")), None)
  }

  // POST /:id/result-stream: the stored result, else the live stream, else the archived row.
  // Redis and the database may throw at any read, before or in the middle of the stream.
  method ServeResultStream(stream: JobStream, reply: Reply, jobId: JobId, result: Option<Result>,
        meta: Option<JobMeta>, row: Option<DbRow>, lastEventId: Option<nat>)
    returns (thrown: bool, ghost n: nat, ghost m: nat)
    requires stream.Valid() && reply.ended == 0 && reply.log == []
    modifies stream, reply
    ensures stream.Valid() && reply.ended <= 1 && (!reply.Destroyed() ==> reply.ended == 1)
    ensures thrown ==>
      n <= m <= |stream.entries| && reply.Sent(Trace(stream.entries, lastEventId, n, m) + [ServerError(jobId)])
    ensures !thrown ==> (result.Some? ==> reply.Sent(FinishedTrace(jobId, result.value)))
    ensures !thrown ==>
      var live := meta.Some? || old(!stream.expired && stream.entries != []);
      && (result.None? && !live && Archived(row) ==> reply.Sent(ArchivedTrace(jobId, row.value)))
      && (result.None? && !live && !Archived(row) ==> reply.Sent([JobNotFound(jobId)]))
    ensures !thrown ==>
      var streamExists := old(!stream.expired && stream.entries != []);
      result.None? && (meta.Some? || streamExists) ==>
        if IsStreamed(meta, streamExists) then Streams(stream, reply, lastEventId, n, m)
        else AsksToPoll(reply, meta)
    ensures !reply.Destroyed() && (result.Some? || thrown) ==> EndsInTerminal(reply.log)
  {
    thrown, n, m := Serve(stream, reply, jobId, result, meta, row, lastEventId);
    if thrown {
      var ok := reply.SendSSE(ServerError(jobId), Trace(stream.entries, lastEventId, n, m));
      reply.End();
    }
  }

  // The body of the try block; when it throws the response is open.
  method Serve(stream: JobStream, reply: Reply, jobId: JobId, result: Option<Result>,
        meta: Option<JobMeta>, row: Option<DbRow>, lastEventId: Option<nat>)
    returns (thrown: bool, ghost n: nat, ghost m: nat)
    requires stream.Valid() && reply.ended == 0 && reply.log == []
    modifies stream, reply
    ensures stream.Valid()
    ensures thrown ==> reply.ended == 0
                       && n <= m <= |stream.entries| && reply.Sent(Trace(stream.entries, lastEventId, n, m))
    ensures !thrown ==> reply.ended <= 1 && (!reply.Destroyed() ==> reply.ended == 1)
    ensures !thrown ==> (result.Some? ==> reply.Sent(FinishedTrace(jobId, result.value)))
    ensures !thrown ==>
      var live := meta.Some? || old(!stream.expired && stream.entries != []);
      && (result.None? && !live && Archived(row) ==> reply.Sent(ArchivedTrace(jobId, row.value)))
      && (result.None? && !live && !Archived(row) ==> reply.Sent([JobNotFound(jobId)]))
    ensures !thrown ==>
      var streamExists := old(!stream.expired && stream.entries != []);
      result.None? && (meta.Some? || streamExists) ==>
        if IsStreamed(meta, streamExists) then Streams(stream, reply, lastEventId, n, m)
        else AsksToPoll(reply, meta)
    ensures !thrown && !reply.Destroyed() && result.Some? ==> EndsInTerminal(reply.log)
  {
    n, m := 0, 0;
    thrown := *;
    if thrown {
      return true, 0, 0;
    }
    var sent := TrySendFinishedResult(reply, jobId, result);
    if sent {
      return false, 0, 0;
    }
    var handled;
    handled, thrown, n, m := HandleActiveStreaming(stream, reply, meta, lastEventId);
    if handled || thrown {
      return thrown, n, m;
    }
    thrown := *;
    if thrown {
      return true, 0, 0;
    }
    sent := TrySendFinishedResultFromDb(reply, jobId, row);
    if sent {
      return false, 0, 0;
    }
    var ok := reply.SendSSE(JobNotFound(jobId), []);
    reply.End();
    return false, 0, 0;
  }

  // A server error leaves a client its text, but the id of the job for a cursor, which the
  // endpoint does not accept.
  lemma ServerErrorSpoilsCursor(cl: Client, jobId: JobId)
    requires jobId != 0 && !cl.finished
    ensures var cl' := Receive(cl, ServerError(jobId));
            cl'.buffer == cl.buffer && CursorOf(cl') == Some(jobId)
  {}

  // ---- the client at the other end -------------------------------------------------

  // A client that has not been told that the job is done and whose cursor, if any, is the id
  // of an entry of the stream.
  ghost predicate Reader(s: Entries, cl: Client) {
    && Agrees(s, cl) && !cl.finished
    && (cl.lastSeen == 0 || exists i :: 0 <= i < |s| && s[i].id == cl.lastSeen)
  }

  lemma ReaderOfLonger(s: Entries, s': Entries, cl: Client)
    requires Ordered(s) && Ordered(s') && s <= s' && Reader(s, cl)
    ensures Reader(s', cl) && Position(s', cl.lastSeen) == Position(s, cl.lastSeen)
  {
    var p := Position(s, cl.lastSeen);
    if cl.lastSeen == 0 {
      PositionOfZero(s);
    } else {
      var i :| 0 <= i < |s| && s[i].id == cl.lastSeen;
      SeenPosition(s, cl.lastSeen, i + 1);
      assert s'[i] == s[i];
      assert p < |s'| ==> Earlier(s', i, p);
    }
    UpToCursor(s, |s|, p, cl.lastSeen);
    UpToCursor(s', |s'|, p, cl.lastSeen);
    TextOfLonger(s, s', p);
    SplitIsUnique(s', cl.lastSeen, p);
  }

  // The answer to a polling client empties its buffer: that is right if and only if the client
  // held no text.
  lemma PollKeepsAgreement(s: Entries, cl: Client, status: Option<Status>)
    requires Agrees(s, cl)
    ensures Receive(cl, Poll(status)) == cl.(buffer := "")
    ensures Agrees(s, Receive(cl, Poll(status))) <==> cl.buffer == ""
  {}

  // A whole connection, from the cursor the client sends to the events it receives: the
  // worker appends meanwhile and the peer may go away at any point. A client that is polled
  // must not hold text. `stayed` says that the peer is still there and Redis has not thrown:
  // then a single success that outlives the connection is delivered to its end.
  method Connect(stream: JobStream, meta: Option<JobMeta>, cl: Client, patience: nat)
    returns (cl': Client, ghost stayed: bool)
    requires stream.Valid() && Reader(stream.entries, cl)
    modifies stream
    ensures stream.Valid() && old(stream.entries) <= stream.entries
    ensures IsStreamed(meta, old(!stream.expired && stream.entries != [])) || cl.buffer == "" ==>
      && Agrees(stream.entries, cl')
      && Position(stream.entries, cl.lastSeen) <= Position(stream.entries, cl'.lastSeen)
      && (cl'.finished || Reader(stream.entries, cl'))
    ensures stayed && IsStreamed(meta, old(!stream.expired && stream.entries != [])) ==>
      !stream.expired && OneSuccess(stream.entries) ==>
        cl'.buffer == Text(stream.entries, |stream.entries|)
        && (cl'.finished <==> Position(stream.entries, cl.lastSeen) < |stream.entries|)
        && (cl.lastSeen == 0 ==> cl'.finished)
  {
    var reply := new Reply(patience);
    ghost var streamed := IsStreamed(meta, !stream.expired && stream.entries != []);
    var handled, thrown, n, m := HandleActiveStreaming(stream, reply, meta, CursorOf(cl));
    stayed := !thrown && !reply.Destroyed();
    cl' := Received(cl, reply.log, |reply.log|);
    ReaderOfLonger(old(stream.entries), stream.entries, cl);
    if thrown || streamed {
      ConnectedReader(stream.entries, cl, n, m, reply.log);
      if stayed && !stream.expired && OneSuccess(stream.entries) {
        ConnectedToTheEnd(stream.entries, cl, n);
      }
    } else if handled && reply.log != [] {
      PolledReader(stream.entries, cl, meta, reply.log);
    }
  }

  lemma PolledReader(s: Entries, cl: Client, meta: Option<JobMeta>, log: seq<Event>)
    requires Agrees(s, cl) && |log| == 1 && log[0].kind.SnapshotEvent? && log[0].id == 0 && log[0].data.content.None?
    ensures Received(cl, log, 1) == cl.(buffer := "")
    ensures cl.buffer == "" ==> Received(cl, log, 1) == cl
  {
    assert Received(cl, log, 1) == Receive(Received(cl, log, 0), log[0]);
  }

  lemma ConnectedToTheEnd(s: Entries, cl: Client, n: nat)
    requires Ordered(s) && OneSuccess(s) && Reader(s, cl) && n <= |s|
    ensures var trace := Trace(s, CursorOf(cl), n, |s|);
            var cl' := Received(cl, trace, |trace|);
            cl'.buffer == Text(s, |s|) && (cl'.finished <==> Position(s, cl.lastSeen) < |s|)
            && (cl.lastSeen == 0 ==> cl'.finished)
  {
    PositionOfZero(s);
    OpenConnectionDelivers(s, cl, n);
  }

  lemma {:induction false} ReceivedOfPrefix(cl: Client, es: seq<Event>, es': seq<Event>, k: nat)
    requires es <= es' && k <= |es|
    ensures Received(cl, es, k) == Received(cl, es', k)
  {
    if k > 0 {
      ReceivedOfPrefix(cl, es, es', k - 1);
    }
  }

  lemma ConnectedReader(s: Entries, cl: Client, n: nat, m: nat, log: seq<Event>)
    requires Ordered(s) && Reader(s, cl) && n <= m <= |s| && log <= Trace(s, CursorOf(cl), n, m)
    ensures var cl' := Received(cl, log, |log|);
            && Agrees(s, cl') && Position(s, cl.lastSeen) <= Position(s, cl'.lastSeen)
            && (cl'.finished || Reader(s, cl'))
  {
    ReceivedOfPrefix(cl, log, Trace(s, CursorOf(cl), n, m), |log|);
    PositionOfZero(s);
    if Position(s, cl.lastSeen) <= m {
      ConnectionKeepsAgreement(s, cl, n, m, |log|);
    } else {
      assert log == [];
    }
  }
}
