/** The Redis stream of a job, the SSE events that are made from it, and the client that
    follows the documented contract: a snapshot replaces the buffer, a chunk is appended, and
    the id of the last event is the cursor of the next connection. */
module ResultStream {
  import opened Redis

  // What the worker appends: chunks of text, then a terminal entry.
  datatype Message = Chunk(data: string) | Completion | Failure(code: string, message: string, retryable: bool)

  // Stream ids grow with every entry; 0 stands before the first one.
  datatype Entry = Entry(id: nat, msg: Message)

  type Entries = seq<Entry>

  ghost predicate Ordered(s: Entries) {
    (forall i :: 0 <= i < |s| ==> s[i].id > 0)
    && forall i: nat, j: nat {:trigger Earlier(s, i, j)} :: i < j < |s| ==> Earlier(s, i, j)
  }

  predicate Earlier(s: Entries, i: nat, j: nat)
    requires i < |s| && j < |s|
  {
    s[i].id < s[j].id
  }

  predicate Terminal(m: Message) { !m.Chunk? }

  function TextOf(m: Message): string { if m.Chunk? then m.data else "" }

  // The text of the first n entries.
  function Text(s: Entries, n: nat): string
    requires n <= |s|
  {
    if n == 0 then "" else Text(s, n - 1) + TextOf(s[n - 1].msg)
  }

  // The chunks among the first n entries whose id is at most the cursor.
  function TextUpTo(s: Entries, n: nat, cursor: nat): string
    requires n <= |s|
  {
    if n == 0 then ""
    else TextUpTo(s, n - 1, cursor) + (if s[n - 1].id <= cursor then TextOf(s[n - 1].msg) else "")
  }

  // How many of the first n entries an ordered stream has up to the cursor.
  function CountUpTo(s: Entries, n: nat, cursor: nat): (p: nat)
    requires n <= |s|
    ensures p <= n
    ensures p < n ==> s[p].id > cursor
    ensures p > 0 ==> s[p - 1].id <= cursor
  {
    if n == 0 then 0
    else if s[n - 1].id <= cursor then n
    else CountUpTo(s, n - 1, cursor)
  }

  // Where XREAD STREAMS key cursor begins to read.
  function Position(s: Entries, cursor: nat): nat { CountUpTo(s, |s|, cursor) }

  // ---- events ----------------------------------------------------------------------

  datatype Kind = SnapshotEvent | ChunkEvent | DoneEvent | ErrorEvent

  datatype Data = Data(
    content: Option<string>, status: Option<Status>, error: Option<string>, code: Option<string>,
    message: Option<string>, retryable: Option<bool>, usedModel: Option<Model>, finishedAt: Option<int>)

  const NO_DATA := Data(None, None, None, None, None, None, None, None)

  datatype Event = Event(id: nat, kind: Kind, data: Data, retryMs: Option<nat>)

  // An empty string is falsy: it is sent as null or left out.
  function Content(text: string): Option<string> { if text == "" then None else Some(text) }

  // The event of one entry.
  function Delta(e: Entry): Event {
    match e.msg
    case Chunk(data) => Event(e.id, ChunkEvent, NO_DATA.(content := Content(data)), None)
    case Completion => Event(e.id, DoneEvent, NO_DATA, None)
    case Failure(code, message, retryable) =>
      Event(e.id, ErrorEvent, NO_DATA.(code := Some(code), message := Some(message), retryable := Some(retryable)), None)
  }

  // The events of entries a, a + 1, ... before b, up to the first terminal one.
  function Deltas(s: Entries, a: nat, b: nat): seq<Event>
    requires b <= |s|
    decreases b - a
  {
    if b <= a then []
    else if Terminal(s[a].msg) then [Delta(s[a])]
    else [Delta(s[a])] + Deltas(s, a + 1, b)
  }

  // The status after n entries: that of the last terminal one.
  function StatusOf(s: Entries, n: nat): Status
    requires n <= |s|
  {
    if n == 0 then InProgress
    else match s[n - 1].msg
      case Chunk(_) => StatusOf(s, n - 1)
      case Completion => Completed
      case Failure(_, _, _) => Failed
  }

  function ErrorOf(s: Entries, n: nat): (Option<string>, Option<string>)
    requires n <= |s|
  {
    if n == 0 then (None, None)
    else if s[n - 1].msg.Failure? then (Some(s[n - 1].msg.code), Some(s[n - 1].msg.message))
    else ErrorOf(s, n - 1)
  }

  // The aggregate of the first n entries.
  function Snapshot(s: Entries, n: nat): Event
    requires 0 < n <= |s|
  {
    var failed := StatusOf(s, n) == Failed;
    Event(s[n - 1].id, SnapshotEvent, NO_DATA.(
      content := Content(Text(s, n)), status := Some(StatusOf(s, n)),
      code := if failed then ErrorOf(s, n).0 else None, message := if failed then ErrorOf(s, n).1 else None), None)
  }

  // The event that closes a snapshot with a terminal entry.
  function Closing(s: Entries, n: nat): Event
    requires 0 < n <= |s|
  {
    Event(s[n - 1].id, DoneEvent, NO_DATA.(status := Some(StatusOf(s, n))), None)
  }

  // The first n entries as a snapshot and, unless that closes the connection, the entries from
  // there to m as deltas.
  function FreshTrace(s: Entries, n: nat, m: nat): seq<Event>
    requires 0 < n <= m <= |s|
  {
    [Snapshot(s, n)] + if StatusOf(s, n) == InProgress then Deltas(s, n, m) else [Closing(s, n)]
  }

  // The entry from which the deltas of a resumed connection are made.
  function Start(s: Entries, cursor: Option<nat>): nat {
    if cursor.Some? then Position(s, cursor.value) else 0
  }

  // Everything that a connection sends that finds n entries when it opens and m at its end.
  function Trace(s: Entries, cursor: Option<nat>, n: nat, m: nat): seq<Event>
    requires n <= m <= |s|
  {
    if cursor.None? && n > 0 then FreshTrace(s, n, m) else Deltas(s, Start(s, cursor), m)
  }

  // ---- the client ------------------------------------------------------------------

  datatype Client = Client(buffer: string, lastSeen: nat, finished: bool)

  const NEW_CLIENT := Client("", 0, false)

  function TextIn(d: Data): string { if d.content.Some? then d.content.value else "" }

  function Receive(cl: Client, e: Event): Client {
    var seen := cl.(lastSeen := if e.id != 0 then e.id else cl.lastSeen);
    match e.kind
    case SnapshotEvent => seen.(buffer := TextIn(e.data))
    case ChunkEvent => seen.(buffer := cl.buffer + TextIn(e.data))
    case DoneEvent => seen.(finished := true)
    case ErrorEvent => seen
  }

  // The client after the first k events.
  function Received(cl: Client, es: seq<Event>, k: nat): Client
    requires k <= |es|
  {
    if k == 0 then cl else Receive(Received(cl, es, k - 1), es[k - 1])
  }

  // A finished client has dropped its saved cursor.
  function CursorOf(cl: Client): Option<nat> {
    if cl.finished || cl.lastSeen == 0 then None else Some(cl.lastSeen)
  }

  // The client has exactly the text of the stream up to its cursor.
  ghost predicate Agrees(s: Entries, cl: Client) {
    cl.buffer == TextUpTo(s, |s|, cl.lastSeen)
  }

  // ---- text and cursors ------------------------------------------------------------

  // The first p entries are those up to the cursor.
  ghost predicate Splits(s: Entries, cursor: nat, p: nat)
    requires p <= |s|
  {
    (p > 0 ==> s[p - 1].id <= cursor) && (p < |s| ==> cursor < s[p].id)
  }

  lemma SplitIsUnique(s: Entries, cursor: nat, p: nat)
    requires Ordered(s) && p <= |s|
    ensures Splits(s, cursor, p) <==> Position(s, cursor) == p
  {
    var q := Position(s, cursor);
    if q < p {
      assert q < p - 1 ==> Earlier(s, q, p - 1);
    } else if p < q {
      assert p < q - 1 ==> Earlier(s, p, q - 1);
    }
  }

  lemma PositionOfZero(s: Entries)
    requires Ordered(s)
    ensures Position(s, 0) == 0
  {}

  lemma {:induction false} UpToAll(s: Entries, n: nat, cursor: nat)
    requires n <= |s| && forall i :: 0 <= i < n ==> s[i].id <= cursor
    ensures TextUpTo(s, n, cursor) == Text(s, n)
  {
    if n > 0 {
      UpToAll(s, n - 1, cursor);
    }
  }

  // In an ordered stream the chunks up to the cursor are those of a prefix.
  lemma {:induction false} UpToCursor(s: Entries, n: nat, p: nat, cursor: nat)
    requires Ordered(s) && p <= n <= |s| && Splits(s, cursor, p)
    ensures TextUpTo(s, n, cursor) == Text(s, p)
  {
    if n == p {
      forall i | 0 <= i < p
        ensures s[i].id <= cursor
      {
        assert i < p - 1 ==> Earlier(s, i, p - 1);
      }
      UpToAll(s, n, cursor);
    } else {
      assert p < n - 1 ==> Earlier(s, p, n - 1);
      UpToCursor(s, n - 1, p, cursor);
    }
  }

  // The client has received the first p entries and its cursor stands after them.
  ghost predicate At(s: Entries, cl: Client, p: nat) {
    p <= |s| && cl.buffer == Text(s, p) && Splits(s, cl.lastSeen, p)
  }

  lemma AtMeansAgrees(s: Entries, cl: Client, p: nat)
    requires Ordered(s) && p <= |s| && Splits(s, cl.lastSeen, p)
    ensures Agrees(s, cl) <==> At(s, cl, p)
    ensures Position(s, cl.lastSeen) == p
  {
    UpToCursor(s, |s|, p, cl.lastSeen);
    SplitIsUnique(s, cl.lastSeen, p);
  }

  // A terminal entry is among the first p.
  ghost predicate Closed(s: Entries, p: nat)
    requires p <= |s|
  {
    exists i :: 0 <= i < p && Terminal(s[i].msg)
  }

  lemma {:induction false} StatusMeansClosed(s: Entries, n: nat)
    requires n <= |s|
    ensures StatusOf(s, n) != InProgress <==> Closed(s, n)
  {
    if n > 0 {
      StatusMeansClosed(s, n - 1);
    }
  }

  // A client that has moved on to position p is done only if the stream has been closed by then.
  ghost predicate Moved(s: Entries, cl: Client, cl': Client, p: nat) {
    && At(s, cl', p)
    && (cl'.lastSeen == cl.lastSeen || (p > 0 && cl'.lastSeen == s[p - 1].id))
    && (cl'.finished ==> cl.finished || Closed(s, p))
  }

  // ---- one connection --------------------------------------------------------------

  lemma {:induction false} DeltasAt(s: Entries, a: nat, b: nat, i: nat)
    requires a <= b <= |s| && i < |Deltas(s, a, b)|
    ensures a + i < b && Deltas(s, a, b)[i] == Delta(s[a + i])
    ensures i + 1 < |Deltas(s, a, b)| ==> s[a + i].msg.Chunk?
    decreases b - a
  {
    if s[a].msg.Chunk? && i > 0 {
      DeltasAt(s, a + 1, b, i - 1);
    }
  }

  // Where k deltas leave a client that had the text before position a.
  function Advanced(s: Entries, a: nat, k: nat, cl: Client): Client
    requires a + k <= |s|
  {
    if k == 0 then cl
    else Client(Text(s, a + k), s[a + k - 1].id, cl.finished || s[a + k - 1].msg.Completion?)
  }

  lemma AdvanceByOne(s: Entries, a: nat, k: nat, cl: Client, e: Event)
    requires a + k < |s| && s[a + k].id > 0 && cl.buffer == Text(s, a)
    requires e == Delta(s[a + k]) && (k > 0 ==> s[a + k - 1].msg.Chunk?)
    ensures Receive(Advanced(s, a, k, cl), e) == Advanced(s, a, k + 1, cl)
  {}

  lemma DeltaAdvances(s: Entries, a: nat, b: nat, cl: Client, k: nat)
    requires Ordered(s) && a <= b <= |s| && k < |Deltas(s, a, b)|
    requires cl.buffer == Text(s, a)
    ensures a + k < b && Receive(Advanced(s, a, k, cl), Deltas(s, a, b)[k]) == Advanced(s, a, k + 1, cl)
  {
    DeltasAt(s, a, b, k);
    if k > 0 {
      DeltasAt(s, a, b, k - 1);
    }
    AdvanceByOne(s, a, k, cl, Deltas(s, a, b)[k]);
  }

  lemma {:induction false} FoldDeltas(s: Entries, a: nat, b: nat, cl: Client, k: nat)
    requires Ordered(s) && a <= b <= |s| && k <= |Deltas(s, a, b)|
    requires cl.buffer == Text(s, a)
    ensures a + k <= b && Received(cl, Deltas(s, a, b), k) == Advanced(s, a, k, cl)
  {
    if k > 0 {
      FoldDeltas(s, a, b, cl, k - 1);
      DeltaAdvances(s, a, b, cl, k - 1);
    }
  }

  lemma AdvancedMoves(s: Entries, a: nat, k: nat, cl: Client)
    requires Ordered(s) && At(s, cl, a) && a + k <= |s|
    ensures Moved(s, cl, Advanced(s, a, k, cl), a + k)
  {
    if k > 0 {
      assert a + k < |s| ==> Earlier(s, a + k - 1, a + k);
      assert s[a + k - 1].msg.Completion? ==> Terminal(s[a + k - 1].msg);
    }
  }

  lemma DeltasKeepAgreement(s: Entries, a: nat, b: nat, cl: Client, k: nat)
    requires Ordered(s) && a <= b <= |s| && At(s, cl, a) && k <= |Deltas(s, a, b)|
    ensures a + k <= b && Moved(s, cl, Received(cl, Deltas(s, a, b), k), a + k)
  {
    FoldDeltas(s, a, b, cl, k);
    AdvancedMoves(s, a, k, cl);
  }

  lemma {:induction false} ReceivedAfterFirst(cl: Client, e: Event, es: seq<Event>, k: nat)
    requires k <= |es|
    ensures Received(cl, [e] + es, k + 1) == Received(Receive(cl, e), es, k)
  {
    if k > 0 {
      ReceivedAfterFirst(cl, e, es, k - 1);
      assert ([e] + es)[k] == es[k - 1];
    }
  }

  // A snapshot leaves any client where all the deltas would leave a new one.
  lemma SnapshotMoves(s: Entries, n: nat, cl: Client)
    requires Ordered(s) && 0 < n <= |s|
    ensures Receive(cl, Snapshot(s, n)) == Client(Text(s, n), s[n - 1].id, cl.finished)
    ensures At(s, Receive(cl, Snapshot(s, n)), n)
  {
    assert n < |s| ==> Earlier(s, n - 1, n);
  }

  lemma ClosingMoves(s: Entries, n: nat, cl: Client, k: nat)
    requires Ordered(s) && 0 < n <= |s| && Closed(s, n) && k <= 1
    ensures Moved(s, cl, Received(Receive(cl, Snapshot(s, n)), [Closing(s, n)], k), n)
  {
    SnapshotMoves(s, n, cl);
  }

  lemma OpenSnapshotMoves(s: Entries, n: nat, m: nat, cl: Client, k: nat)
    requires Ordered(s) && 0 < n <= m <= |s| && k <= |Deltas(s, n, m)|
    ensures n + k <= m && Moved(s, cl, Received(Receive(cl, Snapshot(s, n)), Deltas(s, n, m), k), n + k)
  {
    SnapshotMoves(s, n, cl);
    DeltasKeepAgreement(s, n, m, Receive(cl, Snapshot(s, n)), k);
    assert k > 0 ==> Earlier(s, n - 1, n + k - 1);
  }

  lemma OpenTraceMoves(s: Entries, cl: Client, n: nat, m: nat, k: nat)
    requires Ordered(s) && 0 < n <= m <= |s| && StatusOf(s, n) == InProgress
    requires 0 < k <= |FreshTrace(s, n, m)|
    ensures n + k - 1 <= m && Moved(s, cl, Received(cl, FreshTrace(s, n, m), k), n + k - 1)
  {
    ReceivedAfterFirst(cl, Snapshot(s, n), Deltas(s, n, m), k - 1);
    OpenSnapshotMoves(s, n, m, cl, k - 1);
  }

  lemma ClosedTraceMoves(s: Entries, cl: Client, n: nat, m: nat, k: nat)
    requires Ordered(s) && 0 < n <= m <= |s| && StatusOf(s, n) != InProgress
    requires 0 < k <= |FreshTrace(s, n, m)|
    ensures Moved(s, cl, Received(cl, FreshTrace(s, n, m), k), n)
  {
    StatusMeansClosed(s, n);
    ReceivedAfterFirst(cl, Snapshot(s, n), [Closing(s, n)], k - 1);
    ClosingMoves(s, n, cl, k - 1);
  }

  lemma FreshKeepsPosition(s: Entries, cl: Client, n: nat, m: nat, k: nat) returns (p: nat)
    requires Ordered(s) && 0 < n <= m <= |s|
    requires 0 < k <= |FreshTrace(s, n, m)|
    ensures n <= p <= m && Moved(s, cl, Received(cl, FreshTrace(s, n, m), k), p)
  {
    if StatusOf(s, n) == InProgress {
      OpenTraceMoves(s, cl, n, m, k);
      return n + k - 1;
    }
    ClosedTraceMoves(s, cl, n, m, k);
    return n;
  }

  lemma ConnectionKeepsPosition(s: Entries, cl: Client, p: nat, n: nat, m: nat, k: nat) returns (p': nat)
    requires Ordered(s) && At(s, cl, p) && n <= m <= |s| && p <= if CursorOf(cl).Some? then m else n
    requires k <= |Trace(s, CursorOf(cl), n, m)|
    ensures p <= p' <= m && Moved(s, cl, Received(cl, Trace(s, CursorOf(cl), n, m), k), p')
  {
    if CursorOf(cl).None? && n > 0 {
      if k == 0 {
        return p;
      }
      p' := FreshKeepsPosition(s, cl, n, m, k);
      return p';
    }
    ResumedKeepsPosition(s, cl, p, n, m, k);
    return p + k;
  }

  lemma ResumedKeepsPosition(s: Entries, cl: Client, p: nat, n: nat, m: nat, k: nat)
    requires Ordered(s) && At(s, cl, p) && p <= m <= |s| && n <= m
    requires (CursorOf(cl).Some? || (n == 0 && p == 0)) && k <= |Trace(s, CursorOf(cl), n, m)|
    ensures p + k <= m && Moved(s, cl, Received(cl, Trace(s, CursorOf(cl), n, m), k), p + k)
  {
    SplitIsUnique(s, cl.lastSeen, p);
    assert Start(s, CursorOf(cl)) == p;
    DeltasKeepAgreement(s, p, m, cl, k);
  }

  // However a connection is cut, the client has each chunk up to its cursor exactly once.
  lemma ConnectionKeepsAgreement(s: Entries, cl: Client, n: nat, m: nat, k: nat)
    requires Ordered(s) && Agrees(s, cl)
    requires n <= m <= |s| && Position(s, cl.lastSeen) <= if CursorOf(cl).Some? then m else n
    requires k <= |Trace(s, CursorOf(cl), n, m)|
    ensures var cl' := Received(cl, Trace(s, CursorOf(cl), n, m), k);
            && Agrees(s, cl')
            && Position(s, cl.lastSeen) <= Position(s, cl'.lastSeen) <= m
            && (cl'.finished ==> cl.finished || Closed(s, Position(s, cl'.lastSeen)))
            && (cl'.lastSeen == cl.lastSeen || exists i :: 0 <= i < |s| && cl'.lastSeen == s[i].id)
  {
    var p := Position(s, cl.lastSeen);
    AtMeansAgrees(s, cl, p);
    var p' := ConnectionKeepsPosition(s, cl, p, n, m, k);
    AtMeansAgrees(s, Received(cl, Trace(s, CursorOf(cl), n, m), k), p');
  }

  // ---- any number of connections ---------------------------------------------------

  // A connection that found n entries at first and m in the end and was cut after k events.
  datatype Connection = Connection(n: nat, m: nat, k: nat)

  // The client after some connections, each of which starts where the stream is at least as
  // long as the last one saw it; None when the connections are not like that.
  ghost function AfterSession(s: Entries, cs: seq<Connection>): Option<Client> {
    if cs == [] then Some(NEW_CLIENT)
    else
      var before := AfterSession(s, cs[..|cs| - 1]);
      var c := cs[|cs| - 1];
      if before.Some? && SeenBy(cs[..|cs| - 1]) <= c.n <= c.m <= |s|
         && c.k <= |Trace(s, CursorOf(before.value), c.n, c.m)|
      then Some(Received(before.value, Trace(s, CursorOf(before.value), c.n, c.m), c.k))
      else None
  }

  ghost function SeenBy(cs: seq<Connection>): nat {
    if cs == [] then 0 else cs[|cs| - 1].m
  }

  // Over any number of connections, each cut at any point, nothing is lost and nothing is
  // repeated: the buffer is the concatenation of the chunks up to the cursor.
  lemma {:induction false} ResumedStreamIsExact(s: Entries, cs: seq<Connection>)
    requires Ordered(s) && AfterSession(s, cs).Some?
    ensures var cl := AfterSession(s, cs).value;
            && cl.buffer == TextUpTo(s, |s|, cl.lastSeen)
            && Position(s, cl.lastSeen) <= SeenBy(cs)
            && (cl.finished ==> Closed(s, Position(s, cl.lastSeen)))
  {
    if cs == [] {
      PositionOfZero(s);
      UpToCursor(s, |s|, 0, 0);
    } else {
      var c := cs[|cs| - 1];
      ResumedStreamIsExact(s, cs[..|cs| - 1]);
      ConnectionKeepsAgreement(s, AfterSession(s, cs[..|cs| - 1]).value, c.n, c.m, c.k);
    }
  }

  // What one attempt that succeeds writes into an empty stream.
  ghost predicate OneSuccess(s: Entries) {
    && s != []
    && (forall i :: 0 <= i < |s| - 1 ==> s[i].msg.Chunk?)
    && s[|s| - 1].msg.Completion?
  }

  // A client that was told that the job is done has its whole text.
  lemma FinishedClientHasWholeText(s: Entries, cs: seq<Connection>)
    requires Ordered(s) && OneSuccess(s) && AfterSession(s, cs).Some? && AfterSession(s, cs).value.finished
    ensures AfterSession(s, cs).value.buffer == Text(s, |s|)
  {
    ResumedStreamIsExact(s, cs);
    ClosedMeansWhole(s, AfterSession(s, cs).value);
  }

  lemma ClosedMeansWhole(s: Entries, cl: Client)
    requires Ordered(s) && OneSuccess(s) && Agrees(s, cl) && Closed(s, Position(s, cl.lastSeen))
    ensures cl.buffer == Text(s, |s|)
  {
    UpToCursor(s, |s|, Position(s, cl.lastSeen), cl.lastSeen);
  }

  lemma {:induction false} DeltasOfOneSuccess(s: Entries, a: nat)
    requires OneSuccess(s) && a <= |s|
    ensures |Deltas(s, a, |s|)| == |s| - a
    decreases |s| - a
  {
    if a < |s| {
      DeltasOfOneSuccess(s, a + 1);
    }
  }

  // Where a client stands that was sent all deltas after position a.
  lemma AllDeltasDeliver(s: Entries, a: nat, cl: Client)
    requires Ordered(s) && OneSuccess(s) && a <= |s| && cl.buffer == Text(s, a)
    ensures var ds := Deltas(s, a, |s|);
            var cl' := Received(cl, ds, |ds|);
            cl'.buffer == Text(s, |s|) && (cl'.finished <==> cl.finished || a < |s|)
  {
    DeltasOfOneSuccess(s, a);
    FoldDeltas(s, a, |s|, cl, |s| - a);
  }

  lemma OpenFreshConnection(s: Entries, cl: Client, n: nat)
    requires Ordered(s) && OneSuccess(s) && 0 < n <= |s|
    ensures var trace := FreshTrace(s, n, |s|);
            var cl' := Received(cl, trace, |trace|);
            cl'.buffer == Text(s, |s|) && cl'.finished
  {
    SnapshotMoves(s, n, cl);
    StatusMeansClosed(s, n);
    if StatusOf(s, n) == InProgress {
      assert n < |s| by {
        assert Terminal(s[|s| - 1].msg);
      }
      ReceivedAfterFirst(cl, Snapshot(s, n), Deltas(s, n, |s|), |Deltas(s, n, |s|)|);
      AllDeltasDeliver(s, n, Receive(cl, Snapshot(s, n)));
    } else {
      ReceivedAfterFirst(cl, Snapshot(s, n), [Closing(s, n)], 1);
    }
  }

  // A connection that stays open to the end of such a stream gives the client the whole text;
  // it also tells the client that the job is done, unless an earlier connection had been cut
  // between the snapshot of the whole stream and the event that closes it.
  lemma OpenConnectionDelivers(s: Entries, cl: Client, n: nat)
    requires Ordered(s) && OneSuccess(s) && Agrees(s, cl)
    requires n <= |s| && Position(s, cl.lastSeen) <= if CursorOf(cl).Some? then |s| else n
    ensures var trace := Trace(s, CursorOf(cl), n, |s|);
            var cl' := Received(cl, trace, |trace|);
            && cl'.buffer == Text(s, |s|)
            && (cl'.finished <==> cl.finished || Position(s, cl.lastSeen) < |s|)
  {
    var p := Position(s, cl.lastSeen);
    AtMeansAgrees(s, cl, p);
    if CursorOf(cl).None? && n > 0 {
      OpenFreshConnection(s, cl, n);
      PositionOfZero(s);
      return;
    }
    assert Start(s, CursorOf(cl)) == p;
    AllDeltasDeliver(s, p, cl);
  }

  // The last terminal entry among the first n, if there is one.
  ghost predicate LastTerminal(s: Entries, n: nat, i: nat) {
    i < n <= |s| && Terminal(s[i].msg) && forall k :: i < k < n ==> s[k].msg.Chunk?
  }

  predicate SaysLike(d: Data, m: Message) {
    match m
    case Chunk(_) => false
    case Completion => d.status == Some(Completed) && d.code == None && d.message == None
    case Failure(code, message, _) => d.status == Some(Failed) && d.code == Some(code) && d.message == Some(message)
  }

  // A snapshot tells the id of the last entry and the state of the last attempt: in progress
  // before any terminal entry, then what the last one says.
  lemma {:induction false} SnapshotTells(s: Entries, n: nat)
    requires 0 < n <= |s|
    ensures var e := Snapshot(s, n);
            && e.kind.SnapshotEvent? && e.id == s[n - 1].id
            && (!Closed(s, n) ==> e.data.status == Some(InProgress) && e.data.code == None && e.data.message == None)
    ensures forall i: nat :: LastTerminal(s, n, i) ==> SaysLike(Snapshot(s, n).data, s[i].msg)
  {
    StatusMeansClosed(s, n);
    forall i: nat | LastTerminal(s, n, i)
      ensures StatusOf(s, n) == (if s[i].msg.Failure? then Failed else Completed)
      ensures s[i].msg.Failure? ==> ErrorOf(s, n) == (Some(s[i].msg.code), Some(s[i].msg.message))
    {
      LastTerminalCounts(s, n, i);
    }
  }

  lemma {:induction false} LastTerminalCounts(s: Entries, n: nat, i: nat)
    requires LastTerminal(s, n, i)
    ensures StatusOf(s, n) == (if s[i].msg.Failure? then Failed else Completed)
    ensures s[i].msg.Failure? ==> ErrorOf(s, n) == (Some(s[i].msg.code), Some(s[i].msg.message))
  {
    if i < n - 1 {
      LastTerminalCounts(s, n - 1, i);
    }
  }

  // A new client that was fed the first n entries one by one.
  function Fed(s: Entries, n: nat): Client
    requires n <= |s|
  {
    if n == 0 then NEW_CLIENT else Receive(Fed(s, n - 1), Delta(s[n - 1]))
  }

  lemma {:induction false} FedHasText(s: Entries, n: nat)
    requires Ordered(s) && n <= |s|
    ensures Fed(s, n).buffer == Text(s, n) && Fed(s, n).lastSeen == if n == 0 then 0 else s[n - 1].id
    ensures Fed(s, n).finished <==> exists i :: 0 <= i < n && s[i].msg.Completion?
  {
    if n > 0 {
      FedHasText(s, n - 1);
    }
  }

  // For a new client the snapshot of any stream is worth all its entries, whatever attempts
  // they come from: the same text and the same cursor. If no entry is terminal it is worth the
  // deltas that a connection would send.
  lemma SnapshotIsWorthDeltas(s: Entries, n: nat)
    requires Ordered(s) && 0 < n <= |s|
    ensures Receive(NEW_CLIENT, Snapshot(s, n)) == Fed(s, n).(finished := false)
    ensures !Closed(s, n) ==> |Deltas(s, 0, n)| == n && Received(NEW_CLIENT, Deltas(s, 0, n), n) == Fed(s, n)
  {
    SnapshotMoves(s, n, NEW_CLIENT);
    FedHasText(s, n);
    if !Closed(s, n) {
      DeltasOfOpenStream(s, 0, n);
      FoldDeltas(s, 0, n, NEW_CLIENT, n);
    }
  }

  lemma {:induction false} DeltasOfOpenStream(s: Entries, a: nat, n: nat)
    requires a <= n <= |s| && forall i :: a <= i < n ==> s[i].msg.Chunk?
    ensures |Deltas(s, a, n)| == n - a
    decreases n - a
  {
    if a < n {
      DeltasOfOpenStream(s, a + 1, n);
    }
  }

  // ---- grammar ---------------------------------------------------------------------

  predicate TerminalEvent(e: Event) { e.kind.DoneEvent? || e.kind.ErrorEvent? }

  // A snapshot may only come first, a terminal event may only come last, and ids never
  // decrease.
  ghost predicate Grammar(es: seq<Event>) {
    && (forall i :: 0 < i < |es| ==> !es[i].kind.SnapshotEvent?)
    && (forall i :: 0 <= i < |es| - 1 ==> !TerminalEvent(es[i]))
    && (forall i, j :: 0 <= i < j < |es| ==> es[i].id <= es[j].id)
  }

  lemma DeltasFollowGrammar(s: Entries, a: nat, b: nat)
    requires Ordered(s) && a <= b <= |s|
    ensures Grammar(Deltas(s, a, b))
    ensures forall i :: 0 <= i < |Deltas(s, a, b)| ==>
      !Deltas(s, a, b)[i].kind.SnapshotEvent? && (a > 0 ==> s[a - 1].id <= Deltas(s, a, b)[i].id)
  {
    var ds := Deltas(s, a, b);
    forall i | 0 <= i < |ds|
      ensures a + i < b && ds[i] == Delta(s[a + i]) && (i < |ds| - 1 ==> s[a + i].msg.Chunk?)
    {
      DeltasAt(s, a, b, i);
    }
    forall i, j | 0 <= i < j < |ds|
      ensures ds[i].id <= ds[j].id
    {
      DeltasAt(s, a, b, j);
      assert Earlier(s, a + i, a + j);
    }
    forall i | 0 <= i < |ds| && a > 0
      ensures s[a - 1].id <= ds[i].id
    {
      DeltasAt(s, a, b, i);
      assert Earlier(s, a - 1, a + i);
    }
  }

  lemma FreshFollowsGrammar(s: Entries, n: nat, m: nat)
    requires Ordered(s) && 0 < n <= m <= |s|
    ensures Grammar(FreshTrace(s, n, m))
  {
    DeltasFollowGrammar(s, n, m);
    if StatusOf(s, n) == InProgress {
      var ds := Deltas(s, n, m);
      assert forall i :: 0 < i < 1 + |ds| ==> FreshTrace(s, n, m)[i] == ds[i - 1];
    }
  }

  // Every connection follows the grammar, however it is cut, and one with a cursor sends no
  // snapshot.
  lemma TraceFollowsGrammar(s: Entries, cursor: Option<nat>, n: nat, m: nat, sent: seq<Event>)
    requires Ordered(s) && n <= m <= |s| && sent <= Trace(s, cursor, n, m)
    ensures Grammar(sent)
    ensures cursor.Some? && sent != [] ==> !sent[0].kind.SnapshotEvent?
  {
    if cursor.None? && n > 0 {
      FreshFollowsGrammar(s, n, m);
    } else if Start(s, cursor) <= m {
      DeltasFollowGrammar(s, Start(s, cursor), m);
    }
  }
}
