/** One pass of the database synchronisation, `src/cron/syncDbResults.ts`, command by command.
    Redis may answer null and the query may throw in any chunk. */
module SyncDb {
  import opened Redis
  import opened SyncModel

  const CHUNK_SIZE := 100
  const COLUMNS := 12

  // ---- SQL parameters --------------------------------------------------------------

  type SqlValue = Option<string>

  // The columns of the INSERT, in order.
  function Fields(r: JobRow): (fields: seq<SqlValue>)
    ensures |fields| == COLUMNS
  {
    [Some(r.jobId), r.userId, r.resumeId, r.requestedModel, r.processedModel, Some(r.status), r.result, r.error,
     r.errorCode, Some(r.createdAt), r.finishedAt, r.expiredAt]
  }

  function Text(v: SqlValue): string { if v.Some? then v.value else "" }

  // The row that the database reads through the placeholders of one VALUES tuple, which count
  // from 1.
  function Bound(values: seq<SqlValue>, tuple: seq<nat>): JobRow
    requires |tuple| == COLUMNS && forall k :: 0 <= k < COLUMNS ==> 1 <= tuple[k] <= |values|
  {
    JobRow(Text(values[tuple[0] - 1]), values[tuple[1] - 1], values[tuple[2] - 1], values[tuple[3] - 1],
           values[tuple[4] - 1], Text(values[tuple[5] - 1]), values[tuple[6] - 1], values[tuple[7] - 1],
           values[tuple[8] - 1], Text(values[tuple[9] - 1]), values[tuple[10] - 1], values[tuple[11] - 1])
  }

  ghost predicate Numbered(tuple: seq<nat>, base: nat) {
    |tuple| == COLUMNS && forall k :: 0 <= k < COLUMNS ==> tuple[k] == base + k + 1
  }

  // The i-th tuple of the placeholders reads back the i-th row.
  ghost predicate Aligned(rows: seq<JobRow>, values: seq<SqlValue>, placeholders: seq<seq<nat>>) {
    && |placeholders| == |rows| && |values| == COLUMNS * |rows|
    && forall i :: 0 <= i < |rows| ==>
         Numbered(placeholders[i], COLUMNS * i) && Bound(values, placeholders[i]) == rows[i]
  }

  method Flatten(rows: seq<JobRow>) returns (values: seq<SqlValue>, placeholders: seq<seq<nat>>)
    ensures Aligned(rows, values, placeholders)
  {
    values, placeholders := [], [];
    for idx := 0 to |rows|
      invariant Aligned(rows[..idx], values, placeholders)
    {
      var base := idx * COLUMNS;
      ghost var before := values;
      values := values + Fields(rows[idx]);
      placeholders := placeholders
        + [[base + 1, base + 2, base + 3, base + 4, base + 5, base + 6, base + 7, base + 8, base + 9, base + 10,
            base + 11, base + 12]];
      forall i | 0 <= i < idx
        ensures Bound(values, placeholders[i]) == Bound(before, placeholders[i])
      {
      }
    }
    assert rows[..|rows|] == rows;
  }

  // ---- the stores ------------------------------------------------------------------

  function UpsertAll(t: Table, rows: seq<JobRow>, n: nat): Table
    requires n <= |rows|
  {
    if n == 0 then t
    else var before := UpsertAll(t, rows, n - 1);
         before[rows[n - 1].jobId := Merge(Lookup(before, rows[n - 1].jobId), rows[n - 1])]
  }

  ghost predicate NoRowTwice(rows: seq<JobRow>) {
    forall i, j :: 0 <= i < j < |rows| ==> rows[i].jobId != rows[j].jobId
  }

  /** Redis and the database; `trace` is every state that another process can have seen. */
  class Stores {
    var hashes: map<CacheKey, Hash>
    var expires: map<CacheKey, int>
    var rows: Table
    ghost var trace: seq<World>

    ghost function Now(): World
      reads this
    {
      World(hashes, expires, rows)
    }

    method HGetAll(k: CacheKey) returns (h: Hash)
      ensures h == HashAt(Now(), k)
    {
      h := if k in hashes then hashes[k] else map[];
    }

    method HSetSynced(id: Id, iso: string)
      modifies this
      ensures Now() == Mark(old(Now()), id, iso) && trace == old(trace) + [Now()]
    {
      var h := HGetAll(ResultKey(id));
      hashes := hashes[ResultKey(id) := h["synced_at" := iso]];
      trace := trace + [Now()];
    }

    method Expire(k: CacheKey, at: int)
      modifies this
      ensures Now() == Shorten(old(Now()), k, at) && trace == old(trace) + [Now()]
    {
      if k in hashes {
        expires := expires[k := at];
      }
      trace := trace + [Now()];
    }

    // The INSERT throws for a reason of its own, or when one id comes twice.
    method Query(values: seq<SqlValue>, placeholders: seq<seq<nat>>, ghost list: seq<JobRow>) returns (ok: bool)
      requires Aligned(list, values, placeholders)
      modifies this
      ensures ok ==> NoRowTwice(list) && Now() == old(Now()).(rows := UpsertAll(old(rows), list, |list|))
      ensures ok ==> trace == old(trace) + [Now()]
      ensures !ok ==> Now() == old(Now()) && trace == old(trace)
    {
      var bound := BindAll(list, values, placeholders);
      var table, twice := InsertAll(rows, bound);
      ok := *;
      ok := ok && !twice;
      if ok {
        rows := table;
        trace := trace + [Now()];
      }
    }
  }

  method InsertAll(t: Table, list: seq<JobRow>) returns (table: Table, twice: bool)
    ensures !twice ==> NoRowTwice(list) && table == UpsertAll(t, list, |list|)
  {
    table := t;
    for i := 0 to |list|
      invariant table == UpsertAll(t, list, i)
      invariant forall a, b :: 0 <= a < b < i ==> list[a].jobId != list[b].jobId
    {
      if exists j :: 0 <= j < i && list[j].jobId == list[i].jobId {
        return table, true;
      }
      table := table[list[i].jobId := Merge(Lookup(table, list[i].jobId), list[i])];
    }
    return table, false;
  }

  method BindAll(ghost list: seq<JobRow>, values: seq<SqlValue>, placeholders: seq<seq<nat>>) returns (bound: seq<JobRow>)
    requires Aligned(list, values, placeholders)
    ensures bound == list
  {
    bound := [];
    for i := 0 to |placeholders|
      invariant |bound| == i && forall k :: 0 <= k < i ==> bound[k] == list[k]
    {
      bound := bound + [Bound(values, placeholders[i])];
    }
  }

  lemma {:induction false} UpsertAllAt(t: Table, rows: seq<JobRow>, n: nat, id: Id)
    requires n <= |rows| && NoRowTwice(rows)
    ensures (forall k :: 0 <= k < n ==> rows[k].jobId != id) ==> Lookup(UpsertAll(t, rows, n), id) == Lookup(t, id)
    ensures forall k :: 0 <= k < n && rows[k].jobId == id ==>
      Lookup(UpsertAll(t, rows, n), id) == Some(Merge(Lookup(t, id), rows[k]))
  {
    if n > 0 {
      UpsertAllAt(t, rows, n - 1, id);
    }
  }

  // ---- one chunk -------------------------------------------------------------------

  lemma UpsertAllTells(env: Env, w: World, ids: seq<Id>, rows: seq<JobRow>, id: Id)
    requires rows == CollectRows(env, w, ids, |ids|) && NoRowTwice(rows)
    ensures Lookup(UpsertAll(w.rows, rows, |rows|), id) ==
      if id in ids && RowOf(env, w, id).Some? then Some(Merge(Lookup(w.rows, id), RowOf(env, w, id).value))
      else Lookup(w.rows, id)
  {
    UpsertAllAt(w.rows, rows, |rows|, id);
    WhereCollected(env, w, ids, rows, id);
  }

  lemma WhereCollected(env: Env, w: World, ids: seq<Id>, rows: seq<JobRow>, id: Id)
    requires rows == CollectRows(env, w, ids, |ids|)
    ensures if id in ids && RowOf(env, w, id).Some?
            then exists k :: 0 <= k < |rows| && rows[k] == RowOf(env, w, id).value && rows[k].jobId == id
            else forall k :: 0 <= k < |rows| ==> rows[k].jobId != id
  {
    CollectedRows(env, w, ids, |ids|);
    if id in ids && RowOf(env, w, id).Some? {
      var k :| 0 <= k < |rows| && rows[k] == RowOf(env, w, id).value;
    } else {
      forall k | 0 <= k < |rows| ensures rows[k].jobId != id {
        assert rows[k] in rows;
      }
    }
  }

  lemma UpsertAllIsUpserted(env: Env, w: World, ids: seq<Id>, rows: seq<JobRow>)
    requires rows == CollectRows(env, w, ids, |ids|) && NoRowTwice(rows)
    ensures Upserted(env, w, ids, UpsertAll(w.rows, rows, |rows|))
  {
    forall id
      ensures Lookup(UpsertAll(w.rows, rows, |rows|), id) ==
        if id in ids && RowOf(env, w, id).Some? then Some(Merge(Lookup(w.rows, id), RowOf(env, w, id).value))
        else Lookup(w.rows, id)
    {
      UpsertAllTells(env, w, ids, rows, id);
    }
  }

  // Replies 2i and 2i + 1 are the meta and the result of id i.
  ghost predicate Paired(w: World, ids: seq<Id>, replies: seq<Hash>) {
    && |replies| == 2 * |ids|
    && forall i :: 0 <= i < |ids| ==> replies[2 * i] == MetaAt(w, ids[i]) && replies[2 * i + 1] == ResultAt(w, ids[i])
  }

  method ReadChunk(stores: Stores, ids: seq<Id>) returns (replies: Option<seq<Hash>>)
    ensures replies.Some? ==> Paired(stores.Now(), ids, replies.value)
  {
    var commands: seq<CacheKey> := [];
    for i := 0 to |ids|
      invariant |commands| == 2 * i
      invariant forall k :: 0 <= k < i ==> commands[2 * k] == MetaKey(ids[k]) && commands[2 * k + 1] == ResultKey(ids[k])
    {
      commands := commands + [MetaKey(ids[i])] + [ResultKey(ids[i])];
    }
    var answers: seq<Hash> := [];
    for i := 0 to |commands|
      invariant |answers| == i
      invariant forall k :: 0 <= k < i ==> answers[k] == HashAt(stores.Now(), commands[k])
    {
      var h := stores.HGetAll(commands[i]);
      answers := answers + [h];
    }
    var failed: bool := *;
    return if failed then None else Some(answers);
  }

  function ActionAt(env: Env, w: World, id: Id): Action { ActionOf(env, MetaAt(w, id), ResultAt(w, id)) }

  // What parsing the first n ids collects.
  function CollectRows(env: Env, w: World, ids: seq<Id>, n: nat): seq<JobRow>
    requires n <= |ids|
  {
    if n == 0 then []
    else if RowOf(env, w, ids[n - 1]).None? then CollectRows(env, w, ids, n - 1)
    else CollectRows(env, w, ids, n - 1) + [RowOf(env, w, ids[n - 1]).value]
  }

  function CollectKeys(env: Env, w: World, ids: seq<Id>, n: nat): seq<CacheKey>
    requires n <= |ids|
  {
    if n == 0 then []
    else if ActionAt(env, w, ids[n - 1]).AlreadySynced? then CollectKeys(env, w, ids, n - 1)
    else CollectKeys(env, w, ids, n - 1) + [ResultKey(ids[n - 1]), MetaKey(ids[n - 1])]
  }

  function CollectMarks(env: Env, w: World, ids: seq<Id>, n: nat): seq<Id>
    requires n <= |ids|
  {
    if n == 0 then []
    else if ActionAt(env, w, ids[n - 1]).Persist? then CollectMarks(env, w, ids, n - 1) + [ids[n - 1]]
    else CollectMarks(env, w, ids, n - 1)
  }

  lemma {:induction false} CollectedRows(env: Env, w: World, ids: seq<Id>, n: nat)
    requires n <= |ids|
    ensures forall r :: r in CollectRows(env, w, ids, n) ==> r.jobId in ids && RowOf(env, w, r.jobId) == Some(r)
    ensures forall i :: 0 <= i < n && RowOf(env, w, ids[i]).Some? ==>
      RowOf(env, w, ids[i]).value in CollectRows(env, w, ids, n)
  {
    if n > 0 {
      CollectedRows(env, w, ids, n - 1);
    }
  }

  lemma {:induction false} CollectedKeys(env: Env, w: World, ids: seq<Id>, n: nat)
    requires n <= |ids|
    ensures forall k :: k in CollectKeys(env, w, ids, n) ==> k.id in ids && !ActionAt(env, w, k.id).AlreadySynced?
    ensures forall id :: id in CollectMarks(env, w, ids, n) ==> id in ids && ActionAt(env, w, id).Persist?
    ensures forall i :: 0 <= i < n && ActionAt(env, w, ids[i]).Persist? ==> ids[i] in CollectMarks(env, w, ids, n)
  {
    if n > 0 {
      CollectedKeys(env, w, ids, n - 1);
    }
  }

  // What one job adds to the rows, the keys and the marks of a chunk.
  datatype Found = Found(row: Option<JobRow>, keys: seq<CacheKey>, mark: bool)

  ghost predicate FoundOf(env: Env, w: World, id: Id, found: Found) {
    var action := ActionAt(env, w, id);
    && found.row == RowOf(env, w, id)
    && found.keys == (if action.AlreadySynced? then [] else [ResultKey(id), MetaKey(id)])
    && found.mark == action.Persist?
  }

  method ParseJob(env: Env, id: Id, meta: Hash, result: Hash, ghost w: World) returns (found: Found)
    requires meta == MetaAt(w, id) && result == ResultAt(w, id)
    ensures FoundOf(env, w, id, found)
  {
    var metaEmpty, resultEmpty := meta == map[], result == map[];
    if metaEmpty || resultEmpty {
      if !metaEmpty && resultEmpty && Stale(env, meta) {
        return Found(Some(MissingRow(env, id, meta)), [ResultKey(id), MetaKey(id)], false);
      }
      return Found(None, [ResultKey(id), MetaKey(id)], false);
    }
    if IsSynced(result) {
      return Found(None, [], false);
    }
    return Found(Some(ResultRow(env, id, meta, result)), [ResultKey(id), MetaKey(id)], true);
  }

  lemma CollectOneMore(env: Env, w: World, ids: seq<Id>, i: nat, found: Found)
    requires i < |ids| && FoundOf(env, w, ids[i], found)
    ensures CollectRows(env, w, ids, i + 1) == CollectRows(env, w, ids, i) + if found.row.Some? then [found.row.value] else []
    ensures CollectKeys(env, w, ids, i + 1) == CollectKeys(env, w, ids, i) + found.keys
    ensures CollectMarks(env, w, ids, i + 1) == CollectMarks(env, w, ids, i) + if found.mark then [ids[i]] else []
  {}

  method ParseChunk(env: Env, ids: seq<Id>, replies: seq<Hash>, ghost w: World)
    returns (rows: seq<JobRow>, keysToExpire: seq<CacheKey>, synced: seq<Id>)
    requires Paired(w, ids, replies)
    ensures rows == CollectRows(env, w, ids, |ids|)
    ensures keysToExpire == CollectKeys(env, w, ids, |ids|) && synced == CollectMarks(env, w, ids, |ids|)
  {
    rows, keysToExpire, synced := [], [], [];
    for i := 0 to |ids|
      invariant rows == CollectRows(env, w, ids, i)
      invariant keysToExpire == CollectKeys(env, w, ids, i)
      invariant synced == CollectMarks(env, w, ids, i)
    {
      var found := ParseJob(env, ids[i], replies[i * 2], replies[i * 2 + 1], w);
      CollectOneMore(env, w, ids, i, found);
      rows := rows + if found.row.Some? then [found.row.value] else [];
      keysToExpire := keysToExpire + found.keys;
      synced := synced + if found.mark then [ids[i]] else [];
    }
  }

  // ---- writing a chunk -------------------------------------------------------------

  // Every state since `from` was safe.
  ghost predicate AllSafe(env: Env, w0: World, trace: seq<World>, from: nat) {
    forall i :: from <= i < |trace| ==> Safe(env, w0, trace[i])
  }

  ghost predicate SameButMarks(a: World, b: World, marks: seq<Id>) {
    && (forall id :: MetaAt(a, id) == MetaAt(b, id))
    && (forall id :: id !in marks ==> ResultAt(b, id) == ResultAt(a, id))
    && (forall id :: id in marks ==> IsSynced(ResultAt(b, id)))
  }

  lemma OneMoreMark(a: World, b: World, marks: seq<Id>, id: Id, iso: string)
    requires SameButMarks(a, b, marks) && iso != ""
    ensures SameButMarks(a, Mark(b, id, iso), marks + [id])
    ensures forall i :: ResultAt(b, i) != map[] ==> ResultAt(Mark(b, id, iso), i) != map[]
  {}

  method MarkAll(stores: Stores, env: Env, marks: seq<Id>, ghost w0: World, ghost from: nat)
    requires Safe(env, w0, stores.Now()) && AllSafe(env, w0, stores.trace, from) && env.iso != ""
    requires forall id :: id in marks ==> RowAgrees(env, stores.Now(), id) && ResultAt(stores.Now(), id) != map[]
    modifies stores
    ensures Safe(env, w0, stores.Now()) && AllSafe(env, w0, stores.trace, from) && old(stores.trace) <= stores.trace
    ensures forall id :: RowAgrees(env, stores.Now(), id) <==> RowAgrees(env, old(stores.Now()), id)
    ensures stores.rows == old(stores.rows) && stores.expires == old(stores.expires)
    ensures stores.hashes.Keys == old(stores.hashes.Keys) && SameButMarks(old(stores.Now()), stores.Now(), marks)
    ensures marks == [] ==> stores.hashes == old(stores.hashes)
  {
    ghost var w := stores.Now();
    for i := 0 to |marks|
      invariant Safe(env, w0, stores.Now()) && AllSafe(env, w0, stores.trace, from) && old(stores.trace) <= stores.trace
      invariant stores.rows == w.rows && stores.expires == w.expires && stores.hashes.Keys == w.hashes.Keys
      invariant i == 0 ==> stores.hashes == w.hashes
      invariant Marked(env, w, stores.Now(), marks, i)
    {
      MarkedNext(env, w0, w, stores.Now(), marks, i);
      stores.HSetSynced(marks[i], env.iso);
    }
    assert marks[..|marks|] == marks;
  }

  // The first i of `marks` have been set.
  ghost predicate Marked(env: Env, w: World, now: World, marks: seq<Id>, i: nat)
    requires i <= |marks|
  {
    && SameButMarks(w, now, marks[..i])
    && (forall id :: RowAgrees(env, now, id) <==> RowAgrees(env, w, id))
    && (forall id :: id in marks ==> RowAgrees(env, now, id) && ResultAt(now, id) != map[])
  }

  lemma MarkedNext(env: Env, w0: World, w: World, now: World, marks: seq<Id>, i: nat)
    requires i < |marks| && Marked(env, w, now, marks, i) && Safe(env, w0, now) && env.iso != ""
    ensures Marked(env, w, Mark(now, marks[i], env.iso), marks, i + 1) && Safe(env, w0, Mark(now, marks[i], env.iso))
  {
    assert marks[..i + 1] == marks[..i] + [marks[i]];
    OneMoreMark(w, now, marks[..i], marks[i], env.iso);
    MarkKeepsSafe(env, w0, now, marks[i], env.iso);
  }

  method ExpireAll(stores: Stores, env: Env, keys: seq<CacheKey>, ghost w0: World, ghost from: nat)
    requires Safe(env, w0, stores.Now()) && AllSafe(env, w0, stores.trace, from)
    requires forall k :: k in keys && Both(w0, k.id) ==> RowAgrees(env, stores.Now(), k.id)
    modifies stores
    ensures Safe(env, w0, stores.Now()) && AllSafe(env, w0, stores.trace, from) && old(stores.trace) <= stores.trace
    ensures stores.rows == old(stores.rows) && stores.hashes == old(stores.hashes)
    ensures stores.expires == Expiries(old(stores.Now()), keys, |keys|, env.nowMs + 300000)
  {
    ghost var w, at := stores.Now(), env.nowMs + 1000 * SYNCED_DATA_TTL_SECONDS;
    for i := 0 to |keys|
      invariant Safe(env, w0, stores.Now()) && AllSafe(env, w0, stores.trace, from) && old(stores.trace) <= stores.trace
      invariant forall id :: RowAgrees(env, stores.Now(), id) <==> RowAgrees(env, w, id)
      invariant stores.rows == w.rows && stores.hashes == w.hashes && stores.expires == Expiries(w, keys, i, at)
    {
      ShortenKeepsSafe(env, w0, stores.Now(), keys[i], at);
      stores.Expire(keys[i], env.nowMs + 1000 * SYNCED_DATA_TTL_SECONDS);
    }
  }

  // The deadlines after EXPIRE for the first n keys; a key that does not exist gets none.
  function Expiries(w: World, keys: seq<CacheKey>, n: nat, at: int): map<CacheKey, int>
    requires n <= |keys|
  {
    if n == 0 then w.expires
    else if keys[n - 1] in w.hashes then Expiries(w, keys, n - 1, at)[keys[n - 1] := at]
    else Expiries(w, keys, n - 1, at)
  }

  lemma {:induction false} ExpiriesTell(w: World, keys: seq<CacheKey>, n: nat, at: int)
    requires n <= |keys|
    ensures forall k ::
      Lookup(Expiries(w, keys, n, at), k) == (if k in keys[..n] && k in w.hashes then Some(at) else Lookup(w.expires, k))
  {
    if n > 0 {
      ExpiriesTell(w, keys, n - 1, at);
      assert keys[..n] == keys[..n - 1] + [keys[n - 1]];
    }
  }

  lemma {:induction false} LooksAtAll(env: Env, w: World, ids: seq<Id>, n: nat)
    requires n <= |ids|
    ensures forall k: CacheKey :: k.id in ids[..n] && LooksAt(w, k.id) ==> k in CollectKeys(env, w, ids, n)
  {
    if n > 0 {
      LooksAtAll(env, w, ids, n - 1);
      assert ids[..n] == ids[..n - 1] + [ids[n - 1]];
    }
  }

  lemma CollectedKeysExpire(env: Env, w: World, before: World, now: World, ids: seq<Id>)
    requires var keys := CollectKeys(env, w, ids, |ids|); now.expires == Expiries(before, keys, |keys|, env.nowMs + 300000)
    requires before.expires == w.expires && before.hashes.Keys == now.hashes.Keys
    ensures Expiring(env, w, ids, now)
  {
    var keys := CollectKeys(env, w, ids, |ids|);
    assert ids[..|ids|] == ids && keys[..|keys|] == keys;
    ExpiriesTell(before, keys, |keys|, env.nowMs + 300000);
    LooksAtAll(env, w, ids, |ids|);
    CollectedKeys(env, w, ids, |ids|);
  }

  // ---- the pass --------------------------------------------------------------------

  // What a chunk that ran to its end has done to the jobs `ids`.
  ghost predicate ChunkDone(env: Env, w: World, now: World, ids: seq<Id>) {
    && Upserted(env, w, ids, now.rows)
    && SameButMarks(w, now, CollectMarks(env, w, ids, |ids|))
    && Expiring(env, w, ids, now)
  }

  // Nothing that a chunk does can be seen in the rows or the hashes.
  ghost predicate Untouched(w: World, now: World) { now.rows == w.rows && now.hashes == w.hashes }

  lemma {:induction false} NoRows(env: Env, w: World, ids: seq<Id>, n: nat)
    requires n <= |ids|
    ensures CollectRows(env, w, ids, n) == [] <==> forall i :: 0 <= i < n ==> RowOf(env, w, ids[i]).None?
    ensures CollectRows(env, w, ids, n) == [] ==> CollectMarks(env, w, ids, n) == []
  {
    if n > 0 {
      NoRows(env, w, ids, n - 1);
    }
  }

  lemma NoRowsIsDone(env: Env, w: World, now: World, ids: seq<Id>)
    requires CollectRows(env, w, ids, |ids|) == [] && Untouched(w, now)
    requires var keys := CollectKeys(env, w, ids, |ids|); now.expires == Expiries(w, keys, |keys|, env.nowMs + 300000)
    ensures ChunkDone(env, w, now, ids)
  {
    CollectedKeysExpire(env, w, w, now, ids);
    NoRows(env, w, ids, |ids|);
    assert forall id :: MetaAt(now, id) == MetaAt(w, id) && ResultAt(now, id) == ResultAt(w, id);
  }

  // A key that is expired belongs to a job whose row was written or that had only one hash.
  lemma ExpiredKeysAgree(env: Env, w0: World, w: World, now: World, ids: seq<Id>)
    requires OnlyMarks(w0, w)
    requires CollectRows(env, w, ids, |ids|) == [] || forall id :: id in ids && Both(w, id) ==> RowAgrees(env, now, id)
    ensures forall k :: k in CollectKeys(env, w, ids, |ids|) && Both(w0, k.id) ==> RowAgrees(env, now, k.id)
  {
    NoRows(env, w, ids, |ids|);
    CollectedKeys(env, w, ids, |ids|);
    forall k | k in CollectKeys(env, w, ids, |ids|) && Both(w0, k.id)
      ensures RowAgrees(env, now, k.id)
    {
      assert Both(w, k.id);
      assert RowOf(env, w, k.id).Some?;
    }
  }

  lemma MarksAgree(env: Env, w: World, now: World, ids: seq<Id>)
    requires forall id :: id in ids && Both(w, id) ==> RowAgrees(env, now, id)
    requires now.hashes == w.hashes
    ensures forall id :: id in CollectMarks(env, w, ids, |ids|) ==> RowAgrees(env, now, id) && ResultAt(now, id) != map[]
  {
    CollectedKeys(env, w, ids, |ids|);
    forall id | id in CollectMarks(env, w, ids, |ids|)
      ensures RowAgrees(env, now, id) && ResultAt(now, id) != map[]
    {
      assert Both(w, id);
    }
  }

  // After the rows of a chunk are in the database.
  method MarkAndExpire(stores: Stores, env: Env, ids: seq<Id>, keysToExpire: seq<CacheKey>, synced: seq<Id>,
        ghost w0: World, ghost w: World, ghost from: nat)
    requires Safe(env, w0, w) && Upserted(env, w, ids, stores.rows) && stores.Now() == w.(rows := stores.rows)
    requires AllSafe(env, w0, stores.trace, from) && env.iso != ""
    requires keysToExpire == CollectKeys(env, w, ids, |ids|) && synced == CollectMarks(env, w, ids, |ids|)
    modifies stores
    ensures Safe(env, w0, stores.Now()) && AllSafe(env, w0, stores.trace, from) && old(stores.trace) <= stores.trace
    ensures ChunkDone(env, w, stores.Now(), ids)
  {
    UpsertKeepsSafe(env, w0, w, ids, stores.rows);
    MarksAgree(env, w, stores.Now(), ids);
    MarkAll(stores, env, synced, w0, from);
    ExpiredKeysAgree(env, w0, w, stores.Now(), ids);
    ghost var marked := stores.Now();
    ExpireAll(stores, env, keysToExpire, w0, from);
    SameHashes(w, marked, stores.Now(), synced);
    CollectedKeysExpire(env, w, marked, stores.Now(), ids);
  }

  lemma SameHashes(w: World, a: World, b: World, marks: seq<Id>)
    requires SameButMarks(w, a, marks) && b.hashes == a.hashes
    ensures SameButMarks(w, b, marks)
  {}

  method SyncChunk(stores: Stores, env: Env, ids: seq<Id>, ghost w0: World, ghost from: nat) returns (ok: bool)
    requires Safe(env, w0, stores.Now()) && AllSafe(env, w0, stores.trace, from) && env.iso != ""
    modifies stores
    ensures Safe(env, w0, stores.Now()) && AllSafe(env, w0, stores.trace, from) && old(stores.trace) <= stores.trace
    ensures ok ==> ChunkDone(env, old(stores.Now()), stores.Now(), ids)
    ensures ok ==> AllWritten(env, old(stores.Now()), ids, stores.rows)
    ensures !ok ==> stores.Now() == old(stores.Now())
    ensures CollectRows(env, old(stores.Now()), ids, |ids|) == [] ==> Untouched(old(stores.Now()), stores.Now())
  {
    ghost var w := stores.Now();
    var replies := ReadChunk(stores, ids);
    if replies.None? {
      return false;
    }
    var rows, keysToExpire, synced := ParseChunk(env, ids, replies.value, w);
    if rows == [] {
      ExpiredKeysAgree(env, w0, w, w, ids);
      ExpireAll(stores, env, keysToExpire, w0, from);
      NoRowsIsDone(env, w, stores.Now(), ids);
      UpsertWrites(env, w, ids, stores.rows);
      return true;
    }
    var values, placeholders := Flatten(rows);
    ok := stores.Query(values, placeholders, rows);
    if !ok {
      return false;
    }
    UpsertAllIsUpserted(env, w, ids, rows);
    UpsertKeepsSafe(env, w0, w, ids, stores.rows);
    MarkAndExpire(stores, env, ids, keysToExpire, synced, w0, w, from);
    UpsertWrites(env, w, ids, stores.rows);
  }

  // Every job among `done` that had both hashes is marked.
  ghost predicate Covered(w0: World, now: World, done: seq<Id>) {
    forall id :: id in done && Both(w0, id) ==> IsSynced(ResultAt(now, id))
  }

  // Jobs that are not among `done` look as they did at the start.
  ghost predicate OnlyDone(w0: World, now: World, done: seq<Id>) {
    forall id :: id !in done ==> ResultAt(now, id) == ResultAt(w0, id)
  }

  lemma ChunkCovers(env: Env, w0: World, w: World, now: World, done: seq<Id>, ids: seq<Id>)
    requires OnlyMarks(w0, w) && ChunkDone(env, w, now, ids) && Covered(w0, w, done) && OnlyDone(w0, w, done)
    ensures Covered(w0, now, done + ids) && OnlyDone(w0, now, done + ids)
  {
    CollectedKeys(env, w, ids, |ids|);
    assert forall id :: id in done + ids <==> id in done || id in ids;
    forall id | id in done + ids && Both(w0, id)
      ensures IsSynced(ResultAt(now, id))
    {
      assert Both(w, id);
      if id in ids && !IsSynced(ResultAt(w, id)) {
        var i :| 0 <= i < |ids| && ids[i] == id;
        assert id in CollectMarks(env, w, ids, |ids|);
      }
    }
  }

  // A key that the scan returned twice is written once, or once more with the same row.
  lemma ChunkExtendsRows(env: Env, w0: World, w: World, rows: Table, done: seq<Id>, ids: seq<Id>)
    requires Upserted(env, w0, done, w.rows) && Upserted(env, w, ids, rows)
    requires OnlyDone(w0, w, done) && Covered(w0, w, done) && OnlyMarks(w0, w)
    ensures Upserted(env, w0, done + ids, rows)
  {
    forall id
      ensures Lookup(rows, id) ==
        if id in done + ids && RowOf(env, w0, id).Some? then Some(Merge(Lookup(w0.rows, id), RowOf(env, w0, id).value))
        else Lookup(w0.rows, id)
    {
      assert id in done + ids <==> id in done || id in ids;
      assert MetaAt(w, id) == MetaAt(w0, id);
      if id in done && id in ids {
        assert Both(w0, id) ==> IsSynced(ResultAt(w, id));
        assert ResultAt(w0, id) == map[] <==> ResultAt(w, id) == map[];
      }
    }
  }

  lemma ChunkExtendsExpiry(env: Env, w0: World, w: World, now: World, done: seq<Id>, ids: seq<Id>)
    requires Expiring(env, w0, done, w) && Expiring(env, w, ids, now)
    requires OnlyDone(w0, w, done) && Covered(w0, w, done) && OnlyMarks(w0, w) && OnlyMarks(w0, now)
    ensures Expiring(env, w0, done + ids, now)
  {
    forall id ensures id in done + ids <==> id in done || id in ids
              ensures id !in done ==> (LooksAt(w, id) <==> LooksAt(w0, id))
              ensures id in done && LooksAt(w, id) ==> LooksAt(w0, id)
    {
      assert MetaAt(w, id) == MetaAt(w0, id);
      if id in done && !LooksAt(w0, id) {
        assert Both(w0, id) && IsSynced(ResultAt(w, id)) && Both(w, id);
      }
    }
  }

  // What a pass has done after it has visited `done`.
  ghost predicate Progress(env: Env, w0: World, now: World, keys: seq<Id>, done: seq<Id>) {
    && Covered(w0, now, done) && OnlyDone(w0, now, done)
    && Upserted(env, w0, done, now.rows) && Expiring(env, w0, done, now)
    && (CollectRows(env, w0, keys, |keys|) == [] ==> Untouched(w0, now))
  }

  lemma ProgressAtStart(env: Env, w: World, keys: seq<Id>)
    requires MarksAreTrue(env, w)
    ensures Progress(env, w, w, keys, []) && Safe(env, w, w)
  {}

  lemma NothingToDo(env: Env, w0: World, w: World, keys: seq<Id>, a: nat, b: nat)
    requires a <= b <= |keys| && Untouched(w0, w) && CollectRows(env, w0, keys, |keys|) == []
    ensures CollectRows(env, w, keys[a..b], b - a) == []
  {
    NoRows(env, w0, keys, |keys|);
    NoRows(env, w, keys[a..b], b - a);
    forall i | 0 <= i < b - a
      ensures RowOf(env, w, keys[a..b][i]).None?
    {
      assert keys[a..b][i] == keys[a + i] && RowOf(env, w0, keys[a + i]).None?;
    }
  }

  lemma ChunkMakesProgress(env: Env, w0: World, w: World, now: World, keys: seq<Id>, a: nat, b: nat)
    requires a <= b <= |keys| && OnlyMarks(w0, w) && Progress(env, w0, w, keys, keys[..a])
    requires ChunkDone(env, w, now, keys[a..b]) && OnlyMarks(w0, now)
    requires CollectRows(env, w, keys[a..b], b - a) == [] ==> Untouched(w, now)
    ensures Progress(env, w0, now, keys, keys[..b])
  {
    assert keys[..b] == keys[..a] + keys[a..b];
    ChunkCovers(env, w0, w, now, keys[..a], keys[a..b]);
    ChunkExtendsRows(env, w0, w, now.rows, keys[..a], keys[a..b]);
    ChunkExtendsExpiry(env, w0, w, now, keys[..a], keys[a..b]);
    if CollectRows(env, w0, keys, |keys|) == [] {
      NothingToDo(env, w0, w, keys, a, b);
    }
  }

  // The pass over the scanned keys. Whatever chunk throws, every state on the way is safe. A
  // pass that runs to its end has visited every key once, in order, has marked every job that
  // has both hashes, and has written the row of each key. A pass with nothing to write changes
  // nothing.
  method SyncPass(stores: Stores, env: Env, keys: seq<Id>) returns (ok: bool, ghost visited: seq<Id>)
    requires MarksAreTrue(env, stores.Now()) && env.iso != ""
    modifies stores
    ensures old(stores.trace) <= stores.trace && AllSafe(env, old(stores.Now()), stores.trace, |old(stores.trace)|)
    ensures Safe(env, old(stores.Now()), stores.Now())
    ensures visited <= keys && (ok ==> visited == keys)
    ensures Progress(env, old(stores.Now()), stores.Now(), keys, visited)
    ensures AllWritten(env, old(stores.Now()), visited, stores.rows)
  {
    ghost var w0, from := stores.Now(), |stores.trace|;
    ProgressAtStart(env, w0, keys);
    var offset := 0;
    while offset < |keys|
      invariant offset <= |keys| && old(stores.trace) <= stores.trace
      invariant Safe(env, w0, stores.Now()) && AllSafe(env, w0, stores.trace, from)
      invariant Progress(env, w0, stores.Now(), keys, keys[..offset])
    {
      var end := if offset + CHUNK_SIZE <= |keys| then offset + CHUNK_SIZE else |keys|;
      ghost var w := stores.Now();
      var done := SyncChunk(stores, env, keys[offset..end], w0, from);
      if !done {
        UpsertWrites(env, w0, keys[..offset], stores.rows);
        return false, keys[..offset];
      }
      ChunkMakesProgress(env, w0, w, stores.Now(), keys, offset, end);
      offset := end;
    }
    assert keys[..offset] == keys;
    UpsertWrites(env, w0, keys, stores.rows);
    return true, keys;
  }

  lemma MarksStayTrue(env: Env, later: Env, w: World)
    requires MarksAreTrue(env, w) && later.parseJson == env.parseJson
    ensures MarksAreTrue(later, w)
  {}

  lemma NothingIsLeft(later: Env, w0: World, w: World, keys: seq<Id>)
    requires OnlyMarks(w0, w) && Covered(w0, w, keys)
    requires forall id :: id in keys ==> ResultAt(w0, id) != map[]
    ensures CollectRows(later, w, keys, |keys|) == []
  {
    NoRows(later, w, keys, |keys|);
    forall i | 0 <= i < |keys|
      ensures RowOf(later, w, keys[i]).None?
    {
      assert keys[i] in keys && ResultAt(w, keys[i]) != map[];
      assert Both(w0, keys[i]) ==> IsSynced(ResultAt(w, keys[i]));
    }
  }

  // When nobody else writes meanwhile, a second pass finds nothing to write: the rows and the
  // hashes stay as the complete first pass left them, even if the second one throws.
  method SyncTwice(stores: Stores, env: Env, later: Env, keys: seq<Id>)
    returns (first: bool, second: bool, ghost between: World)
    requires MarksAreTrue(env, stores.Now()) && env.iso != "" && later.iso != "" && later.parseJson == env.parseJson
    requires forall id :: id in keys ==> ResultAt(stores.Now(), id) != map[]
    modifies stores
    ensures first ==> Progress(env, old(stores.Now()), between, keys, keys) && Safe(env, old(stores.Now()), between)
    ensures first ==> AllWritten(env, old(stores.Now()), keys, between.rows)
    ensures first ==> stores.rows == between.rows && stores.hashes == between.hashes
    ensures first ==> forall id :: id in keys && MetaAt(old(stores.Now()), id) != map[] ==> IsSynced(ResultAt(stores.Now(), id))
  {
    ghost var w0, visited := stores.Now(), [];
    first, visited := SyncPass(stores, env, keys);
    second, between := false, stores.Now();
    if first {
      ghost var w := between;
      NothingIsLeft(later, w0, w, keys);
      MarksStayTrue(env, later, w);
      second, visited := SyncPass(stores, later, keys);
      assert forall id :: ResultAt(stores.Now(), id) == ResultAt(w, id);
    }
  }
}
