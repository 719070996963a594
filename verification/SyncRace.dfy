/** A chunk of the synchronisation while workers, the failure listener and the expiry cron write
    the same hashes: between any two of its commands they may leave any hashes and deadlines.
    A mark is true if and only if the result hash still tells what the chunk has read; a false
    mark is never corrected. */
module SyncRace {
  import opened Redis
  import opened SyncDb
  import opened SyncModel

  // What everybody else does; rows are written by the synchronisation alone.
  method Meanwhile(stores: Stores)
    modifies stores
    ensures stores.rows == old(stores.rows)
  {
    var hashes: map<CacheKey, Hash> := *;
    var expires: map<CacheKey, int> := *;
    stores.hashes, stores.expires := hashes, expires;
  }

  // The later hash tells what the earlier one told.
  predicate StillTells(env: Env, before: Hash, after: Hash) {
    && (Field(after, "status").None? || Field(after, "status") == Field(before, "status"))
    && DataOf(env, after) == DataOf(env, before)
    && Field(after, "error") == Field(before, "error") && Field(after, "error_code") == Field(before, "error_code")
    && Field(after, "finished_at") == Field(before, "finished_at")
    && Field(after, "expired_at") == Field(before, "expired_at")
  }

  // The row that was made of the hashes read.
  lemma RowTellsRead(env: Env, read: World, ids: seq<Id>, rows: Table, id: Id, after: Hash)
    requires Upserted(env, read, ids, rows) && id in ids && ActionAt(env, read, id).Persist?
    requires Field(ResultAt(read, id), "status").Some?
    ensures id in rows && (Agrees(env, after, rows[id]) <==> StillTells(env, ResultAt(read, id), after))
  {}

  lemma MarkLeavesContent(env: Env, h: Hash, iso: string, row: JobRow)
    ensures Agrees(env, h["synced_at" := iso], row) <==> Agrees(env, h, row)
  {
    assert h["synced_at" := iso] - {"synced_at"} == h - {"synced_at"};
    AgreementBesidesMark(env, h["synced_at" := iso], h, row);
  }

  // The k-th mark was set in a state whose hash was `found[k]`, and is true exactly when that
  // hash still told what had been read.
  ghost predicate MarkedTruly(env: Env, read: World, marks: seq<Id>, found: seq<Hash>, marked: seq<World>, k: nat)
    requires k < |marks| && |found| == |marks| == |marked|
  {
    && IsSynced(ResultAt(marked[k], marks[k]))
    && (Field(ResultAt(read, marks[k]), "status").Some? ==>
          (RowAgrees(env, marked[k], marks[k]) <==> StillTells(env, ResultAt(read, marks[k]), found[k])))
  }

  ghost predicate AllMarkedTruly(env: Env, read: World, marks: seq<Id>, found: seq<Hash>, marked: seq<World>) {
    |found| == |marks| == |marked| && forall k :: 0 <= k < |marks| ==> MarkedTruly(env, read, marks, found, marked, k)
  }

  method MarkAmid(stores: Stores, env: Env, id: Id, ghost read: World, ghost ids: seq<Id>) returns (ghost found: Hash)
    requires env.iso != "" && Upserted(env, read, ids, stores.rows) && id in ids && ActionAt(env, read, id).Persist?
    modifies stores
    ensures stores.rows == old(stores.rows) && MarkedTruly(env, read, [id], [found], [stores.Now()], 0)
  {
    Meanwhile(stores);
    found := ResultAt(stores.Now(), id);
    stores.HSetSynced(id, env.iso);
    if Field(ResultAt(read, id), "status").Some? {
      RowTellsRead(env, read, ids, stores.rows, id, found);
      MarkLeavesContent(env, found, env.iso, stores.rows[id]);
    }
  }

  // src/cron/syncDbResults.ts:26-177, one chunk; `read` are the hashes that it has read.
  method SyncChunkAmid(stores: Stores, env: Env, ids: seq<Id>)
    returns (ok: bool, ghost read: World, marks: seq<Id>, ghost found: seq<Hash>, ghost marked: seq<World>)
    requires env.iso != ""
    modifies stores
    ensures read == old(stores.Now()) && AllMarkedTruly(env, read, marks, found, marked)
    ensures ok ==> marks == CollectMarks(env, read, ids, |ids|) && Upserted(env, read, ids, stores.rows)
    ensures ok ==> AllWritten(env, read, ids, stores.rows)
    ensures !ok ==> marks == [] && stores.rows == read.rows
  {
    read, marks, found, marked := stores.Now(), [], [], [];
    var replies := ReadChunk(stores, ids);
    if replies.None? {
      return false, read, [], [], [];
    }
    Meanwhile(stores);
    var rows, keysToExpire, synced := ParseChunk(env, ids, replies.value, read);
    if rows != [] {
      var values, placeholders := Flatten(rows);
      ok := stores.Query(values, placeholders, rows);
      if !ok {
        return false, read, [], [], [];
      }
      UpsertAllIsUpserted(env, read, ids, rows);
    } else {
      NothingUpserted(env, read, ids);
    }
    found, marked := MarkAllAmid(stores, env, synced, read, ids);
    ExpireAmid(stores, env, keysToExpire);
    UpsertWrites(env, read, ids, stores.rows);
    return true, read, synced, found, marked;
  }

  lemma NothingUpserted(env: Env, w: World, ids: seq<Id>)
    requires CollectRows(env, w, ids, |ids|) == []
    ensures Upserted(env, w, ids, w.rows)
  {
    NoRows(env, w, ids, |ids|);
  }

  method MarkAllAmid(stores: Stores, env: Env, marks: seq<Id>, ghost read: World, ghost ids: seq<Id>)
    returns (ghost found: seq<Hash>, ghost marked: seq<World>)
    requires env.iso != "" && Upserted(env, read, ids, stores.rows) && marks == CollectMarks(env, read, ids, |ids|)
    modifies stores
    ensures stores.rows == old(stores.rows) && AllMarkedTruly(env, read, marks, found, marked)
  {
    found, marked := [], [];
    CollectedKeys(env, read, ids, |ids|);
    for i := 0 to |marks|
      invariant stores.rows == old(stores.rows) && AllMarkedTruly(env, read, marks[..i], found, marked)
    {
      ghost var h := MarkAmid(stores, env, marks[i], read, ids);
      OneMoreTruly(env, read, marks, found, marked, i, h, stores.Now());
      found, marked := found + [h], marked + [stores.Now()];
    }
    assert marks[..|marks|] == marks;
  }

  lemma OneMoreTruly(env: Env, read: World, marks: seq<Id>, found: seq<Hash>, marked: seq<World>, i: nat, h: Hash, now: World)
    requires i < |marks| && MarkedTruly(env, read, [marks[i]], [h], [now], 0)
    requires AllMarkedTruly(env, read, marks[..i], found, marked)
    ensures AllMarkedTruly(env, read, marks[..i + 1], found + [h], marked + [now])
  {
    var marks', found', marked' := marks[..i + 1], found + [h], marked + [now];
    forall k | 0 <= k < |marks'| ensures MarkedTruly(env, read, marks', found', marked', k) {
      if k < i {
        assert MarkedTruly(env, read, marks[..i], found, marked, k);
      }
    }
  }

  method ExpireAmid(stores: Stores, env: Env, keys: seq<CacheKey>)
    modifies stores
    ensures stores.rows == old(stores.rows)
  {
    for i := 0 to |keys|
      invariant stores.rows == old(stores.rows)
    {
      Meanwhile(stores);
      stores.Expire(keys[i], env.nowMs + 1000 * SYNCED_DATA_TTL_SECONDS);
    }
  }

  // A row that disagrees with a marked result is never written again.
  lemma FalseMarkIsKept(env: Env, w: World, ids: seq<Id>, rows: Table, id: Id)
    requires Upserted(env, w, ids, rows) && IsSynced(ResultAt(w, id)) && !RowAgrees(env, w, id)
    ensures Lookup(rows, id) == Lookup(w.rows, id) && !RowAgrees(env, w.(rows := rows), id)
  {
    UpsertedRow(env, w, ids, rows, id);
  }
}
