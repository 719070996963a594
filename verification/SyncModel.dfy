/** What the database synchronisation reads and writes: the Redis hashes of jobs with their
    deadlines, the rows of cv_analyzes, and the row that a pass makes of one job. */
module SyncModel {
  import opened Redis

  type Id = string

  // What HGETALL returns; a missing key gives the empty hash.
  type Hash = map<string, string>

  datatype CacheKey = MetaKey(id: Id) | ResultKey(id: Id)

  datatype JobRow = JobRow(
    jobId: Id, userId: Option<string>, resumeId: Option<string>,
    requestedModel: Option<string>, processedModel: Option<string>,
    status: string, result: Option<string>, error: Option<string>, errorCode: Option<string>,
    createdAt: string, finishedAt: Option<string>, expiredAt: Option<string>)

  type Table = map<Id, JobRow>

  datatype World = World(hashes: map<CacheKey, Hash>, expires: map<CacheKey, int>, rows: Table)

  // The clock of a pass, Date.parse (None for NaN) and safeJsonParse of a non-empty text.
  datatype Env = Env(nowMs: int, iso: string, parseDate: string -> Option<int>, parseJson: string -> Option<string>)

  const MISSING_RESULT_GRACE_MS := 35 * 60 * 1000
  const SYNCED_DATA_TTL_SECONDS := 300

  function HashAt(w: World, k: CacheKey): Hash {
    if k in w.hashes then w.hashes[k] else map[]
  }

  function MetaAt(w: World, id: Id): Hash { HashAt(w, MetaKey(id)) }

  function ResultAt(w: World, id: Id): Hash { HashAt(w, ResultKey(id)) }

  // A missing field and an empty string are both falsy.
  function Field(h: Hash, name: string): Option<string> {
    if name in h && h[name] != "" then Some(h[name]) else None
  }

  function OrElse(a: Option<string>, b: string): string { if a.Some? then a.value else b }

  predicate IsSynced(result: Hash) { Field(result, "synced_at").Some? }

  // A pass found both hashes of the job.
  predicate Both(w: World, id: Id) { MetaAt(w, id) != map[] && ResultAt(w, id) != map[] }

  predicate Stale(env: Env, meta: Hash) {
    var text := if Field(meta, "updated_at").Some? then Field(meta, "updated_at") else Field(meta, "created_at");
    var at := env.parseDate(OrElse(text, ""));
    at.None? || env.nowMs - at.value >= MISSING_RESULT_GRACE_MS
  }

  datatype Action = AlreadySynced | OnlyExpire | MissingResult | Persist

  function ActionOf(env: Env, meta: Hash, result: Hash): Action {
    if meta == map[] || result == map[] then
      if meta != map[] && result == map[] && Stale(env, meta) then MissingResult else OnlyExpire
    else if IsSynced(result) then AlreadySynced
    else Persist
  }

  function DataOf(env: Env, result: Hash): Option<string> {
    if Field(result, "data").None? then None else env.parseJson(result["data"])
  }

  function MissingRow(env: Env, id: Id, meta: Hash): JobRow {
    JobRow(id, Field(meta, "user_id"), Field(meta, "resume_id"), Field(meta, "requested_model"),
           Field(meta, "processed_model"), OrElse(Field(meta, "status"), "failed"), None, Some("missing_result"),
           Some("provider_error"), OrElse(Field(meta, "created_at"), env.iso), Field(meta, "updated_at"), None)
  }

  function ResultRow(env: Env, id: Id, meta: Hash, result: Hash): JobRow {
    JobRow(id, Field(meta, "user_id"), Field(meta, "resume_id"), Field(meta, "requested_model"),
           Field(meta, "processed_model"),
           OrElse(Field(result, "status"), OrElse(Field(meta, "status"), "unknown")), DataOf(env, result),
           Field(result, "error"), Field(result, "error_code"), OrElse(Field(meta, "created_at"), env.iso),
           Field(result, "finished_at"), Field(result, "expired_at"))
  }

  // The row that a pass writes for a job, if any.
  function RowOf(env: Env, w: World, id: Id): Option<JobRow> {
    match ActionOf(env, MetaAt(w, id), ResultAt(w, id))
    case MissingResult => Some(MissingRow(env, id, MetaAt(w, id)))
    case Persist => Some(ResultRow(env, id, MetaAt(w, id), ResultAt(w, id)))
    case _ => None
  }

  // INSERT ... ON CONFLICT (id) DO UPDATE
  function Merge(before: Option<JobRow>, row: JobRow): JobRow {
    if before.None? then row
    else before.value.(status := row.status, result := row.result, error := row.error, errorCode := row.errorCode,
                       finishedAt := row.finishedAt, processedModel := row.processedModel, expiredAt := row.expiredAt)
  }

  // The row tells what the result hash tells.
  ghost predicate Agrees(env: Env, result: Hash, row: JobRow) {
    && (Field(result, "status").Some? ==> row.status == result["status"])
    && row.result == DataOf(env, result)
    && row.error == Field(result, "error") && row.errorCode == Field(result, "error_code")
    && row.finishedAt == Field(result, "finished_at") && row.expiredAt == Field(result, "expired_at")
  }

  ghost predicate RowAgrees(env: Env, w: World, id: Id) {
    id in w.rows && Agrees(env, ResultAt(w, id), w.rows[id])
  }

  // ---- safety ----------------------------------------------------------------------

  // Every result that is marked as synced has its row.
  ghost predicate MarksAreTrue(env: Env, w: World) {
    forall id {:trigger RowAgrees(env, w, id)} {:trigger ResultAt(w, id)} :: IsSynced(ResultAt(w, id)) ==> RowAgrees(env, w, id)
  }

  predicate SameExpiry(a: World, b: World, k: CacheKey) {
    if k in a.expires then k in b.expires && a.expires[k] == b.expires[k] else k !in b.expires
  }

  // A job whose two hashes were there at the start keeps its deadlines until its row is written.
  ghost predicate DataIsKept(env: Env, w0: World, w: World) {
    forall id {:trigger RowAgrees(env, w, id)} {:trigger Both(w0, id)} :: Both(w0, id) ==>
      RowAgrees(env, w, id) || (SameExpiry(w0, w, MetaKey(id)) && SameExpiry(w0, w, ResultKey(id)))
  }

  // Nothing but the marks has changed in the hashes.
  ghost predicate OnlyMarks(w0: World, w: World) {
    && w.hashes.Keys == w0.hashes.Keys
    && (forall id :: MetaAt(w, id) == MetaAt(w0, id))
    && (forall id :: ResultAt(w, id) - {"synced_at"} == ResultAt(w0, id) - {"synced_at"})
    && (forall id :: ResultAt(w0, id) == map[] <==> ResultAt(w, id) == map[])
  }

  ghost predicate Safe(env: Env, w0: World, w: World) {
    MarksAreTrue(env, w) && DataIsKept(env, w0, w) && OnlyMarks(w0, w)
  }

  // ---- single commands -------------------------------------------------------------

  // HSET job:{id}:result synced_at
  function Mark(w: World, id: Id, iso: string): World {
    w.(hashes := w.hashes[ResultKey(id) := ResultAt(w, id)["synced_at" := iso]])
  }

  // EXPIRE key 300
  function Shorten(w: World, k: CacheKey, at: int): World {
    if k in w.hashes then w.(expires := w.expires[k := at]) else w
  }

  lemma FieldBesidesMark(a: Hash, b: Hash, name: string)
    requires a - {"synced_at"} == b - {"synced_at"} && name != "synced_at"
    ensures Field(a, name) == Field(b, name)
  {
    assert name in a <==> name in a - {"synced_at"};
    assert name in b <==> name in b - {"synced_at"};
    if name in a {
      assert (a - {"synced_at"})[name] == a[name] && (b - {"synced_at"})[name] == b[name];
    }
  }

  lemma AgreementBesidesMark(env: Env, a: Hash, b: Hash, row: JobRow)
    requires a - {"synced_at"} == b - {"synced_at"}
    ensures Agrees(env, a, row) <==> Agrees(env, b, row)
  {
    FieldBesidesMark(a, b, "status");
    FieldBesidesMark(a, b, "data");
    FieldBesidesMark(a, b, "error");
    FieldBesidesMark(a, b, "error_code");
    FieldBesidesMark(a, b, "finished_at");
    FieldBesidesMark(a, b, "expired_at");
  }

  lemma MarkKeepsSafe(env: Env, w0: World, w: World, id: Id, iso: string)
    requires Safe(env, w0, w) && RowAgrees(env, w, id) && ResultAt(w, id) != map[]
    ensures Safe(env, w0, Mark(w, id, iso))
    ensures forall i :: RowAgrees(env, Mark(w, id, iso), i) <==> RowAgrees(env, w, i)
  {
    var w' := Mark(w, id, iso);
    var r, r' := ResultAt(w, id), ResultAt(w', id);
    assert r' - {"synced_at"} == r - {"synced_at"};
    forall i
      ensures RowAgrees(env, w', i) <==> RowAgrees(env, w, i)
    {
      AgreementBesidesMark(env, ResultAt(w', i), ResultAt(w, i), if i in w.rows then w.rows[i] else MissingRow(env, i, map[]));
    }
    assert forall i :: MetaAt(w', i) == MetaAt(w, i);
    assert forall i :: i != id ==> ResultAt(w', i) == ResultAt(w, i);
    assert forall k :: SameExpiry(w0, w', k) == SameExpiry(w0, w, k);
  }

  lemma ShortenKeepsSafe(env: Env, w0: World, w: World, k: CacheKey, at: int)
    requires Safe(env, w0, w) && (Both(w0, k.id) ==> RowAgrees(env, w, k.id))
    ensures Safe(env, w0, Shorten(w, k, at))
    ensures forall i :: RowAgrees(env, Shorten(w, k, at), i) <==> RowAgrees(env, w, i)
  {
    var w' := Shorten(w, k, at);
    assert forall i :: MetaAt(w', i) == MetaAt(w, i) && ResultAt(w', i) == ResultAt(w, i);
    assert forall i :: RowAgrees(env, w', i) == RowAgrees(env, w, i);
    assert forall k': CacheKey :: k'.id != k.id ==> SameExpiry(w0, w', k') == SameExpiry(w0, w, k');
  }

  // The rows of some jobs were upserted in one statement.
  ghost predicate Upserted(env: Env, w: World, ids: seq<Id>, rows: Table) {
    forall id :: Lookup(rows, id) ==
      if id in ids && RowOf(env, w, id).Some? then Some(Merge(Lookup(w.rows, id), RowOf(env, w, id).value))
      else Lookup(w.rows, id)
  }

  lemma UpsertedRow(env: Env, w: World, ids: seq<Id>, rows: Table, id: Id)
    requires Upserted(env, w, ids, rows)
    ensures id !in ids || IsSynced(ResultAt(w, id)) ==> Lookup(rows, id) == Lookup(w.rows, id)
    ensures id in ids && Both(w, id) && !IsSynced(ResultAt(w, id)) ==> id in rows && Agrees(env, ResultAt(w, id), rows[id])
  {}

  lemma UpsertKeepsSafe(env: Env, w0: World, w: World, ids: seq<Id>, rows: Table)
    requires Safe(env, w0, w) && Upserted(env, w, ids, rows)
    ensures Safe(env, w0, w.(rows := rows))
    ensures forall id :: id in ids && Both(w, id) ==> RowAgrees(env, w.(rows := rows), id)
  {
    var w' := w.(rows := rows);
    assert forall k :: SameExpiry(w0, w', k) == SameExpiry(w0, w, k);
    forall i
      ensures ResultAt(w', i) == ResultAt(w, i) && MetaAt(w', i) == MetaAt(w, i)
      ensures Both(w, i) && RowAgrees(env, w, i) ==> RowAgrees(env, w', i)
      ensures i in ids && Both(w, i) ==> RowAgrees(env, w', i)
      ensures IsSynced(ResultAt(w, i)) ==> RowAgrees(env, w', i)
    {
      UpsertedRow(env, w, ids, rows, i);
      assert IsSynced(ResultAt(w, i)) ==> RowAgrees(env, w, i);
    }
    forall i | Both(w0, i)
      ensures RowAgrees(env, w', i) || (SameExpiry(w0, w', MetaKey(i)) && SameExpiry(w0, w', ResultKey(i)))
    {
      assert Both(w, i);
    }
  }

  // A result that vanished between the scan and the read costs a stored row its data exactly
  // when the meta is still there and stale.
  lemma VanishedResult(env: Env, w: World, ids: seq<Id>, rows: Table, id: Id)
    requires Upserted(env, w, ids, rows) && id in ids && ResultAt(w, id) == map[]
    requires id in w.rows && w.rows[id].error != Some("missing_result")
    ensures id in rows
    ensures rows[id] == w.rows[id] <==> MetaAt(w, id) == map[] || !Stale(env, MetaAt(w, id))
    ensures rows[id] != w.rows[id] ==> rows[id].result == None && rows[id].error == Some("missing_result")
  {}

  // ---- the columns of a row ------------------------------------------------------------

  // An empty or missing field of a hash is stored as null.
  predicate Blank(h: Hash, name: string) { name !in h || h[name] == "" }

  predicate Copies(h: Hash, name: string, column: Option<string>) {
    if Blank(h, name) then column.None? else column == Some(h[name])
  }

  // A text that must be there is taken from the first source that has one.
  predicate FirstOf(h: Hash, name: string, other: string, column: string) {
    column == if Blank(h, name) then other else h[name]
  }

  // A new row is that of the owner that the meta names. An existing one keeps its owner, and
  // the model that was asked for, and the time.
  ghost predicate OwnedBy(env: Env, id: Id, meta: Hash, before: Option<JobRow>, row: JobRow) {
    if before.Some? then
      && row.jobId == before.value.jobId && row.userId == before.value.userId && row.resumeId == before.value.resumeId
      && row.requestedModel == before.value.requestedModel && row.createdAt == before.value.createdAt
    else
      && row.jobId == id
      && Copies(meta, "user_id", row.userId) && Copies(meta, "resume_id", row.resumeId)
      && Copies(meta, "requested_model", row.requestedModel) && FirstOf(meta, "created_at", env.iso, row.createdAt)
  }

  ghost predicate FromResult(env: Env, meta: Hash, result: Hash, row: JobRow) {
    && Copies(meta, "processed_model", row.processedModel)
    && (if Blank(result, "status") then FirstOf(meta, "status", "unknown", row.status) else row.status == result["status"])
    && row.result == (if Blank(result, "data") then None else env.parseJson(result["data"]))
    && Copies(result, "error", row.error) && Copies(result, "error_code", row.errorCode)
    && Copies(result, "finished_at", row.finishedAt) && Copies(result, "expired_at", row.expiredAt)
  }

  ghost predicate WithoutResult(meta: Hash, row: JobRow) {
    && Copies(meta, "processed_model", row.processedModel) && FirstOf(meta, "status", "failed", row.status)
    && row.result == None && row.error == Some("missing_result") && row.errorCode == Some("provider_error")
    && Copies(meta, "updated_at", row.finishedAt) && row.expiredAt == None
  }

  // The meta was not updated for thirty-five minutes, or does not say when.
  ghost predicate LongSilent(env: Env, meta: Hash) {
    var last := if !Blank(meta, "updated_at") then meta["updated_at"]
                else if !Blank(meta, "created_at") then meta["created_at"]
                else "";
    env.parseDate(last) == None || env.parseDate(last).value + 2100000 <= env.nowMs
  }

  // The hashes of a job go five minutes after a pass has looked at them, unless it found the
  // result marked.
  ghost predicate LooksAt(w: World, id: Id) {
    MetaAt(w, id) == map[] || ResultAt(w, id) == map[] || Blank(ResultAt(w, id), "synced_at")
  }

  ghost predicate Expiring(env: Env, w: World, ids: seq<Id>, now: World) {
    && (forall k: CacheKey :: k.id in ids && LooksAt(w, k.id) && k in now.hashes ==>
          Lookup(now.expires, k) == Some(env.nowMs + 300000))
    && (forall k: CacheKey :: k.id !in ids || !LooksAt(w, k.id) ==> Lookup(now.expires, k) == Lookup(w.expires, k))
  }

  // What becomes of the row of a job whose hashes are read in w.
  ghost predicate Written(env: Env, w: World, id: Id, after: Option<JobRow>) {
    var meta, result, before := MetaAt(w, id), ResultAt(w, id), Lookup(w.rows, id);
    if meta != map[] && result != map[] && Blank(result, "synced_at") then
      after.Some? && OwnedBy(env, id, meta, before, after.value) && FromResult(env, meta, result, after.value)
    else if meta != map[] && result == map[] && LongSilent(env, meta) then
      after.Some? && OwnedBy(env, id, meta, before, after.value) && WithoutResult(meta, after.value)
    else after == before
  }

  ghost predicate AllWritten(env: Env, w: World, ids: seq<Id>, rows: Table) {
    && (forall id :: id in ids ==> Written(env, w, id, Lookup(rows, id)))
    && (forall id :: id !in ids ==> Lookup(rows, id) == Lookup(w.rows, id))
  }

  lemma RowIsWritten(env: Env, w: World, id: Id)
    ensures Written(env, w, id, if RowOf(env, w, id).Some? then Some(Merge(Lookup(w.rows, id), RowOf(env, w, id).value))
                                else Lookup(w.rows, id))
  {}

  // An upsert writes every column from the hash it belongs to.
  lemma UpsertWrites(env: Env, w: World, ids: seq<Id>, rows: Table)
    requires Upserted(env, w, ids, rows)
    ensures AllWritten(env, w, ids, rows)
  {
    forall id | id in ids ensures Written(env, w, id, Lookup(rows, id)) {
      RowIsWritten(env, w, id);
    }
  }
}
