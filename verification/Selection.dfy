/** Which model a request gets: the chain of `src/services/modelSelector.ts` and the fallback
    loop of `src/routes/resume/modelSelection.ts`. */
module Selection {
  import opened Redis
  import opened Scripts
  import opened Sequences
  import opened StoreModule

  // model:{id}:limits; a priority that is missing or not finite counts as infinity (None).
  datatype ModelHash = ModelHash(hard: bool, priority: Option<int>, rpm: int, rpd: int)

  datatype ModelMeta = ModelMeta(id: Model, hard: bool, priority: Option<int>)

  // ---- sorting ---------------------------------------------------------------------

  predicate AtMost(a: Option<int>, b: Option<int>) {
    b.None? || (a.Some? && a.value <= b.value)
  }

  // Array.prototype.sort is stable: an element goes after those it is not before.
  function Insert(ms: seq<ModelMeta>, m: ModelMeta): seq<ModelMeta> {
    if ms == [] || AtMost(ms[|ms| - 1].priority, m.priority) then ms + [m]
    else Insert(ms[..|ms| - 1], m) + [ms[|ms| - 1]]
  }

  function Sorted(ms: seq<ModelMeta>): seq<ModelMeta> {
    if ms == [] then [] else Insert(Sorted(ms[..|ms| - 1]), ms[|ms| - 1])
  }

  ghost predicate Ascending(ms: seq<ModelMeta>) {
    forall i, j :: 0 <= i < j < |ms| ==> AtMost(ms[i].priority, ms[j].priority)
  }

  ghost predicate NoModelTwice(ms: seq<ModelMeta>) {
    forall i, j :: 0 <= i < j < |ms| ==> ms[i].id != ms[j].id
  }

  lemma {:induction false} InsertHas(ms: seq<ModelMeta>, m: ModelMeta)
    ensures forall x :: x in Insert(ms, m) <==> x in ms || x == m
  {
    if ms != [] && !AtMost(ms[|ms| - 1].priority, m.priority) {
      InsertHas(ms[..|ms| - 1], m);
    }
  }

  lemma AppendSorts(ms: seq<ModelMeta>, m: ModelMeta)
    requires Ascending(ms) && forall x :: x in ms ==> AtMost(x.priority, m.priority)
    ensures Ascending(ms + [m])
  {}

  lemma {:induction false} InsertSorts(ms: seq<ModelMeta>, m: ModelMeta)
    requires Ascending(ms)
    ensures Ascending(Insert(ms, m))
  {
    if ms == [] {
    } else if AtMost(ms[|ms| - 1].priority, m.priority) {
      AppendSorts(ms, m);
    } else {
      var front, last := ms[..|ms| - 1], ms[|ms| - 1];
      InsertSorts(front, m);
      InsertHas(front, m);
      AppendSorts(Insert(front, m), last);
    }
  }

  lemma AppendDistinct(ms: seq<ModelMeta>, m: ModelMeta)
    requires NoModelTwice(ms) && forall x :: x in ms ==> x.id != m.id
    ensures NoModelTwice(ms + [m])
  {}

  lemma {:induction false} InsertDistinct(ms: seq<ModelMeta>, m: ModelMeta)
    requires NoModelTwice(ms) && forall x :: x in ms ==> x.id != m.id
    ensures NoModelTwice(Insert(ms, m))
  {
    if ms == [] || AtMost(ms[|ms| - 1].priority, m.priority) {
      AppendDistinct(ms, m);
    } else {
      var front, last := ms[..|ms| - 1], ms[|ms| - 1];
      InsertDistinct(front, m);
      InsertHas(front, m);
      AppendDistinct(Insert(front, m), last);
    }
  }

  // Sorting orders the models and keeps each of them.
  lemma {:induction false} SortedSorts(ms: seq<ModelMeta>)
    ensures Ascending(Sorted(ms)) && (forall x :: x in Sorted(ms) <==> x in ms)
    ensures NoModelTwice(ms) ==> NoModelTwice(Sorted(ms))
  {
    if ms != [] {
      var front, last := ms[..|ms| - 1], ms[|ms| - 1];
      SortedSorts(front);
      InsertSorts(Sorted(front), last);
      InsertHas(Sorted(front), last);
      if NoModelTwice(ms) {
        InsertDistinct(Sorted(front), last);
      }
    }
  }

  // ---- ties ------------------------------------------------------------------------

  // Where the set of model ids lists an id.
  function IndexOf(ids: seq<Model>, id: Model): (k: nat)
    ensures k <= |ids| && (k < |ids| <==> id in ids) && (k < |ids| ==> ids[k] == id)
  {
    if ids == [] then 0
    else if IndexOf(ids[..|ids| - 1], id) < |ids| - 1 then IndexOf(ids[..|ids| - 1], id)
    else if ids[|ids| - 1] == id then |ids| - 1
    else |ids|
  }

  predicate Listed(ids: seq<Model>, a: ModelMeta, b: ModelMeta) { IndexOf(ids, a.id) < IndexOf(ids, b.id) }

  ghost predicate InListOrder(ids: seq<Model>, ms: seq<ModelMeta>) {
    forall i, j :: 0 <= i < j < |ms| ==> Listed(ids, ms[i], ms[j])
  }

  // Models of the same priority stay in the order of the list.
  ghost predicate TiesListed(ids: seq<Model>, ms: seq<ModelMeta>) {
    forall i, j :: 0 <= i < j < |ms| && AtMost(ms[j].priority, ms[i].priority) ==> Listed(ids, ms[i], ms[j])
  }

  lemma AppendTies(ids: seq<Model>, ms: seq<ModelMeta>, m: ModelMeta)
    requires TiesListed(ids, ms)
    requires forall x :: x in ms && AtMost(m.priority, x.priority) ==> Listed(ids, x, m)
    ensures TiesListed(ids, ms + [m])
  {}

  lemma {:induction false} InsertTies(ids: seq<Model>, ms: seq<ModelMeta>, m: ModelMeta)
    requires Ascending(ms) && TiesListed(ids, ms) && forall x :: x in ms ==> Listed(ids, x, m)
    ensures TiesListed(ids, Insert(ms, m))
  {
    if ms == [] || AtMost(ms[|ms| - 1].priority, m.priority) {
      AppendTies(ids, ms, m);
    } else {
      var front, last := ms[..|ms| - 1], ms[|ms| - 1];
      InsertTies(ids, front, m);
      InsertHas(front, m);
      forall x | x in front && AtMost(last.priority, x.priority) ensures Listed(ids, x, last) {
        var k :| 0 <= k < |front| && front[k] == x;
        assert ms[k] == x;
      }
      AppendTies(ids, Insert(front, m), last);
    }
  }

  lemma {:induction false} SortedTies(ids: seq<Model>, ms: seq<ModelMeta>)
    requires InListOrder(ids, ms)
    ensures TiesListed(ids, Sorted(ms))
  {
    if ms != [] {
      var front, last := ms[..|ms| - 1], ms[|ms| - 1];
      SortedTies(ids, front);
      SortedSorts(front);
      forall x | x in front ensures Listed(ids, x, last) {
        var k :| 0 <= k < |front| && front[k] == x;
        assert ms[k] == x;
      }
      InsertTies(ids, Sorted(front), last);
    }
  }

  // ---- the chain -------------------------------------------------------------------

  function OfType(ms: seq<ModelMeta>, hard: bool): seq<ModelMeta> {
    if ms == [] then []
    else OfType(ms[..|ms| - 1], hard) + (if ms[|ms| - 1].hard == hard then [ms[|ms| - 1]] else [])
  }

  function Loaded(id: Model, hashes: map<Model, ModelHash>): ModelMeta
    requires id in hashes
  {
    ModelMeta(id, hashes[id].hard, hashes[id].priority)
  }

  // The models that have limits, in the order of the ids.
  function WithMeta(ids: seq<Model>, hashes: map<Model, ModelHash>): seq<ModelMeta> {
    if ids == [] then []
    else
      var id := ids[|ids| - 1];
      WithMeta(ids[..|ids| - 1], hashes)
      + (if id in hashes then [Loaded(id, hashes)] else [])
  }

  function Without(ms: seq<ModelMeta>, id: Model): seq<ModelMeta> {
    if ms == [] then []
    else Without(ms[..|ms| - 1], id) + (if ms[|ms| - 1].id == id then [] else [ms[|ms| - 1]])
  }

  // The requested model first, then its fallbacks; None is the error for no models at all.
  function SelectRequestedAndFallback(preferred: seq<ModelMeta>, secondary: seq<ModelMeta>): Option<seq<ModelMeta>> {
    if preferred == [] && secondary == [] then None
    else
      var source := if preferred != [] then preferred else secondary;
      var requested := source[|source| - 1];
      var remainingPreferred := if preferred != [] then Without(preferred, requested.id) else [];
      var remainingSecondary := if preferred == [] then Without(secondary, requested.id) else secondary;
      Some([requested] + (remainingPreferred + remainingSecondary))
  }

  // ---- what a chain promises -------------------------------------------------------

  // A model may serve the mode: any model a hard request, lite models a lite one.
  predicate Eligible(m: ModelMeta, hardMode: bool) { hardMode || !m.hard }

  // In a chain a comes before b or level with it: preferred type first, then by priority.
  predicate NotAfter(a: ModelMeta, b: ModelMeta, hardMode: bool) {
    if a.hard == b.hard then AtMost(a.priority, b.priority) else a.hard == hardMode
  }

  ghost predicate ChainFor(all: seq<ModelMeta>, hardMode: bool, chain: seq<ModelMeta>) {
    // every eligible model once and no other
    && chain != [] && NoModelTwice(chain)
    && (forall m :: m in chain <==> m in all && Eligible(m, hardMode))
    // the fallbacks in order
    && (forall i, j :: 1 <= i < j < |chain| ==> NotAfter(chain[i], chain[j], hardMode))
    // the requested model is the last of its type, which is the preferred one if there is any
    && (forall m :: m in chain && m.hard == chain[0].hard ==> AtMost(m.priority, chain[0].priority))
    && (chain[0].hard == hardMode || forall m :: m in chain ==> m.hard != hardMode)
  }

  lemma {:induction false} WithMetaHas(ids: seq<Model>, hashes: map<Model, ModelHash>)
    requires Distinct(ids)
    ensures forall m :: m in WithMeta(ids, hashes) <==>
      m.id in ids && m.id in hashes && m == Loaded(m.id, hashes)
    ensures NoModelTwice(WithMeta(ids, hashes))
  {
    if ids != [] {
      var front, id := ids[..|ids| - 1], ids[|ids| - 1];
      WithMetaHas(front, hashes);
      assert forall x :: x in ids <==> x in front || x == id;
      if id in hashes {
        AppendDistinct(WithMeta(front, hashes), Loaded(id, hashes));
      }
    }
  }

  lemma AppendListed(ids: seq<Model>, ms: seq<ModelMeta>, m: ModelMeta)
    requires InListOrder(ids, ms) && forall x :: x in ms ==> Listed(ids, x, m)
    ensures InListOrder(ids, ms + [m])
  {}

  // Ids of a prefix come first.
  lemma PrefixIsListed(ids: seq<Model>, n: nat, id: Model, later: Model)
    requires n < |ids| && Distinct(ids) && id in ids[..n] && later == ids[n]
    ensures IndexOf(ids, id) < IndexOf(ids, later)
  {
    var k :| 0 <= k < n && ids[..n][k] == id;
    var i, j := IndexOf(ids, id), IndexOf(ids, later);
    assert ids[i] == ids[k] && ids[j] == ids[n];
  }

  lemma {:induction false} WithMetaListed(ids: seq<Model>, n: nat, hashes: map<Model, ModelHash>)
    requires n <= |ids| && Distinct(ids)
    ensures InListOrder(ids, WithMeta(ids[..n], hashes))
    ensures forall m :: m in WithMeta(ids[..n], hashes) ==> m.id in ids[..n]
  {
    if n > 0 {
      var front, id := ids[..n - 1], ids[n - 1];
      assert ids[..n][..n - 1] == front;
      WithMetaListed(ids, n - 1, hashes);
      if id in hashes {
        var m := Loaded(id, hashes);
        forall x | x in WithMeta(front, hashes) ensures Listed(ids, x, m) {
          PrefixIsListed(ids, n - 1, x.id, id);
        }
        AppendListed(ids, WithMeta(front, hashes), m);
      }
    }
  }

  lemma {:induction false} OfTypeListed(ids: seq<Model>, ms: seq<ModelMeta>, hard: bool)
    requires InListOrder(ids, ms)
    ensures InListOrder(ids, OfType(ms, hard))
    ensures forall m :: m in OfType(ms, hard) ==> m in ms
  {
    if ms != [] {
      var front, last := ms[..|ms| - 1], ms[|ms| - 1];
      OfTypeListed(ids, front, hard);
      if last.hard == hard {
        forall x | x in OfType(front, hard) ensures Listed(ids, x, last) {
          var k :| 0 <= k < |front| && front[k] == x;
          assert ms[k] == x;
        }
        AppendListed(ids, OfType(front, hard), last);
      }
    }
  }

  lemma {:induction false} OfTypeHas(ms: seq<ModelMeta>, hard: bool)
    ensures forall m :: m in OfType(ms, hard) <==> m in ms && m.hard == hard
    ensures NoModelTwice(ms) ==> NoModelTwice(OfType(ms, hard))
  {
    if ms != [] {
      var front, last := ms[..|ms| - 1], ms[|ms| - 1];
      OfTypeHas(front, hard);
      assert forall x :: x in ms <==> x in front || x == last;
      if NoModelTwice(ms) && last.hard == hard {
        AppendDistinct(OfType(front, hard), last);
      }
    }
  }

  lemma {:induction false} WithoutHas(ms: seq<ModelMeta>, id: Model)
    ensures forall m :: m in Without(ms, id) <==> m in ms && m.id != id
    ensures NoModelTwice(ms) ==> NoModelTwice(Without(ms, id))
    ensures Ascending(ms) ==> Ascending(Without(ms, id))
  {
    if ms != [] {
      var front, last := ms[..|ms| - 1], ms[|ms| - 1];
      WithoutHas(front, id);
      assert forall x :: x in ms <==> x in front || x == last;
      if last.id != id {
        if NoModelTwice(ms) {
          AppendDistinct(Without(front, id), last);
        }
        if Ascending(ms) {
          AppendSorts(Without(front, id), last);
        }
      }
    }
  }

  // Two ascending lists, one after the other.
  lemma TailIsOrdered(first: seq<ModelMeta>, second: seq<ModelMeta>, hardMode: bool)
    requires Ascending(first) && Ascending(second)
    requires forall m :: m in second ==> forall x :: x in first ==> x.hard == hardMode && m.hard != hardMode
    requires (forall x, y :: x in first && y in first ==> x.hard == y.hard)
    requires (forall x, y :: x in second && y in second ==> x.hard == y.hard)
    ensures var tail := first + second;
            forall i, j :: 0 <= i < j < |tail| ==> NotAfter(tail[i], tail[j], hardMode)
  {}

  lemma TailIsDistinct(head: ModelMeta, first: seq<ModelMeta>, second: seq<ModelMeta>)
    requires NoModelTwice(first) && NoModelTwice(second)
    requires forall x, y :: x in first && y in second ==> x.id != y.id
    requires forall x :: x in first || x in second ==> x.id != head.id
    ensures NoModelTwice([head] + (first + second))
  {}

  // The two lists that a chain is made of: all models of the preferred type and others.
  ghost predicate Lists(preferred: seq<ModelMeta>, secondary: seq<ModelMeta>, hardMode: bool) {
    && Ascending(preferred) && NoModelTwice(preferred) && Ascending(secondary) && NoModelTwice(secondary)
    && (forall m :: m in preferred ==> m.hard == hardMode)
    && (forall m :: m in secondary ==> m.hard != hardMode)
    && (forall x, y :: x in preferred && y in secondary ==> x.id != y.id)
  }

  lemma PreferredChain(preferred: seq<ModelMeta>, secondary: seq<ModelMeta>, hardMode: bool)
    requires Lists(preferred, secondary, hardMode) && preferred != []
    ensures var head := preferred[|preferred| - 1];
            var rest := Without(preferred, head.id);
            && NoModelTwice([head] + (rest + secondary))
            && (forall m :: m in [head] + (rest + secondary) <==> m in preferred || m in secondary)
            && (forall i, j :: 0 <= i < j < |rest + secondary| ==> NotAfter((rest + secondary)[i], (rest + secondary)[j], hardMode))
            && (forall m :: m in preferred ==> AtMost(m.priority, head.priority))
  {
    var head := preferred[|preferred| - 1];
    var rest := Without(preferred, head.id);
    WithoutHas(preferred, head.id);
    TailIsOrdered(rest, secondary, hardMode);
    TailIsDistinct(head, rest, secondary);
    forall m | m in preferred
      ensures m == head || m in rest
      ensures AtMost(m.priority, head.priority)
    {
      var i :| 0 <= i < |preferred| && preferred[i] == m;
      if i < |preferred| - 1 {
        assert AtMost(preferred[i].priority, preferred[|preferred| - 1].priority);
      }
    }
  }

  lemma SecondaryChain(secondary: seq<ModelMeta>, hardMode: bool)
    requires Lists([], secondary, hardMode) && secondary != []
    ensures var head := secondary[|secondary| - 1];
            var rest := Without(secondary, head.id);
            && NoModelTwice([head] + ([] + rest))
            && (forall m :: m in [head] + ([] + rest) <==> m in secondary)
            && (forall i, j :: 0 <= i < j < |[] + rest| ==> NotAfter(([] + rest)[i], ([] + rest)[j], hardMode))
            && (forall m :: m in secondary ==> AtMost(m.priority, head.priority))
  {
    var head := secondary[|secondary| - 1];
    var rest := Without(secondary, head.id);
    WithoutHas(secondary, head.id);
    TailIsOrdered([], rest, hardMode);
    TailIsDistinct(head, [], rest);
    forall m | m in secondary
      ensures m == head || m in rest
      ensures AtMost(m.priority, head.priority)
    {
      var i :| 0 <= i < |secondary| && secondary[i] == m;
      if i < |secondary| - 1 {
        assert AtMost(secondary[i].priority, secondary[|secondary| - 1].priority);
      }
    }
  }

  lemma SelectedChain(all: seq<ModelMeta>, preferred: seq<ModelMeta>, secondary: seq<ModelMeta>, hardMode: bool)
    requires Lists(preferred, secondary, hardMode)
    requires forall m :: m in preferred || m in secondary <==> m in all && Eligible(m, hardMode)
    ensures var chain := SelectRequestedAndFallback(preferred, secondary);
            && (chain.None? <==> forall m :: m in all ==> !Eligible(m, hardMode))
            && (chain.Some? ==> ChainFor(all, hardMode, chain.value))
  {
    if preferred != [] {
      PreferredChain(preferred, secondary, hardMode);
      var head := preferred[|preferred| - 1];
      assert head in preferred;
      ChainFromTail(all, hardMode, head, Without(preferred, head.id) + secondary);
    } else if secondary != [] {
      SecondaryChain(secondary, hardMode);
      var head := secondary[|secondary| - 1];
      assert head in secondary;
      ChainFromTail(all, hardMode, head, [] + Without(secondary, head.id));
    }
  }

  lemma ChainFromTail(all: seq<ModelMeta>, hardMode: bool, head: ModelMeta, tail: seq<ModelMeta>)
    requires NoModelTwice([head] + tail)
    requires forall m :: m in [head] + tail <==> m in all && Eligible(m, hardMode)
    requires forall i, j :: 0 <= i < j < |tail| ==> NotAfter(tail[i], tail[j], hardMode)
    requires forall m :: m in [head] + tail && m.hard == head.hard ==> AtMost(m.priority, head.priority)
    requires head.hard == hardMode || forall m :: m in [head] + tail ==> m.hard != hardMode
    ensures ChainFor(all, hardMode, [head] + tail)
  {}

  // What a list of models of one type promises: those that have limits and no other, each
  // once, in ascending order of priority, and in the order of the ids where priorities tie.
  ghost predicate ModelsOf(ids: seq<Model>, hashes: map<Model, ModelHash>, hard: bool, ms: seq<ModelMeta>) {
    && (forall m :: m in ms <==> m.id in ids && m.id in hashes && m == Loaded(m.id, hashes) && m.hard == hard)
    && NoModelTwice(ms) && Ascending(ms) && TiesListed(ids, ms)
  }

  lemma SortedModels(ids: seq<Model>, hashes: map<Model, ModelHash>, hard: bool)
    requires Distinct(ids)
    ensures ModelsOf(ids, hashes, hard, Sorted(OfType(WithMeta(ids, hashes), hard)))
  {
    var all := WithMeta(ids, hashes);
    assert ids[..|ids|] == ids;
    WithMetaHas(ids, hashes);
    WithMetaListed(ids, |ids|, hashes);
    OfTypeHas(all, hard);
    OfTypeListed(ids, all, hard);
    SortedSorts(OfType(all, hard));
    SortedTies(ids, OfType(all, hard));
  }

  // src/services/modelSelector.ts:26-73; SMEMBERS lists each id once.
  method LoadModelsByType(ids: seq<Model>, hashes: map<Model, ModelHash>)
    returns (hard: seq<ModelMeta>, lite: seq<ModelMeta>)
    ensures Distinct(ids) ==> ModelsOf(ids, hashes, true, hard) && ModelsOf(ids, hashes, false, lite)
  {
    if Distinct(ids) {
      SortedModels(ids, hashes, true);
      SortedModels(ids, hashes, false);
    }
    if ids == [] {
      return [], [];
    }
    var withMeta := [];
    for i := 0 to |ids|
      invariant withMeta == WithMeta(ids[..i], hashes)
    {
      assert ids[..i + 1][..i] == ids[..i];
      if ids[i] in hashes {
        withMeta := withMeta + [Loaded(ids[i], hashes)];
      }
    }
    assert ids[..|ids|] == ids;
    hard, lite := Sorted(OfType(withMeta, true)), Sorted(OfType(withMeta, false));
  }

  // A model that has limits and may serve the mode.
  ghost predicate Serves(ids: seq<Model>, hashes: map<Model, ModelHash>, hardMode: bool, m: ModelMeta) {
    m.id in ids && m.id in hashes && m == Loaded(m.id, hashes) && Eligible(m, hardMode)
  }

  // The chain of a request names every eligible model once, the requested one first and the
  // fallbacks in order of type and priority; there is none exactly when no model is eligible.
  lemma ChainIsComplete(ids: seq<Model>, hashes: map<Model, ModelHash>, hardMode: bool, hard: seq<ModelMeta>, lite: seq<ModelMeta>)
    requires Distinct(ids) && ModelsOf(ids, hashes, true, hard) && ModelsOf(ids, hashes, false, lite)
    ensures var chain := if hardMode then SelectRequestedAndFallback(hard, lite) else SelectRequestedAndFallback(lite, []);
            && (chain.None? <==> forall m :: !Serves(ids, hashes, hardMode, m))
            && (chain.Some? ==> ChainFor(WithMeta(ids, hashes), hardMode, chain.value))
            && (chain.Some? ==> forall m :: m in chain.value <==> Serves(ids, hashes, hardMode, m))
  {
    var all := WithMeta(ids, hashes);
    WithMetaHas(ids, hashes);
    forall m ensures Serves(ids, hashes, hardMode, m) <==> m in all && Eligible(m, hardMode) {
    }
    if hardMode {
      SelectedChain(all, hard, lite, true);
    } else {
      SelectedChain(all, lite, [], false);
    }
  }

  // src/services/modelSelector.ts:100-112; None is the error for no models at all.
  method ResolveModelChain(ids: seq<Model>, hashes: map<Model, ModelHash>, hardMode: bool)
    returns (chain: Option<seq<ModelMeta>>)
    ensures Distinct(ids) ==> (chain.None? <==> forall m :: !Serves(ids, hashes, hardMode, m))
    ensures Distinct(ids) && chain.Some? ==> ChainFor(WithMeta(ids, hashes), hardMode, chain.value)
    ensures Distinct(ids) && chain.Some? ==> forall m :: m in chain.value <==> Serves(ids, hashes, hardMode, m)
  {
    var hard, lite := LoadModelsByType(ids, hashes);
    if Distinct(ids) {
      ChainIsComplete(ids, hashes, hardMode, hard, lite);
    }
    if hardMode {
      return SelectRequestedAndFallback(hard, lite);
    }
    return SelectRequestedAndFallback(lite, []);
  }

  // ---- the fallback loop -----------------------------------------------------------

  datatype Limits = Limits(rpm: int, rpd: int)

  datatype SelectionError = ConcurrencyLimit | UserRpdLimit(mode: Mode) | ModelLimit

  datatype Selected = Selected(model: Model, rpm: int, rpd: int) | Refused(error: SelectionError)

  // What a request brings to the selection; the limits of models that were deleted are gone.
  datatype Params = Params(
    limits: map<Model, Limits>, user: User, isAdmin: bool, hardRpd: int, liteRpd: int, maxConcurrency: int,
    mode: Mode, userKey: Key, dayTtl: int, now: int, job: JobId, lockTtl: int)
  {
    function UserDayLimit(): int { if isAdmin then 0 else if mode.Hard? then hardRpd else liteRpd }

    function ConcurrencyLimit(): int { if isAdmin then 0 else maxConcurrency }

    function Args(m: Model): AcquireArgs
      requires m in limits
    {
      AcquireArgs(user, userKey, ModelRpd(m), job, UserDayLimit(), ConcurrencyLimit(), limits[m].rpd,
                  dayTtl, lockTtl, dayTtl, 1, now)
    }
  }

  // What decides, in a database on which nobody else works meanwhile.
  ghost predicate LocksFree(db: Db, p: Params) {
    p.isAdmin || p.maxConcurrency <= 0 || |HeldAfter(db, p.user, p.now)| < p.maxConcurrency
  }

  predicate UserHasTokens(db: Db, p: Params) {
    var limit := match p.mode case Hard => p.hardRpd case Lite => p.liteRpd;
    p.isAdmin || limit <= 0 || Val(db.counters, p.userKey) + 1 <= limit
  }

  predicate Spare(db: Db, p: Params, m: Model) {
    m in p.limits && (p.limits[m].rpd <= 0 || Val(db.counters, ModelRpd(m)) + 1 <= p.limits[m].rpd)
  }

  function WithoutExpired(db: Db, p: Params): Db {
    db.(locks := ZRemRangeByScore(db.locks, p.user, p.now))
  }

  ghost predicate FirstSpare(db: Db, p: Params, chain: seq<Model>, i: nat) {
    i < |chain| && Spare(db, p, chain[i]) && forall k :: 0 <= k < i ==> !Spare(db, p, chain[k])
  }

  // The outcome for the whole chain.
  ghost predicate Outcome(db: Db, now: int, p: Params, chain: seq<Model>, r: Selected, db': Db) {
    if forall k :: 0 <= k < |chain| ==> chain[k] !in p.limits then
      r == Refused(ModelLimit) && db' == db
    else if !LocksFree(db, p) then
      r == Refused(ConcurrencyLimit) && db' == WithoutExpired(db, p)
    else if !UserHasTokens(db, p) then
      r == Refused(UserRpdLimit(p.mode)) && db' == WithoutExpired(db, p)
    else if forall k :: 0 <= k < |chain| ==> !Spare(db, p, chain[k]) then
      r == Refused(ModelLimit) && db' == WithoutExpired(db, p)
    else exists i ::
      && 0 <= i < |chain| && FirstSpare(db, p, chain, i)
      && r == Selected(chain[i], p.limits[chain[i]].rpm, p.limits[chain[i]].rpd)
      && db' == CombinedCheckAndAcquire(db, now, p.Args(chain[i]))
  }

  lemma PurgeTwice(db: Db, p: Params)
    ensures WithoutExpired(WithoutExpired(db, p), p) == WithoutExpired(db, p)
    ensures LocksFree(WithoutExpired(db, p), p) == LocksFree(db, p)
  {
    var once := Above(LocksOf(db.locks, p.user), p.now);
    assert Above(once, p.now) == once;
    assert HeldAfter(WithoutExpired(db, p), p.user, p.now) == HeldAfter(db, p.user, p.now);
    assert LocksOf(WithoutExpired(db, p).locks, p.user) == once;
    assert WithoutExpired(WithoutExpired(db, p), p).locks == WithoutExpired(db, p).locks;
  }

  lemma AttemptCode(db: Db, p: Params, m: Model)
    requires m in p.limits
    ensures AcquireCode(db, p.Args(m)) ==
      if !LocksFree(db, p) then CONCURRENCY_EXCEEDED
      else if !UserHasTokens(db, p) then USER_RPD_EXCEEDED
      else if !Spare(db, p, m) then RPD_EXCEEDED
      else OK
  {
    AcquireReplies(db, p.Args(m));
  }

  // An attempt after expired locks were dropped does what it would have done before.
  lemma AttemptAfterPurge(db: Db, now: int, p: Params, m: Model)
    requires m in p.limits
    ensures AcquireCode(WithoutExpired(db, p), p.Args(m)) == AcquireCode(db, p.Args(m))
    ensures Redis.CombinedCheckAndAcquire(WithoutExpired(db, p), now, p.Args(m)) ==
      if AcquireCode(db, p.Args(m)) == OK then Redis.CombinedCheckAndAcquire(db, now, p.Args(m)) else WithoutExpired(db, p)
  {
    PurgeTwice(db, p);
    AttemptCode(db, p, m);
    AttemptCode(WithoutExpired(db, p), p, m);
  }

  method SelectAvailableModel(store: Store, p: Params, chain: seq<Model>) returns (r: Selected)
    modifies store`counters, store`locks
    ensures Outcome(old(store.AsDb()), store.now, p, chain, r, store.AsDb())
  {
    ghost var db := store.AsDb();
    for i := 0 to |chain|
      invariant store.AsDb() ==
        if forall k :: 0 <= k < i ==> chain[k] !in p.limits then db else WithoutExpired(db, p)
      invariant (exists k :: 0 <= k < i && chain[k] in p.limits) ==> LocksFree(db, p) && UserHasTokens(db, p)
      invariant forall k :: 0 <= k < i ==> !Spare(db, p, chain[k])
    {
      var candidate := chain[i];
      if candidate !in p.limits {
        continue;
      }
      AttemptCode(db, p, candidate);
      AttemptAfterPurge(db, store.now, p, candidate);
      var code := store.CombinedCheckAndAcquire(p.Args(candidate));
      if code == OK {
        assert FirstSpare(db, p, chain, i);
        return Selected(candidate, p.limits[candidate].rpm, p.limits[candidate].rpd);
      }
      if code == RPD_EXCEEDED {
        continue;
      }
      if code == CONCURRENCY_EXCEEDED {
        return Refused(ConcurrencyLimit);
      }
      if code == USER_RPD_EXCEEDED {
        return Refused(UserRpdLimit(p.mode));
      }
    }
    return Refused(ModelLimit);
  }

  // A selected model costs the user one token and one lock and takes nothing from any other
  // counter or user.
  lemma SelectionTakesOne(db: Db, now: int, p: Params, m: Model)
    requires m in p.limits && AcquireCode(db, p.Args(m)) == OK && p.dayTtl > 0 && p.userKey != ModelRpd(m)
    ensures var db' := Redis.CombinedCheckAndAcquire(db, now, p.Args(m));
            && (forall k :: Val(db'.counters, k) == Val(db.counters, k) + (if k == p.userKey && p.UserDayLimit() > 0 then 1 else 0))
            && LocksOf(db'.locks, p.user) == (if p.ConcurrencyLimit() > 0
                 then Above(LocksOf(db.locks, p.user), p.now)[p.job := p.now + p.lockTtl * 1000]
                 else Above(LocksOf(db.locks, p.user), p.now))
            && (forall u :: u != p.user ==> LocksOf(db'.locks, u) == LocksOf(db.locks, u))
            && db'.metas == db.metas && db'.results == db.results
  {}
}
