/** The handlers of the API, the worker, the failure listener and the crons, statement by
    statement. Between two commands of a handler any other process may take any number of
    steps. Whatever the handlers do, the states they go through are a run of the machine in
    `Lifecycle`, so everything proved of its runs holds of them. */
module ServiceModule {
  import opened Redis
  import opened Counting
  import opened Lifecycle
  import opened Handlers
  import opened Sequences
  import EventCounts
  import StoreModule

  class Service {
    const c: Config
    const store: StoreModule.Store
    // The machine: Redis as the handlers have left it, and where every job stands.
    var s: State
    ghost var run: seq<State>
    ghost var events: seq<Event>

    ghost predicate Traced()
      reads this
    {
      Run(c, run, events) && run[|run| - 1] == s
    }

    ghost predicate Valid()
      reads this, store
    {
      Traced() && s.db == store.AsDb() && s.now == store.now
    }

    constructor (c: Config, start: int)
      ensures Valid() && fresh(store) && this.c == c && s.jobs == map[]
    {
      this.c := c;
      var st := new StoreModule.Store(start);
      store := st;
      var first := State(EMPTY_DB, start, map[], map[], map[]);
      s, run, events := first, [first], [];
    }

    // The event that the commands just sent amount to.
    method Note(e: Event)
      requires Traced() && Enabled(s, e)
      requires store.AsDb() == Apply(c, s, e).db && store.now == Apply(c, s, e).now
      modifies this
      ensures Valid() && s == Apply(c, old(s), e) && run == old(run) + [s] && events == old(events) + [e]
    {
      EventCounts.ExtendRun(c, run, events, e);
      s := Apply(c, s, e);
      run, events := run + [s], events + [e];
    }

    // Any step of anybody.
    method Perform(e: Event)
      requires Valid() && Enabled(s, e)
      modifies this, store
      ensures Valid() && s == Apply(c, old(s), e) && run == old(run) + [s]
    {
      var next := Apply(c, s, e);
      store.counters, store.locks, store.now := next.db.counters, next.db.locks, next.now;
      store.metas, store.results := next.db.metas, next.db.results;
      Note(e);
    }

    // Everybody else, for any number of steps, while the handler has the job in hands.
    method Others(j: JobId, h: Handler)
      requires Valid() && j in s.jobs && InHands(h, s.jobs[j].pc)
      modifies this, store
      ensures Valid() && j in s.jobs && Left(h, old(ViewOf(s, j)), ViewOf(s, j)) && old(run) <= run
      ensures forall u :: old(Unlocked(s.db.locks, u, j)) ==> Unlocked(s.db.locks, u, j)
    {
      var count: int :| count >= 0;
      for i := 0 to count
        invariant Valid() && j in s.jobs && old(run) <= run && Left(h, old(ViewOf(s, j)), ViewOf(s, j))
        invariant forall u :: old(Unlocked(s.db.locks, u, j)) ==> Unlocked(s.db.locks, u, j)
      {
        var e: Event := *;
        if Enabled(s, e) && Foreign(h, j, e) {
          LeftByOthers(c, run, events, e, j, h);
          LeftOn(h, old(ViewOf(s, j)), ViewOf(s, j), ViewOf(Apply(c, s, e), j));
          forall u | Unlocked(s.db.locks, u, j) ensures Unlocked(Apply(c, s, e).db.locks, u, j) {
            NobodyLocksAgain(c, s, e, j, u);
          }
          Perform(e);
        }
      }
    }

    // A step of a job that sends nothing to Redis.
    method Silent(j: JobId, e: JobStep)
      requires Valid() && Enabled(s, OfJob(j, e))
      requires var v := ViewOf(s, j);
               var v' := NextView(c, s, v, e);
               CommandOf(c, s.now, v, e) == Nothing && NextLocks(s, j, v, e) == s.db.locks
               && v'.meta == v.meta && v'.result == v.result
      modifies this
      ensures Valid() && Stepped(c, old(s), s, j, e) && s.db == old(s.db) && old(run) < run
    {
      StepDb(c, s, j, e);
      Note(OfJob(j, e));
    }

    // A step of a job that only sets fields of its meta.
    method SetMeta(j: JobId, e: JobStep, m: Meta)
      requires Valid() && Enabled(s, OfJob(j, e))
      requires var v := ViewOf(s, j);
               var v' := NextView(c, s, v, e);
               CommandOf(c, s.now, v, e) == Nothing && NextLocks(s, j, v, e) == s.db.locks
               && v'.meta == Some(m) && v'.result == v.result
      modifies this, store
      ensures Valid() && Stepped(c, old(s), s, j, e) && old(run) <= run
      ensures s.db == old(s.db).(metas := old(s.db.metas)[j := m])
    {
      StepDb(c, s, j, e);
      store.metas := store.metas[j := m];
      assert store.metas == Put(s.db.metas, j, Some(m));
      Note(OfJob(j, e));
    }

    // ---- the API -------------------------------------------------------------------

    // Everybody else before the job exists; its id is a fresh one.
    method OthersBefore(j: JobId)
      requires Valid() && j !in s.jobs
      modifies this, store
      ensures Valid() && j !in s.jobs && old(s.now) <= s.now && old(run) <= run
    {
      var count: int :| count >= 0;
      for i := 0 to count
        invariant Valid() && j !in s.jobs && old(s.now) <= s.now && old(run) <= run
      {
        var e: Event := *;
        if Enabled(s, e) && !(e.TryAcquire? && e.j == j) {
          Perform(e);
        }
      }
    }

    // src/routes/resume/modelSelection.ts:68-85, one candidate
    method Acquire(e: Event) returns (code: int)
      requires Valid() && e.TryAcquire? && Enabled(s, e)
      modifies this, store
      ensures Valid() && s == AfterAcquire(c, old(s), e) && run == old(run) + [s]
      ensures code == AcquireCode(old(s.db), AcquireArgsFor(c, e))
      ensures code == OK ==> e.j in s.jobs && s.jobs[e.j].pc.Selected?
      ensures code == OK ==> s.jobs[e.j].info == Info(e.user, e.mode, e.model, e.requested, c.date(e.askedAt), e.askedAt)
      ensures code != OK ==> s.jobs == old(s.jobs)
    {
      code := store.CombinedCheckAndAcquire(AcquireArgsFor(c, e));
      Note(e);
    }

    // src/routes/resume/modelSelection.ts:51-99: the loop over the chain goes on only when a
    // model has no limits or no token left. The models passed over were tried in the states
    // run[asked[0]], run[asked[1]], ... and the last one in run[at].
    method SelectAvailableModel(j: JobId, user: User, mode: Mode, chain: seq<Model>, present: set<Model>, askedAt: int)
      returns (code: int, model: Model, ghost asked: seq<nat>, ghost at: nat)
      requires Valid() && j !in s.jobs && askedAt <= s.now && chain != []
      modifies this, store
      ensures Valid() && old(run) <= run
      ensures Verdict(c, run, |old(run)| - 1, asked, at, Wish(user, mode, chain, present, askedAt), code, model)
      ensures if code != OK then j !in s.jobs
              else j in s.jobs && s.jobs[j].pc.Selected?
                   && s.jobs[j].info == Info(user, mode, model, chain[0], c.date(askedAt), askedAt)
    {
      ghost var q, from := Wish(user, mode, chain, present, askedAt), |run| - 1;
      asked, at, code, model := [], from, RPD_EXCEEDED, chain[0];
      for i := 0 to |chain|
        invariant Valid() && j !in s.jobs && askedAt <= s.now && old(run) <= run
        invariant i < |chain| ==> |asked| == i && AllPassedOver(c, run, from, asked, q)
        invariant i == |chain| ==> Verdict(c, run, from, asked, at, q, RPD_EXCEEDED, model)
      {
        ghost var before := run;
        model := chain[i];
        code, at := TryModel(j, user, mode, model, chain, present, askedAt);
        PassedFurther(c, before, run, from, asked, q, at);
        if code != RPD_EXCEEDED {
          return;
        }
        if i + 1 < |chain| {
          asked := asked + [at];
        }
      }
      code := RPD_EXCEEDED;
    }

    // src/routes/resume/modelSelection.ts:52-98, one candidate, tried in run[at]
    method TryModel(j: JobId, user: User, mode: Mode, model: Model, chain: seq<Model>, present: set<Model>, askedAt: int)
      returns (code: int, ghost at: nat)
      requires Valid() && j !in s.jobs && askedAt <= s.now && chain != []
      modifies this, store
      ensures Valid() && old(run) <= run && |old(run)| <= at + 1 && at < |run| && old(s.now) <= s.now
      ensures Judged(c, run[at], Wish(user, mode, chain, present, askedAt), model, code)
      ensures if code != OK then j !in s.jobs
              else j in s.jobs && s.jobs[j].pc.Selected?
                   && s.jobs[j].info == Info(user, mode, model, chain[0], c.date(askedAt), askedAt)
    {
      OthersBefore(j);
      at := |run| - 1;
      if model !in present {
        return RPD_EXCEEDED, at;
      }
      GatesDecide(c, s, Wish(user, mode, chain, present, askedAt), j, model, chain[0]);
      code := Acquire(TryAcquire(j, user, mode, model, chain[0], askedAt));
    }

    // INCR queue:waiting:{model}
    method IncrWaiting(j: JobId) returns (count: int)
      requires Valid() && j in s.jobs && s.jobs[j].pc.Selected?
      modifies this, store
      ensures Valid() && j in s.jobs && s.jobs[j] == old(s.jobs[j]).(pc := Incremented(count)) && old(run) <= run
      ensures count == old(Val(s.db.counters, Waiting(s.jobs[j].info.model))) + 1
      ensures s.db == old(s.db).(counters := IncrBy(old(s.db.counters), Waiting(s.jobs[j].info.model), 1))
    {
      StepDb(c, s, j, Request(RequestStep.IncrWaiting));
      count := store.IncrByCmd(Waiting(s.jobs[j].info.model), 1);
      Note(OfJob(j, Request(RequestStep.IncrWaiting)));
    }

    // src/routes/resume/prepareJobSubmission.ts:82-90
    method CompareAndDecr(j: JobId, waitingCount: int) returns (accepted: bool)
      requires Valid() && j in s.jobs && s.jobs[j].pc == Incremented(waitingCount)
      modifies this, store
      ensures Valid() && j in s.jobs && s.jobs[j] == old(s.jobs[j]).(pc := if accepted then Accepted else Rejected)
      ensures old(run) <= run
      ensures accepted <==> waitingCount <= c.MaxQueueLength(s.jobs[j].info.model, s.jobs[j].info.mode)
      ensures accepted ==> s.db == old(s.db)
      ensures !accepted ==> s.db == old(s.db).(counters := IncrBy(old(s.db.counters), Waiting(s.jobs[j].info.model), -1))
    {
      var info := s.jobs[j].info;
      StepDb(c, s, j, Request(RequestStep.CompareAndDecr));
      accepted := waitingCount <= c.MaxQueueLength(info.model, info.mode);
      if !accepted {
        var _ := store.IncrByCmd(Waiting(info.model), -1);
      }
      Note(OfJob(j, Request(RequestStep.CompareAndDecr)));
    }

    // src/routes/resume/enqueueJob.ts:37-72
    method EnqueueJob(j: JobId) returns (ok: bool)
      requires Valid() && j in s.jobs && s.jobs[j].pc.Accepted?
      modifies this, store
      ensures Valid() && j in s.jobs && s.jobs[j].info == old(s.jobs[j].info) && old(run) <= run
      ensures s.jobs[j].pc == if ok then WaitingInQueue else EnqueueFailed
      ensures ok ==> s.jobs[j].queuedAt == s.now && Announces(s.jobs[j].info, old(MetaOf(s.db, j)), MetaOf(s.db, j))
      ensures ok ==> s.db == old(s.db).(metas := old(s.db.metas)[j := MetaOf(s.db, j)])
      ensures !ok ==> s.db == old(s.db).(counters := IncrBy(old(s.db.counters), Waiting(s.jobs[j].info.model), -1))
    {
      var info := s.jobs[j].info;
      ok := *;
      StepDb(c, s, j, Request(if ok then Enqueue else EnqueueFails));
      if ok {
        store.metas := store.metas[j := MetaOf(store.AsDb(), j).(
          user := Some(info.user), requested := Some(info.requested), processed := Some(info.model),
          createdAt := Some(info.askedAt), status := Some(Queued))];
      } else {
        var _ := store.IncrByCmd(Waiting(info.model), -1);
      }
      Note(OfJob(j, Request(if ok then Enqueue else EnqueueFails)));
    }

    // src/routes/resume/prepareJobSubmission.ts:79-90; INCR found the state run[counted].
    method Backpressure(j: JobId) returns (accepted: bool, ghost counted: nat)
      requires Valid() && j in s.jobs && s.jobs[j].pc.Selected?
      modifies this, store
      ensures Valid() && j in s.jobs && s.jobs[j].info == old(s.jobs[j].info) && old(run) <= run
      ensures s.jobs[j].pc == if accepted then Accepted else Rejected
      ensures |old(run)| <= counted + 1 && counted < |run|
      ensures accepted <==> HasPlace(c, run[counted], s.jobs[j].info)
    {
      var waitingCount;
      waitingCount, counted := CountIn(j);
      PlaceIsWithinBound(c, run[counted], s.jobs[j].info);
      Others(j, Requester);
      accepted := CompareAndDecr(j, waitingCount);
    }

    method CountIn(j: JobId) returns (waitingCount: int, ghost counted: nat)
      requires Valid() && j in s.jobs && s.jobs[j].pc.Selected?
      modifies this, store
      ensures Valid() && j in s.jobs && s.jobs[j].info == old(s.jobs[j].info) && old(run) <= run
      ensures s.jobs[j].pc == Incremented(waitingCount) && |old(run)| <= counted + 1 && counted < |run|
      ensures waitingCount == Val(run[counted].db.counters, Waiting(s.jobs[j].info.model)) + 1
    {
      Others(j, Requester);
      counted := |run| - 1;
      waitingCount := IncrWaiting(j);
    }

    method EnqueueLater(j: JobId) returns (ok: bool)
      requires Valid() && j in s.jobs && s.jobs[j].pc.Accepted?
      modifies this, store
      ensures Valid() && j in s.jobs && s.jobs[j].info == old(s.jobs[j].info) && old(run) <= run
      ensures s.jobs[j].pc == if ok then WaitingInQueue else EnqueueFailed
      ensures ok ==> s.jobs[j].queuedAt == s.now && j in s.db.metas && MetaNames(s.jobs[j].info, s.db.metas[j])
    {
      Others(j, Requester);
      ok := EnqueueJob(j);
    }

    // A request up to the answer to the client, src/routes/resume/prepareJobSubmission.ts and
    // enqueueJob.ts. It is refused for what the last model came to, or gets the first model
    // that was not passed over; then the backlog, as INCR found it, decides.
    method SubmitJob(j: JobId, user: User, mode: Mode, chain: seq<Model>, present: set<Model>)
      returns (r: Submission, ghost asked: seq<nat>, ghost at: nat, ghost counted: nat)
      requires Valid() && j !in s.jobs && chain != []
      modifies this, store
      ensures Valid() && old(run) <= run
      ensures |asked| < |chain|
      ensures var q := Wish(user, mode, chain, present, old(s.now));
              Verdict(c, run, |old(run)| - 1, asked, at, q, if r.Refused? then r.code else OK, chain[|asked|])
      ensures r.Refused? <==> j !in s.jobs
      ensures !r.Refused? ==> s.jobs[j].pc == r.Stand()
      ensures !r.Refused? ==>
        s.jobs[j].info == Info(user, mode, chain[|asked|], chain[0], c.date(old(s.now)), old(s.now))
      ensures !r.Refused? ==> at <= counted < |run|
      ensures !r.Refused? ==> (r.QueueFull? <==> !HasPlace(c, run[counted], s.jobs[j].info))
      ensures r.Enqueued? ==> s.jobs[j].queuedAt == s.now && j in s.db.metas && MetaNames(s.jobs[j].info, s.db.metas[j])
    {
      ghost var q, from := Wish(user, mode, chain, present, s.now), |run| - 1;
      counted := 0;
      var code, model;
      code, model, asked, at := SelectAvailableModel(j, user, mode, chain, present, s.now);
      if code != OK {
        r := Refused(code);
        return;
      }
      ghost var selected := run;
      r, counted := QueueJob(j);
      VerdictStays(c, selected, run, from, asked, at, q, OK, model);
    }

    method QueueJob(j: JobId) returns (r: Submission, ghost counted: nat)
      requires Valid() && j in s.jobs && s.jobs[j].pc.Selected?
      modifies this, store
      ensures Valid() && j in s.jobs && s.jobs[j].info == old(s.jobs[j].info) && old(run) <= run
      ensures !r.Refused? && s.jobs[j].pc == r.Stand()
      ensures |old(run)| <= counted + 1 && counted < |run|
      ensures r.QueueFull? <==> !HasPlace(c, run[counted], s.jobs[j].info)
      ensures r.Enqueued? ==> s.jobs[j].queuedAt == s.now && j in s.db.metas && MetaNames(s.jobs[j].info, s.db.metas[j])
    {
      var accepted;
      accepted, counted := Backpressure(j);
      if !accepted {
        return QueueFull, counted;
      }
      var ok := EnqueueLater(j);
      return if ok then Enqueued else EnqueueError, counted;
    }

    // ---- the worker ----------------------------------------------------------------

    // Others work, and the worker process may die.
    method Gap(j: JobId) returns (died: bool)
      requires Valid() && j in s.jobs && InHands(Worker, s.jobs[j].pc)
      modifies this, store
      ensures Valid() && j in s.jobs && old(run) <= run
      ensures died ==> Lost(old(ViewOf(s, j)), ViewOf(s, j))
      ensures !died ==> Left(Worker, old(ViewOf(s, j)), ViewOf(s, j))
      ensures forall u :: old(Unlocked(s.db.locks, u, j)) ==> Unlocked(s.db.locks, u, j)
    {
      Others(j, Worker);
      died := *;
      if died {
        var retry: bool := *;
        MayDie(c, run, events, j, retry);
        Silent(j, Work(WorkerDies(retry)));
      }
    }

    // src/worker/handleJob.ts:37-38
    method Fetch(j: JobId) returns (tokensAlreadyConsumed: bool)
      requires Valid() && j in s.jobs && InQueue(s.jobs[j].pc)
      modifies this, store
      ensures Valid() && Stepped(c, old(s), s, j, Work(WorkStep.Fetch)) && s.db == old(s.db) && old(run) <= run
      ensures tokensAlreadyConsumed == MetaOf(s.db, j).tokensConsumed
    {
      var existingMeta := MetaOf(store.AsDb(), j);
      Silent(j, Work(WorkStep.Fetch));
      return existingMeta.tokensConsumed;
    }

    // src/worker/markInProgress.ts
    method MarkInProgress(j: JobId)
      requires Valid() && j in s.jobs && s.jobs[j].pc.Fetched?
      modifies this, store
      ensures Valid() && s.now == old(s.now) && old(run) <= run
      ensures s.jobs == old(s.jobs)[j := old(s.jobs[j]).(pc := Marked(old(s.jobs[j].pc.tokens)))]
      ensures s.db == old(s.db).(metas := old(s.db.metas)[j :=
        old(MetaOf(s.db, j)).(status := Some(InProgress), updatedAt := Some(s.now))])
    {
      SetMeta(j, Work(WorkStep.MarkInProgress),
              MetaOf(store.AsDb(), j).(status := Some(InProgress), updatedAt := Some(store.now)));
    }

    // src/worker/handleJob.ts:37-40
    method Start(j: JobId) returns (died: bool, tokensAlreadyConsumed: bool)
      requires Valid() && j in s.jobs && InQueue(s.jobs[j].pc)
      modifies this, store
      ensures Valid() && j in s.jobs && tokensAlreadyConsumed == old(MetaOf(s.db, j).tokensConsumed) && old(run) <= run
      ensures died ==> Lost(old(ViewOf(s, j)), ViewOf(s, j))
      ensures !died ==> s.jobs[j].pc == Marked(tokensAlreadyConsumed) && MetaOf(s.db, j).tokensConsumed == tokensAlreadyConsumed
      ensures !died ==> s.jobs[j].info == old(s.jobs[j].info) && s.jobs[j].hist == old(s.jobs[j].hist)
    {
      tokensAlreadyConsumed := Fetch(j);
      died := Gap(j);
      if !died {
        MarkInProgress(j);
        died := Gap(j);
      }
    }

    // The script of src/worker/consumeLimitsIfNeeded.ts:31-34
    method ConsumeModelLimits(j: JobId) returns (code: int)
      requires Valid() && j in s.jobs && s.jobs[j].pc == Marked(false)
      modifies this, store
      ensures Valid() && j in s.jobs && s.jobs[j].info == old(s.jobs[j].info) && old(run) <= run
      ensures code == if !HasMinute(c, old(s), s.jobs[j].info.model) then RPM_EXCEEDED
                      else if !HasRoom(c, old(s), s.jobs[j].info.model) then RPD_EXCEEDED
                      else OK
      ensures s.db == old(s.db).(counters :=
        Redis.ConsumeExecutionLimits(old(s.db.counters), s.now, ConsumeArgsFor(c, s.jobs[j].info.model, s.now)))
      ensures s.jobs[j].pc == if code == OK then Granted else if code == RPM_EXCEEDED then RpmBlocked else RpdBlocked
      ensures s.jobs[j].hist.writes == old(s.jobs[j].hist.writes)
      ensures s.jobs[j].hist.consumptions == old(s.jobs[j].hist.consumptions) + Ind(code == OK)
    {
      StepDb(c, s, j, Work(WorkStep.Consume));
      code := store.ConsumeExecutionLimits(ConsumeArgsFor(c, s.jobs[j].info.model, store.now));
      Note(OfJob(j, Work(WorkStep.Consume)));
    }

    // src/worker/consumeLimitsIfNeeded.ts:36-41
    method Delay(j: JobId) returns (r: Attempt)
      requires Valid() && j in s.jobs && s.jobs[j].pc.RpmBlocked?
      modifies this, store
      ensures Valid() && j in s.jobs && (r.Died? || r.MovedToDelayed?) && old(run) <= run
      ensures Came(old(ViewOf(s, j)), ViewOf(s, j), false, r, false)
    {
      var died := Requeue(j);
      if died { return Died; }
      Silent(j, Work(MoveToDelayed));
      return Attempt.MovedToDelayed;
    }

    // src/worker/consumeLimitsIfNeeded.ts:37-39
    method Requeue(j: JobId) returns (died: bool)
      requires Valid() && j in s.jobs && s.jobs[j].pc.RpmBlocked?
      modifies this, store
      ensures Valid() && j in s.jobs && old(run) <= run
      ensures died ==> Lost(old(ViewOf(s, j)), ViewOf(s, j))
      ensures !died ==> s.jobs[j].pc.RpmRequeued? && MetaOf(s.db, j).status == Some(Queued)
      ensures !died ==> s.jobs[j].info == old(s.jobs[j].info) && s.jobs[j].hist == old(s.jobs[j].hist)
    {
      died := Gap(j);
      if !died {
        SetMeta(j, Work(RequeueStatus), MetaOf(store.AsDb(), j).(status := Some(Queued)));
        died := Gap(j);
      }
    }

    // src/worker/consumeLimitsIfNeeded.ts; nobody works between the entry and the script.
    method ConsumeLimitsIfNeeded(j: JobId, tokensAlreadyConsumed: bool) returns (r: Attempt)
      requires Valid() && j in s.jobs && s.jobs[j].pc == Marked(tokensAlreadyConsumed)
      requires MetaOf(s.db, j).tokensConsumed == tokensAlreadyConsumed
      modifies this, store
      ensures Valid() && j in s.jobs && old(run) <= run
      ensures r.Died? || r.Consumed? || r.MovedToDelayed? || r.DayExceeded?
      ensures Came(old(ViewOf(s, j)), ViewOf(s, j), tokensAlreadyConsumed, r, false)
      ensures tokensAlreadyConsumed ==> r.Consumed? && s.db == old(s.db)
      ensures !tokensAlreadyConsumed ==> Follows(c, old(s), s.jobs[j].info.model, r)
    {
      if tokensAlreadyConsumed {
        SkipConsumption(j);
        return Consumed;
      }
      var code := ConsumeModelLimits(j);
      if code == RPM_EXCEEDED {
        r := Delay(j);
        return r;
      }
      if code == RPD_EXCEEDED {
        ExceedDay(j);
        return DayExceeded;
      }
      r := NoteConsumption(j);
    }

    // src/worker/consumeLimitsIfNeeded.ts:22
    method SkipConsumption(j: JobId)
      requires Valid() && j in s.jobs && s.jobs[j].pc == Marked(true)
      modifies this, store
      ensures Valid() && s.db == old(s.db) && j in s.jobs && s.jobs[j] == old(s.jobs[j]).(pc := Ready) && old(run) <= run
    {
      Silent(j, Work(Consume));
    }

    // src/worker/consumeLimitsIfNeeded.ts:44-46
    method ExceedDay(j: JobId)
      requires Valid() && j in s.jobs && s.jobs[j].pc.RpdBlocked?
      modifies this, store
      ensures Valid() && s.db == old(s.db) && j in s.jobs && s.jobs[j] == old(s.jobs[j]).(pc := FailurePending) && old(run) <= run
    {
      Silent(j, Work(LimitError));
    }

    // src/worker/consumeLimitsIfNeeded.ts:52-53
    method NoteConsumption(j: JobId) returns (r: Attempt)
      requires Valid() && j in s.jobs && s.jobs[j].pc.Granted?
      modifies this, store
      ensures Valid() && j in s.jobs && (r.Died? || r.Consumed?) && old(run) <= run
      ensures Came(old(ViewOf(s, j)), ViewOf(s, j), true, r, false)
    {
      var died := Gap(j);
      if died { return Died; }
      SetMeta(j, Work(FlagConsumed), MetaOf(store.AsDb(), j).(tokensConsumed := true));
      return Consumed;
    }

    // src/worker/handleJob.ts:47-52; `retry` says whether BullMQ has an attempt left.
    method CallModel(j: JobId, answers: bool, retry: bool) returns (r: Attempt)
      requires Valid() && j in s.jobs && s.jobs[j].pc.Ready? && MetaOf(s.db, j).tokensConsumed
      modifies this, store
      ensures Valid() && j in s.jobs && (r.Died? || r == if answers then Called else ProviderThrew) && old(run) <= run
      ensures Came(old(ViewOf(s, j)), ViewOf(s, j), true, r, retry)
    {
      var died := Reach(j);
      if died {
        return Died;
      }
      if answers {
        r := Complete(j);
      } else {
        Silent(j, Work(ProviderFails(retry)));
        return ProviderThrew;
      }
    }

    // src/worker/handleJob.ts:47-48
    method Reach(j: JobId) returns (died: bool)
      requires Valid() && j in s.jobs && s.jobs[j].pc.Ready?
      modifies this, store
      ensures Valid() && j in s.jobs && old(run) <= run
      ensures died ==> Lost(old(ViewOf(s, j)), ViewOf(s, j))
      ensures !died ==> s.jobs[j].pc.Calling? && MetaOf(s.db, j) == old(MetaOf(s.db, j)).(providerCompleted := false)
      ensures !died ==> s.jobs[j].info == old(s.jobs[j].info) && s.jobs[j].hist == old(s.jobs[j].hist)
    {
      died := Gap(j);
      if !died {
        SetMeta(j, Work(CallProvider), MetaOf(store.AsDb(), j).(providerCompleted := false));
        died := Gap(j);
      }
    }

    // src/worker/handleJob.ts:50, when the provider answers
    method Receive(j: JobId) returns (died: bool)
      requires Valid() && j in s.jobs && s.jobs[j].pc.Calling?
      modifies this, store
      ensures Valid() && j in s.jobs && old(run) <= run
      ensures died ==> Lost(old(ViewOf(s, j)), ViewOf(s, j))
      ensures !died ==> s.jobs[j].pc.Answered? && MetaOf(s.db, j) == old(MetaOf(s.db, j))
      ensures !died ==> s.jobs[j].info == old(s.jobs[j].info) && s.jobs[j].hist == old(s.jobs[j].hist)
    {
      Silent(j, Work(ProviderAnswers));
      died := Gap(j);
    }

    // src/worker/handleJob.ts:50-52
    method Complete(j: JobId) returns (r: Attempt)
      requires Valid() && j in s.jobs && s.jobs[j].pc.Calling? && MetaOf(s.db, j).tokensConsumed
      modifies this, store
      ensures Valid() && j in s.jobs && (r.Died? || r.Called?) && old(run) <= run
      ensures Came(old(ViewOf(s, j)), ViewOf(s, j), true, r, false)
    {
      var died := Receive(j);
      if died { return Died; }
      SetMeta(j, Work(FlagCompleted), MetaOf(store.AsDb(), j).(providerCompleted := true));
      return Called;
    }

    // ---- success -------------------------------------------------------------------

    // src/worker/finalizeSuccess.ts:15-18
    method WriteSuccess(j: JobId, usedModel: Model) returns (died: bool)
      requires Valid() && j in s.jobs && s.jobs[j].pc.Flagged?
      modifies this, store
      ensures Valid() && j in s.jobs && old(run) <= run
      ensures died ==> Lost(old(ViewOf(s, j)), ViewOf(s, j))
      ensures !died ==> s.jobs[j].pc.SuccessMeta? && Names(MetaOf(s.db, j), usedModel)
      ensures !died ==> MetaOf(s.db, j).tokensConsumed == old(MetaOf(s.db, j).tokensConsumed)
      ensures !died ==> s.jobs[j].info == old(s.jobs[j].info) && s.jobs[j].hist == old(s.jobs[j].hist)
    {
      SetMeta(j, Succeed(WriteSuccessMeta(usedModel)),
              MetaOf(store.AsDb(), j).(processed := Some(usedModel), status := Some(Completed)));
      died := Gap(j);
    }

    // src/worker/finalizeSuccess.ts:20-25
    method WriteSuccessResult(j: JobId, usedModel: Model, text: string)
      requires Valid() && j in s.jobs && s.jobs[j].pc.SuccessMeta? && MetaOf(s.db, j).processed == Some(usedModel)
      modifies this, store
      ensures Valid() && j in s.jobs && old(run) <= run
      ensures s.jobs[j] == old(s.jobs[j]).(pc := SuccessResult, hist := Settle(old(s.jobs[j].hist), Completed))
      ensures s.db == old(s.db).(results := old(s.db.results)[j :=
        old(ResultOf(s.db, j)).(status := Some(Completed), data := Some(text), usedModel := Some(usedModel),
                                finishedAt := Some(old(s.now)))])
    {
      StepDb(c, s, j, Succeed(SuccessStep.WriteSuccessResult(text)));
      store.results := store.results[j := ResultOf(store.AsDb(), j).(
        status := Some(Completed), data := Some(text), usedModel := Some(usedModel), finishedAt := Some(store.now))];
      Note(OfJob(j, Succeed(SuccessStep.WriteSuccessResult(text))));
    }

    // src/worker/finalizeSuccess.ts:27
    method UnlockSuccess(j: JobId)
      requires Valid() && j in s.jobs && s.jobs[j].pc.SuccessResult?
      modifies this, store
      ensures Valid() && j in s.jobs && s.jobs[j] == old(s.jobs[j]).(pc := SuccessUnlocked) && old(run) <= run
      ensures s.db == old(s.db).(locks := ZRem(old(s.db.locks), s.jobs[j].info.user, j))
    {
      StepDb(c, s, j, Succeed(SuccessStep.UnlockSuccess));
      store.locks := ZRem(store.locks, s.jobs[j].info.user, j);
      Note(OfJob(j, Succeed(SuccessStep.UnlockSuccess)));
    }

    // src/worker/finalizeSuccess.ts:29
    method ReleaseSuccess(j: JobId)
      requires Valid() && j in s.jobs && s.jobs[j].pc.SuccessUnlocked?
      modifies this, store
      ensures Valid() && j in s.jobs && s.jobs[j] == old(s.jobs[j]).(pc := Done) && old(run) <= run
      ensures s.db == old(s.db).(counters := ClampedDecr(old(s.db.counters), Waiting(s.jobs[j].info.model), 1))
    {
      StepDb(c, s, j, Succeed(SuccessStep.ReleaseSuccess));
      var _ := store.DecrAndClampToZero(Waiting(s.jobs[j].info.model));
      Note(OfJob(j, Succeed(SuccessStep.ReleaseSuccess)));
    }

    // src/worker/finalizeSuccess.ts: unless the worker dies, meta and result are those of the
    // answer at the end, and the lock is gone, whatever others do in between.
    method FinalizeSuccess(j: JobId, usedModel: Model, text: string) returns (died: bool)
      requires Valid() && j in s.jobs && s.jobs[j].pc.Flagged?
      modifies this, store
      ensures Valid() && j in s.jobs && Ended(old(ViewOf(s, j)), ViewOf(s, j), died) && old(run) <= run
      ensures !died ==> Names(MetaOf(s.db, j), usedModel) && Holds(ResultOf(s.db, j), usedModel, text)
      ensures !died ==> Unlocked(s.db.locks, s.jobs[j].info.user, j)
    {
      died := WriteSuccess(j, usedModel);
      if !died {
        died := FinishSuccess(j, usedModel, text);
      }
    }

    // src/worker/finalizeSuccess.ts:20-29
    method FinishSuccess(j: JobId, usedModel: Model, text: string) returns (died: bool)
      requires Valid() && j in s.jobs && s.jobs[j].pc.SuccessMeta? && Names(MetaOf(s.db, j), usedModel)
      modifies this, store
      ensures Valid() && j in s.jobs && Ended(old(ViewOf(s, j)), ViewOf(s, j), died) && old(run) <= run
      ensures !died ==> Names(MetaOf(s.db, j), usedModel) && Holds(ResultOf(s.db, j), usedModel, text)
      ensures !died ==> Unlocked(s.db.locks, s.jobs[j].info.user, j)
    {
      WriteSuccessResult(j, usedModel, text);
      died := Gap(j);
      if !died {
        UnlockSuccess(j);
        died := Leave(j);
      }
    }

    // src/worker/finalizeSuccess.ts:29
    method Leave(j: JobId) returns (died: bool)
      requires Valid() && j in s.jobs && s.jobs[j].pc.SuccessUnlocked?
      modifies this, store
      ensures Valid() && j in s.jobs && old(run) <= run
      ensures died ==> Lost(old(ViewOf(s, j)), ViewOf(s, j))
      ensures !died ==> SameHashes(old(ViewOf(s, j)), ViewOf(s, j)) && s.jobs[j].pc.Done?
      ensures !died ==> s.jobs[j].info == old(s.jobs[j].info) && s.jobs[j].hist == old(s.jobs[j].hist)
      ensures forall u :: old(Unlocked(s.db.locks, u, j)) ==> Unlocked(s.db.locks, u, j)
    {
      died := Gap(j);
      if !died {
        ReleaseSuccess(j);
      }
    }

    // One attempt, src/worker/handleJob.ts. The provider answers or throws; BullMQ retries
    // after an exception or not. The tokens are asked for in the state run[at].
    method HandleJob(j: JobId, answers: bool, retry: bool, usedModel: Model, text: string)
      returns (r: Attempt, ghost at: nat)
      requires Valid() && j in s.jobs && InQueue(s.jobs[j].pc)
      modifies this, store
      ensures Valid() && j in s.jobs && !r.Consumed? && !r.Called? && old(run) <= run
      ensures Came(old(ViewOf(s, j)), ViewOf(s, j), old(MetaOf(s.db, j).tokensConsumed), r, retry)
      ensures !r.Died? && !old(MetaOf(s.db, j).tokensConsumed) ==>
        |old(run)| - 1 <= at < |run| && Follows(c, run[at], s.jobs[j].info.model, r)
      ensures (r.Succeeded? ==> answers) && (r.ProviderThrew? ==> !answers)
      ensures r.Succeeded? ==> Names(MetaOf(s.db, j), usedModel) && Holds(ResultOf(s.db, j), usedModel, text)
      ensures r.Succeeded? ==> Unlocked(s.db.locks, s.jobs[j].info.user, j)
    {
      ghost var v := ViewOf(s, j);
      var died, tokensAlreadyConsumed := Start(j);
      if died {
        return Died, 0;
      }
      at := |run| - 1;
      ghost var started := ViewOf(s, j);
      r := Execute(j, tokensAlreadyConsumed, answers, retry, usedModel, text);
      CameFrom(v, started, ViewOf(s, j), tokensAlreadyConsumed, r, retry);
    }

    // src/worker/handleJob.ts:43-54
    method Execute(j: JobId, tokensAlreadyConsumed: bool, answers: bool, retry: bool, usedModel: Model, text: string)
      returns (r: Attempt)
      requires Valid() && j in s.jobs && s.jobs[j].pc == Marked(tokensAlreadyConsumed)
      requires MetaOf(s.db, j).tokensConsumed == tokensAlreadyConsumed
      modifies this, store
      ensures Valid() && j in s.jobs && !r.Consumed? && !r.Called? && old(run) <= run
      ensures Came(old(ViewOf(s, j)), ViewOf(s, j), tokensAlreadyConsumed, r, retry)
      ensures !r.Died? && !tokensAlreadyConsumed ==> Follows(c, old(s), s.jobs[j].info.model, r)
      ensures (r.Succeeded? ==> answers) && (r.ProviderThrew? ==> !answers)
      ensures r.Succeeded? ==> Names(MetaOf(s.db, j), usedModel) && Holds(ResultOf(s.db, j), usedModel, text)
      ensures r.Succeeded? ==> Unlocked(s.db.locks, s.jobs[j].info.user, j)
    {
      ghost var v := ViewOf(s, j);
      r := ConsumeLimitsIfNeeded(j, tokensAlreadyConsumed);
      if !r.Consumed? {
        return r;
      }
      ghost var ready := ViewOf(s, j);
      r := CallAndFinish(j, answers, retry, usedModel, text);
      CameFurther(v, ready, ViewOf(s, j), tokensAlreadyConsumed, Consumed, r, retry);
    }

    // src/worker/handleJob.ts:47-54
    method CallAndFinish(j: JobId, answers: bool, retry: bool, usedModel: Model, text: string) returns (r: Attempt)
      requires Valid() && j in s.jobs && s.jobs[j].pc.Ready? && MetaOf(s.db, j).tokensConsumed
      modifies this, store
      ensures Valid() && j in s.jobs && (r.Died? || r.ProviderThrew? || r.Succeeded?) && old(run) <= run
      ensures Came(old(ViewOf(s, j)), ViewOf(s, j), true, r, retry)
      ensures (r.Succeeded? ==> answers) && (r.ProviderThrew? ==> !answers)
      ensures r.Succeeded? ==> Names(MetaOf(s.db, j), usedModel) && Holds(ResultOf(s.db, j), usedModel, text)
      ensures r.Succeeded? ==> Unlocked(s.db.locks, s.jobs[j].info.user, j)
    {
      ghost var v := ViewOf(s, j);
      r := CallModel(j, answers, retry);
      if !r.Called? {
        return r;
      }
      ghost var called := ViewOf(s, j);
      r := FinishAttempt(j, usedModel, text);
      CameFurther(v, called, ViewOf(s, j), true, Called, r, retry);
    }

    // src/worker/handleJob.ts:54
    method FinishAttempt(j: JobId, usedModel: Model, text: string) returns (r: Attempt)
      requires Valid() && j in s.jobs && s.jobs[j].pc.Flagged? && MetaOf(s.db, j).tokensConsumed
      modifies this, store
      ensures Valid() && j in s.jobs && (r.Died? || r.Succeeded?) && old(run) <= run
      ensures Came(old(ViewOf(s, j)), ViewOf(s, j), true, r, false)
      ensures r.Succeeded? ==> Names(MetaOf(s.db, j), usedModel) && Holds(ResultOf(s.db, j), usedModel, text)
      ensures r.Succeeded? ==> Unlocked(s.db.locks, s.jobs[j].info.user, j)
    {
      var died := Gap(j);
      if died {
        return Died;
      }
      died := FinalizeSuccess(j, usedModel, text);
      return if died then Died else Succeeded;
    }

    // ---- failure -------------------------------------------------------------------

    // src/worker/queueEvents.ts:70-85 and src/worker/returnTokens.ts
    method DecideRefund(j: JobId) returns (known: bool)
      requires Valid() && j in s.jobs && s.jobs[j].pc.FailurePending?
      modifies this, store
      ensures Valid() && j in s.jobs && s.jobs[j].info == old(s.jobs[j].info)
      ensures known <==> j in old(s.db.metas)
      ensures !known ==> s == old(s)
      ensures var meta := old(MetaOf(s.db, j));
              var model := if meta.processed.Some? then meta.processed else meta.requested;
              known ==>
                && s.jobs[j].pc == FailureDecided(meta.user, model)
                && s.db == old(s.db).(counters :=
                     if meta.user.Some? && model.Some? && meta.tokensConsumed && !meta.providerCompleted
                     then Redis.ReturnTokensAtomic(old(s.db.counters), s.now, ReturnArgsFor(model.value, c.DayTtl(s.now)))
                     else old(s.db.counters))
    {
      if j !in store.metas {
        return false;
      }
      var meta := store.metas[j];
      StepDb(c, s, j, Fail(FailureStep.DecideRefund));
      var model := if meta.processed.Some? then meta.processed else meta.requested;
      if meta.user.Some? && model.Some? && meta.tokensConsumed && !meta.providerCompleted {
        store.ReturnTokensAtomic(ReturnArgsFor(model.value, c.DayTtl(store.now)));
      }
      Note(OfJob(j, Fail(FailureStep.DecideRefund)));
      return true;
    }

    // src/worker/queueEvents.ts:95-100
    method WriteFailedResult(j: JobId, reason: string)
      requires Valid() && j in s.jobs && s.jobs[j].pc.FailureDecided?
      modifies this, store
      ensures Valid() && j in s.jobs && s.jobs[j].info == old(s.jobs[j].info)
      ensures s.jobs[j].pc == FailureResult(old(s.jobs[j].pc.user), old(s.jobs[j].pc.model))
      ensures s.db == old(s.db).(results := old(s.db.results)[j := old(ResultOf(s.db, j)).(
        status := Some(Failed), error := Some(reason), errorCode := Some(FailureCode(reason, s.jobs[j].info.mode)),
        finishedAt := Some(s.now))])
    {
      StepDb(c, s, j, Fail(FailureStep.WriteFailedResult(reason)));
      store.results := store.results[j := ResultOf(store.AsDb(), j).(
        status := Some(Failed), error := Some(reason), errorCode := Some(FailureCode(reason, s.jobs[j].info.mode)),
        finishedAt := Some(store.now))];
      Note(OfJob(j, Fail(FailureStep.WriteFailedResult(reason))));
    }

    // src/worker/queueEvents.ts:119-121
    method UnlockFailed(j: JobId)
      requires Valid() && j in s.jobs && s.jobs[j].pc.FailureMeta?
      modifies this, store
      ensures Valid() && j in s.jobs && s.jobs[j].info == old(s.jobs[j].info)
      ensures s.jobs[j].pc == FailureUnlocked(old(s.jobs[j].pc.user), old(s.jobs[j].pc.model))
      ensures s.db == old(s.db).(locks :=
        if old(s.jobs[j].pc.user).Some? then ZRem(old(s.db.locks), old(s.jobs[j].pc.user).value, j) else old(s.db.locks))
    {
      StepDb(c, s, j, Fail(FailureStep.UnlockFailed));
      var userId := s.jobs[j].pc.user;
      if userId.Some? {
        store.locks := ZRem(store.locks, userId.value, j);
      }
      Note(OfJob(j, Fail(FailureStep.UnlockFailed)));
    }

    // src/worker/queueEvents.ts:123-125
    method ReleaseFailed(j: JobId)
      requires Valid() && j in s.jobs && s.jobs[j].pc.FailureUnlocked?
      modifies this, store
      ensures Valid() && j in s.jobs && s.jobs[j].info == old(s.jobs[j].info) && s.jobs[j].pc.FailureDone?
      ensures s.db == old(s.db).(counters :=
        if old(s.jobs[j].pc.model).Some? then ClampedDecr(old(s.db.counters), Waiting(old(s.jobs[j].pc.model).value), 1)
        else old(s.db.counters))
    {
      StepDb(c, s, j, Fail(FailureStep.ReleaseFailed));
      var model := s.jobs[j].pc.model;
      if model.Some? {
        var _ := store.DecrAndClampToZero(Waiting(model.value));
      }
      Note(OfJob(j, Fail(FailureStep.ReleaseFailed)));
    }

    // A `failed` event, src/worker/queueEvents.ts: `found` says that BullMQ still has the job,
    // `failed` that its state is failed. A job that is gone counts as failed for good, also when
    // the expiry cron has removed it while it waited for its next attempt. Whatever others do
    // meanwhile, the result is a failure at the end, of the given reason unless the expiry cron
    // has overtaken the handler.
    method OnFailed(j: JobId, found: bool, failed: bool, failedReason: string) returns (handled: bool)
      requires Valid() && j in s.jobs
      requires found && failed ==> s.jobs[j].pc.FailurePending?
      requires !found ==> s.jobs[j].pc.FailurePending? || Missing(s.jobs[j])
      modifies this, store
      ensures Valid() && j in s.jobs
      ensures handled <==> (!found || failed) && j in old(s.db.metas)
      ensures !handled ==> s == old(s)
      ensures handled ==> s.jobs[j].pc.FailureDone? && FailedAs(ResultOf(s.db, j), ReasonOf(failedReason), s.jobs[j].info.mode)
      ensures handled ==> MetaOf(s.db, j).status == Some(Failed)
      ensures handled && old(MetaOf(s.db, j)).user.Some? ==> Unlocked(s.db.locks, old(MetaOf(s.db, j)).user.value, j)
    {
      var isFinalAttempt := !found || failed;
      if !isFinalAttempt {
        return false;
      }
      if j !in store.metas {
        return false;
      }
      if !s.jobs[j].pc.FailurePending? {
        Silent(j, Fail(FindMissing));
      }
      handled := DecideRefund(j);
      Others(j, Failer);
      WriteFailure(j, ReasonOf(failedReason));
    }

    // src/worker/queueEvents.ts:94-125
    method WriteFailure(j: JobId, reason: string)
      requires Valid() && j in s.jobs && s.jobs[j].pc.FailureDecided? && j in s.db.metas
      modifies this, store
      ensures Valid() && j in s.jobs && s.jobs[j].pc.FailureDone?
      ensures FailedAs(ResultOf(s.db, j), reason, s.jobs[j].info.mode) && MetaOf(s.db, j).status == Some(Failed)
      ensures old(s.jobs[j].pc.user).Some? ==> Unlocked(s.db.locks, old(s.jobs[j].pc.user).value, j)
    {
      WriteFailedResult(j, reason);
      FailureIsCoded(reason, s.jobs[j].info.mode);
      Others(j, Failer);
      SetMeta(j, Fail(WriteFailedMeta), MetaOf(store.AsDb(), j).(status := Some(Failed), updatedAt := Some(store.now)));
      LeaveFailed(j, reason);
    }

    // src/worker/queueEvents.ts:119-125
    method LeaveFailed(j: JobId, reason: string)
      requires Valid() && j in s.jobs && s.jobs[j].pc.FailureMeta? && j in s.db.metas
      requires FailedAs(ResultOf(s.db, j), reason, s.jobs[j].info.mode) && MetaOf(s.db, j).status == Some(Failed)
      modifies this, store
      ensures Valid() && j in s.jobs && s.jobs[j].pc.FailureDone?
      ensures FailedAs(ResultOf(s.db, j), reason, s.jobs[j].info.mode) && MetaOf(s.db, j).status == Some(Failed)
      ensures old(s.jobs[j].pc.user).Some? ==> Unlocked(s.db.locks, old(s.jobs[j].pc.user).value, j)
    {
      Others(j, Failer);
      UnlockFailed(j);
      Others(j, Failer);
      ReleaseFailed(j);
    }

    // ---- the crons -----------------------------------------------------------------

    // Everybody else during a pass of the expiry cron, of which only one runs at a time.
    method OthersButExpiry()
      requires Valid()
      modifies this, store
      ensures Valid() && old(s.now) <= s.now && KeptOutside(old(s.jobs), s.jobs, []) && old(run) <= run
    {
      var count: int :| count >= 0;
      for i := 0 to count
        invariant Valid() && old(s.now) <= s.now && KeptOutside(old(s.jobs), s.jobs, []) && old(run) <= run
      {
        var e: Event := *;
        if Enabled(s, e) && !(e.OfJob? && e.step.Stale?) {
          StepKeepsAll(c, run, events, e);
          KeptOn(old(s.jobs), s.jobs, Apply(c, s, e).jobs, []);
          Perform(e);
        }
      }
    }

    // A job of the list that the pass will expire; a pass that ended early may have left it listed.
    method ListStale(j: JobId)
      requires Valid() && j in s.jobs && InQueue(s.jobs[j].pc) && s.now - s.jobs[j].queuedAt > EXPIRE_SLA_MS
      modifies this, store
      ensures Valid() && s.now == old(s.now) && s.db == old(s.db) && old(run) <= run
      ensures s.jobs == old(s.jobs)[j := old(s.jobs[j]).(cron := Listed)]
    {
      QueuedIsEarly(c, run, events, j);
      if !s.jobs[j].cron.Idle? {
        Silent(j, Stale(SkipStale));
      }
      Silent(j, Stale(StaleStep.ListStale));
    }

    // src/cron/expireStaleJobs.ts:40-42
    method ReadStale(j: JobId) returns (tokensConsumed: bool, providerCompleted: bool)
      requires Valid() && j in s.jobs && s.jobs[j].cron.Listed?
      modifies this, store
      ensures Valid() && s.now == old(s.now) && s.db == old(s.db) && old(run) < run
      ensures tokensConsumed == MetaOf(s.db, j).tokensConsumed && providerCompleted == MetaOf(s.db, j).providerCompleted
      ensures s.jobs == old(s.jobs)[j := old(s.jobs[j]).(cron := Read(tokensConsumed, providerCompleted))]
    {
      var meta := MetaOf(store.AsDb(), j);
      Silent(j, Stale(StaleStep.ReadStale));
      return meta.tokensConsumed, meta.providerCompleted;
    }

    // src/cron/expireStaleJobs.ts:46; BullMQ refuses to remove a job that a worker has locked,
    // and the pass ends with the exception.
    method RemoveStale(j: JobId) returns (removed: bool)
      requires Valid() && j in s.jobs && s.jobs[j].cron.Read?
      modifies this, store
      ensures Valid() && s.now == old(s.now) && s.db == old(s.db) && j in s.jobs && old(run) <= run
      ensures removed <==> Removable(old(s.jobs[j].pc))
      ensures KeptOutside(old(s.jobs), s.jobs, [j])
      ensures if removed then OnItsWay(s.jobs[j]) else s.jobs[j] == old(s.jobs[j]).(cron := Idle)
    {
      removed := Removable(s.jobs[j].pc);
      RemovalMoves(c, s, j);
      if removed {
        Silent(j, Stale(StaleStep.RemoveStale));
      } else {
        Silent(j, Stale(SkipStale));
      }
    }

    // src/cron/expireStaleJobs.ts:49-58
    method RefundStale(j: JobId, startedAt: int)
      requires Valid() && j in s.jobs && OnItsWay(s.jobs[j]) && startedAt <= s.now
      modifies this, store
      ensures old(run) <= run
      ensures Valid() && s.now == old(s.now) && j in s.jobs && Halfway(s.jobs[j]) && KeptOutside(old(s.jobs), s.jobs, [j])
      ensures s.db == old(s.db).(counters :=
        if StaleRefunds(old(s.jobs[j]))
        then Redis.ReturnTokensAtomic(old(s.db.counters), s.now,
                                      ReturnArgsFor(old(s.jobs[j]).info.model, c.DayTtl(startedAt)))
        else old(s.db.counters))
    {
      RefundMovesOn(c, s, j, startedAt);
      if StaleRefunds(s.jobs[j]) {
        store.ReturnTokensAtomic(ReturnArgsFor(s.jobs[j].info.model, c.DayTtl(startedAt)));
      }
      Note(OfJob(j, Stale(StaleStep.RefundStale(startedAt))));
    }

    // src/cron/expireStaleJobs.ts:60-77; the step of the machine is the script.
    method ReleaseStale(j: JobId, startedAt: int)
      requires Valid() && j in s.jobs && Halfway(s.jobs[j]) && startedAt <= s.now
      modifies this, store
      ensures old(run) <= run
      ensures Valid() && s.now == old(s.now) && j in s.jobs && Gone(s.jobs[j]) && KeptOutside(old(s.jobs), s.jobs, [j])
      ensures s.db == Redis.ExpireStaleJob(old(s.db), s.now, ExpireArgsFor(c, old(s), j, startedAt))
    {
      ReleaseMovesOn(c, s, j, startedAt);
      store.ExpireStaleJob(ExpireArgsFor(c, s, j, startedAt));
      Note(OfJob(j, Stale(StaleStep.ReleaseStale(startedAt))));
    }

    // src/cron/expireStaleJobs.ts:48-77
    method FinishStale(j: JobId, startedAt: int)
      requires Valid() && j in s.jobs && OnItsWay(s.jobs[j]) && startedAt <= s.now
      modifies this, store
      ensures Valid() && old(s.now) <= s.now && KeptOutside(old(s.jobs), s.jobs, [j]) && old(run) <= run
      ensures j in s.jobs && Gone(s.jobs[j])
    {
      ghost var before := s.jobs;
      OthersButExpiry();
      ghost var meanwhile := s.jobs;
      RefundStale(j, startedAt);
      KeptOn(before, meanwhile, s.jobs, [j]);
      ghost var refunded := s.jobs;
      OthersButExpiry();
      KeptOn(before, refunded, s.jobs, [j]);
      meanwhile := s.jobs;
      ReleaseStale(j, startedAt);
      KeptOn(before, meanwhile, s.jobs, [j]);
    }

    // src/cron/expireStaleJobs.ts:40-46; the removal finds the state run[at].
    method RemoveListed(j: JobId) returns (removed: bool, ghost at: nat)
      requires Valid() && j in s.jobs && s.jobs[j].cron.Listed?
      modifies this, store
      ensures Valid() && old(s.now) <= s.now && KeptOutside(old(s.jobs), s.jobs, [j]) && old(run) <= run
      ensures |old(run)| <= at < |run| && j in run[at].jobs && run[at].jobs[j].cron.Read? && j in s.jobs
      ensures removed <==> Removable(run[at].jobs[j].pc)
      ensures removed ==> OnItsWay(s.jobs[j])
      ensures !removed ==> s.db == run[at].db && s.jobs[j] == run[at].jobs[j].(cron := Idle)
    {
      ghost var before := s.jobs;
      ReadAndWait(j);
      at := |run| - 1;
      ghost var meanwhile := s.jobs;
      removed := RemoveStale(j);
      KeptOn(before, meanwhile, s.jobs, [j]);
    }

    // src/cron/expireStaleJobs.ts:40-45
    method ReadAndWait(j: JobId)
      requires Valid() && j in s.jobs && s.jobs[j].cron.Listed?
      modifies this, store
      ensures Valid() && old(s.now) <= s.now && KeptOutside(old(s.jobs), s.jobs, [j]) && old(run) < run
      ensures j in s.jobs && s.jobs[j].cron.Read?
    {
      ghost var before := s.jobs;
      var _, _ := ReadStale(j);
      ghost var read := s.jobs;
      OthersButExpiry();
      KeptOn(before, read, s.jobs, [j]);
    }

    // src/cron/expireStaleJobs.ts:40-77: the job is expired exactly when no worker has it at
    // the moment of its removal, the state run[at]; otherwise nothing is written.
    method ExpireListed(j: JobId, startedAt: int) returns (removed: bool, ghost at: nat)
      requires Valid() && j in s.jobs && s.jobs[j].cron.Listed? && startedAt <= s.now
      modifies this, store
      ensures Valid() && old(s.now) <= s.now && KeptOutside(old(s.jobs), s.jobs, [j]) && old(run) <= run
      ensures |old(run)| <= at < |run| && j in run[at].jobs && run[at].jobs[j].cron.Read? && j in s.jobs
      ensures removed <==> Removable(run[at].jobs[j].pc)
      ensures removed ==> Gone(s.jobs[j])
      ensures !removed ==> s.db == run[at].db && s.jobs[j] == run[at].jobs[j].(cron := Idle)
    {
      ghost var before := s.jobs;
      removed, at := RemoveListed(j);
      if removed {
        ghost var gone := s.jobs;
        FinishStale(j, startedAt);
        KeptOn(before, gone, s.jobs, [j]);
      }
    }

    // src/cron/expireStaleJobs.ts:31-33: the pass goes over the list and skips young jobs.
    method ListDue(js: seq<JobId>, mode: Mode, startedAt: int) returns (due: seq<JobId>)
      requires Valid() && startedAt <= s.now && ListOf(s.jobs, mode, js)
      modifies this, store
      ensures Valid() && s.now == old(s.now) && old(run) <= run
      ensures DueOf(old(s.jobs), js, due, startedAt) && KeptOutside(old(s.jobs), s.jobs, due) && AllListed(s.jobs, due)
    {
      due := [];
      ghost var jobs := s.jobs;
      for i := 0 to |js|
        invariant Valid() && s.now == old(s.now) && old(run) <= run
        invariant DueUpTo(jobs, s.jobs, js, i, due, startedAt)
      {
        DueFurther(jobs, s.jobs, mode, js, i, due, startedAt);
        var ageMs := startedAt - s.jobs[js[i]].queuedAt;
        if ageMs > EXPIRE_SLA_MS {
          ListStale(js[i]);
          due := due + [js[i]];
        }
      }
      DueAreListed(jobs, s.jobs, js, due, startedAt);
    }

    method ExpireAll(due: seq<JobId>, startedAt: int) returns (done: bool, ghost met: nat, ghost held: JobId)
      requires Valid() && startedAt <= s.now && Distinct(due) && AllListed(s.jobs, due)
      modifies this, store
      ensures Valid() && old(s.now) <= s.now && KeptOutside(old(s.jobs), s.jobs, due) && old(run) <= run
      ensures done ==> AllGone(s.jobs, due)
      ensures !done ==> MeetsWorker(run, |old(run)|, met, held)
    {
      met, held := 0, 0;
      ghost var listed := s.jobs;
      for i := 0 to |due|
        invariant Valid() && startedAt <= old(s.now) <= s.now && KeptOutside(listed, s.jobs, due) && old(run) <= run
        invariant AllListed(s.jobs, due[i..]) && AllGone(s.jobs, due[..i])
      {
        done, met := ExpireOne(due, i, startedAt);
        if !done {
          held := due[i];
          return;
        }
      }
      assert due[..|due|] == due;
      done := true;
    }

    // One turn of the loop
    method ExpireOne(due: seq<JobId>, i: nat, startedAt: int) returns (removed: bool, ghost at: nat)
      requires Valid() && startedAt <= s.now && Distinct(due) && i < |due|
      requires AllListed(s.jobs, due[i..]) && AllGone(s.jobs, due[..i])
      modifies this, store
      ensures Valid() && old(s.now) <= s.now && KeptOutside(old(s.jobs), s.jobs, [due[i]]) && old(run) <= run
      ensures removed ==> AllListed(s.jobs, due[i + 1..]) && AllGone(s.jobs, due[..i + 1])
      ensures !removed ==> MeetsWorker(run, |old(run)|, at, due[i])
    {
      ghost var before := s.jobs;
      OthersButExpiry();
      ghost var meanwhile := s.jobs;
      StillListed(before, meanwhile, due, i);
      removed, at := ExpireListed(due[i], startedAt);
      TurnKeeps(before, meanwhile, s.jobs, due, i);
    }

    // The loop over the list that is taken now, src/cron/expireStaleJobs.ts:29-78. It ends with an
    // exception when a worker has a listed job by the time of its removal.
    method ExpireList(mode: Mode, startedAt: int) returns (done: bool, ghost met: nat, ghost held: JobId)
      requires Valid() && startedAt <= s.now
      modifies this, store
      ensures Valid() && old(s.now) <= s.now && old(run) <= run
      ensures Spared(old(s.jobs), s.jobs, mode, startedAt)
      ensures done ==> Swept(old(s.jobs), s.jobs, mode, startedAt)
      ensures !done ==> MeetsWorker(run, |old(run)|, met, held)
    {
      ghost var before := s.jobs;
      var js := GetJobs(s.jobs, mode);
      var due := ListDue(js, mode, startedAt);
      ghost var listed := s.jobs;
      done, met, held := ExpireAll(due, startedAt);
      KeptOn(before, listed, s.jobs, due);
      PassSweeps(before, s.jobs, mode, js, due, startedAt);
    }

    // One queue; its list is taken in the state run[at].
    method ExpireQueue(mode: Mode, startedAt: int)
      returns (done: bool, ghost at: nat, ghost met: nat, ghost held: JobId)
      requires Valid() && startedAt <= s.now
      modifies this, store
      ensures Valid() && old(s.now) <= s.now && old(run) <= run && |old(run)| - 1 <= at < |run|
      ensures KeptOutside(old(s.jobs), run[at].jobs, [])
      ensures Spared(run[at].jobs, s.jobs, mode, startedAt)
      ensures done ==> Swept(run[at].jobs, s.jobs, mode, startedAt)
      ensures !done ==> MeetsWorker(run, |old(run)|, met, held)
    {
      OthersButExpiry();
      at := |run| - 1;
      done, met, held := ExpireList(mode, startedAt);
    }

    // Both queues with one start time, the lists taken in run[lite] and run[hard]: unless it
    // meets a worker with a listed job, every job that stood in its queue then and was past the limit is expired
    // at its end, whatever others do in between, and no job that was not past the limit is.
    method ExpireStaleJobs()
      returns (done: bool, ghost lite: nat, ghost hard: nat, ghost met: nat, ghost held: JobId)
      requires Valid()
      modifies this, store
      ensures Valid() && old(run) <= run
      ensures YoungAreKept(old(s.jobs), s.jobs, old(s.now))
      ensures done ==> |old(run)| - 1 <= lite <= hard < |run|
      ensures done ==> Swept(run[lite].jobs, s.jobs, Lite, old(s.now)) && Swept(run[hard].jobs, s.jobs, Hard, old(s.now))
      ensures !done ==> MeetsWorker(run, |old(run)|, met, held)
    {
      var startedAt := s.now;
      ghost var before := s.jobs;
      hard := 0;
      done, lite, met, held := ExpireQueue(Lite, startedAt);
      YoungStay(before, before, run[lite].jobs, s.jobs, Lite, startedAt);
      if done {
        ghost var between := s.jobs;
        done, hard, met, held := ExpireQueue(Hard, startedAt);
        YoungStay(before, between, run[hard].jobs, s.jobs, Hard, startedAt);
        SweptStays(run[lite].jobs, between, run[hard].jobs, s.jobs, startedAt);
      }
    }

    // src/cron/cleanupOrphanLocks.ts: `users` are the users whose lock sets the scan found.
    method CleanupOrphanLocks(users: seq<User>)
      requires Valid()
      modifies this, store
      ensures Valid() && s.jobs == old(s.jobs)
      ensures events == old(events) + seq(|users|, i requires 0 <= i < |users| => CleanLocks(users[i], old(s.now)))
    {
      var now := store.now;
      for i := 0 to |users|
        invariant Valid() && s.jobs == old(s.jobs) && s.now == now == old(s.now)
        invariant |events| == |old(events)| + i && old(events) <= events
        invariant forall k :: 0 <= k < i ==> events[|old(events)| + k] == CleanLocks(users[k], now)
      {
        store.locks := ZRemRangeByScore(store.locks, users[i], now);
        Note(CleanLocks(users[i], now));
      }
    }
  }
}
