/** Where the service keeps less than one might expect, and what the guarantees in `Safety` and
    `Traces` rest on: what a death while a success is written or after it, a late expiry, a
    listener that misses the job, a death before provider_completed is set, a full queue and an
    expiry on another day do. */
module Hazards {
  import opened Redis
  import opened Counting
  import opened Lifecycle
  import EventCounts
  import JobInvariant
  import Safety
  import Traces

  // A request that is turned away because the queue is full gives back its place in the
  // backlog and nothing else: the lock and the user's token stay where the script put them.
  lemma FullQueueKeepsLockAndToken(c: Config, s: State, j: JobId)
    requires Enabled(s, OfJob(j, Request(CompareAndDecr)))
    requires s.jobs[j].pc.count > c.MaxQueueLength(s.jobs[j].info.model, s.jobs[j].info.mode)
    ensures var s' := Apply(c, s, OfJob(j, Request(CompareAndDecr)));
            var k := Waiting(s.jobs[j].info.model);
            && s'.db.locks == s.db.locks && s'.books == s.books && s'.jobs[j].pc.Rejected?
            && Val(s'.db.counters, k) == Val(s.db.counters, k) - 1
            && (forall q :: q != k ==> Val(s'.db.counters, q) == Val(s.db.counters, q))
  {}

  // A place that is released once more than it was taken makes an exact counter wrong, unless
  // the backlog is empty.
  lemma SecondReleaseUndercounts(s: State, m: Model)
    requires Safety.Exact(s, m)
    ensures Safety.Exact(s.(db := s.db.(counters := ClampedDecr(s.db.counters, Waiting(m), 1))), m)
        <==> Val(s.db.counters, Waiting(m)) == 0
  {
    assert Safety.Occupants(s.(db := s.db.(counters := ClampedDecr(s.db.counters, Waiting(m), 1))), m) == Safety.Occupants(s, m);
  }

  // The expiry cron gives the user's token back to the counter of its own day. The counter of
  // the day on which the job was admitted goes down exactly when that is the same day and the
  // counter is positive; no other daily counter changes.
  lemma ExpiryRefundsItsOwnDay(c: Config, s: State, j: JobId, startedAt: int)
    requires Enabled(s, OfJob(j, Stale(ReleaseStale(startedAt))))
    ensures var s' := Apply(c, s, OfJob(j, Stale(ReleaseStale(startedAt))));
            var info := s.jobs[j].info;
            var k := UserRpd(info.user, info.mode, info.day);
            && (Val(s'.db.counters, k) < Val(s.db.counters, k) <==>
                  info.day == c.date(s.now) && Val(s.db.counters, k) > 0)
            && (info.day != c.date(s.now) ==> Val(s'.db.counters, k) == Val(s.db.counters, k))
  {}

  // ---- what a bad moment leads to ------------------------------------------------------

  // The run goes on with a step of the job.
  lemma GoOn(c: Config, ss: seq<State>, es: seq<Event>, j: JobId, e: JobStep) returns (ss': seq<State>, es': seq<Event>)
    requires Run(c, ss, es) && Enabled(ss[|es|], OfJob(j, e))
    ensures Run(c, ss', es') && es' == es + [OfJob(j, e)] && ss <= ss'
    ensures var s, s' := ss[|es|], ss'[|es'|];
            && s'.now == s.now && j in s'.jobs && ViewOf(s', j) == NextView(c, s, ViewOf(s, j), e)
            && s'.db.counters == Send(c, s.db.counters, s.now, CommandOf(c, s.now, ViewOf(s, j), e))
            && s'.jobs == s.jobs[j := NextView(c, s, ViewOf(s, j), e).job]
  {
    EventCounts.ExtendRun(c, ss, es, OfJob(j, e));
    ss', es' := ss + [Apply(c, ss[|es|], OfJob(j, e))], es + [OfJob(j, e)];
    JobInvariant.OwnView(c, ss[|es|], j, e);
  }

  // From the refund decision to the end of the failure handler: the failure is stored, and one
  // place is taken from the backlog that the handler believes the job to be in.
  ghost predicate FailedOver(s: State, j: JobId, s': State)
    requires j in s.jobs && s.jobs[j].pc.FailureDecided?
  {
    var model := s.jobs[j].pc.model;
    && j in s'.jobs && s'.jobs[j].pc.FailureDone? && s'.jobs[j].cron == s.jobs[j].cron
    && ResultOf(s'.db, j).data == ResultOf(s.db, j).data && ResultOf(s'.db, j).status == Some(Failed)
    && TakesPlace(s.db.counters, model, s'.db.counters)
  }

  // One place is taken from the backlog of `model` and none from another.
  ghost predicate TakesPlace(before: Counters, model: Option<Model>, after: Counters) {
    forall m: Model :: Val(before, Waiting(m)) >= 0 ==>
      Val(after, Waiting(m)) == Val(before, Waiting(m)) - Ind(model == Some(m) && Val(before, Waiting(m)) > 0)
  }

  lemma FailOver(c: Config, ss: seq<State>, es: seq<Event>, j: JobId, reason: string)
    returns (ss': seq<State>, es': seq<Event>)
    requires Run(c, ss, es) && j in ss[|es|].jobs && ss[|es|].jobs[j].pc.FailureDecided?
    ensures Run(c, ss', es') && ss <= ss' && es <= es'
    ensures FailedOver(ss[|es|], j, ss'[|es'|])
  {
    ss', es' := GoOn(c, ss, es, j, Fail(WriteFailedResult(reason)));
    ss', es' := GoOn(c, ss', es', j, Fail(WriteFailedMeta));
    ss', es' := Leave(c, ss', es', j);
  }

  lemma Leave(c: Config, ss: seq<State>, es: seq<Event>, j: JobId) returns (ss': seq<State>, es': seq<Event>)
    requires Run(c, ss, es) && j in ss[|es|].jobs && ss[|es|].jobs[j].pc.FailureMeta?
    ensures Run(c, ss', es') && ss <= ss' && es <= es'
    ensures var s, s' := ss[|es|], ss'[|es'|];
            && j in s'.jobs && s'.jobs[j].pc.FailureDone? && s'.jobs[j].cron == s.jobs[j].cron
            && ResultOf(s'.db, j) == ResultOf(s.db, j)
            && TakesPlace(s.db.counters, s.jobs[j].pc.model, s'.db.counters)
  {
    ss', es' := GoOn(c, ss, es, j, Fail(UnlockFailed));
    ss', es' := GoOn(c, ss', es', j, Fail(ReleaseFailed));
  }

  lemma RefundLeavesWaiting(c: Config, counters: Counters, now: int, cmd: Command, m: Model)
    requires cmd.Nothing? || cmd.ReturnTokens?
    ensures Val(Send(c, counters, now, cmd), Waiting(m)) == Val(counters, Waiting(m))
  {}

  // What the failure handler learns from the meta before it decides about the refund.
  ghost predicate Decided(s: State, j: JobId, s': State)
    requires j in s.jobs
  {
    && j in s'.jobs && s'.jobs[j].pc == FailureDecided(MetaOf(s.db, j).user, FailureModel(ViewOf(s, j)))
    && ResultOf(s'.db, j) == ResultOf(s.db, j) && s'.jobs[j].cron == s.jobs[j].cron
    && forall m: Model :: Val(s'.db.counters, Waiting(m)) == Val(s.db.counters, Waiting(m))
  }

  lemma Decide(c: Config, ss: seq<State>, es: seq<Event>, j: JobId) returns (ss': seq<State>, es': seq<Event>)
    requires Run(c, ss, es) && j in ss[|es|].jobs && ss[|es|].jobs[j].pc.FailurePending? && j in ss[|es|].db.metas
    ensures Run(c, ss', es') && ss <= ss' && es <= es'
    ensures Decided(ss[|es|], j, ss'[|es'|])
  {
    ss', es' := GoOn(c, ss, es, j, Fail(DecideRefund));
    var s := ss[|es|];
    forall m: Model
      ensures Val(Send(c, s.db.counters, s.now, CommandOf(c, s.now, ViewOf(s, j), Fail(DecideRefund))), Waiting(m))
           == Val(s.db.counters, Waiting(m))
    {
      RefundLeavesWaiting(c, s.db.counters, s.now, CommandOf(c, s.now, ViewOf(s, j), Fail(DecideRefund)), m);
    }
  }

  // The worker dies and BullMQ gives the job up.
  lemma Die(c: Config, ss: seq<State>, es: seq<Event>, j: JobId) returns (ss': seq<State>, es': seq<Event>)
    requires Run(c, ss, es) && j in ss[|es|].jobs && Enabled(ss[|es|], OfJob(j, Work(WorkerDies(false))))
    ensures Run(c, ss', es') && ss <= ss' && es <= es'
    ensures var s, s' := ss[|es|], ss'[|es'|];
            && j in s'.jobs && s'.jobs[j].pc.FailurePending? && s'.db.counters == s.db.counters
            && Lookup(s'.db.metas, j) == Lookup(s.db.metas, j) && ResultOf(s'.db, j) == ResultOf(s.db, j)
  {
    ss', es' := GoOn(c, ss, es, j, Work(WorkerDies(false)));
  }

  lemma ProcessedIsKnown(c: Config, ss: seq<State>, es: seq<Event>, j: JobId)
    requires Run(c, ss, es) && j in ss[|es|].jobs && Succeeding(ss[|es|].jobs[j].pc) && !Late(ss[|es|].jobs[j].cron)
    ensures !ss[|es|].jobs[j].pc.Done? ==> j in ss[|es|].db.metas
    ensures j in ss[|es|].db.metas ==> ss[|es|].db.metas[j].processed.Some?
  {
    JobInvariant.RunIsLocal(c, ss, es, |es|);
    assert JobInvariant.MetaOk(ViewOf(ss[|es|], j));
  }

  // A worker that dies after it has begun to write the success of `used`, at whatever point:
  // when BullMQ gives the job up, the failure is written over the success, a place is taken
  // from the backlog of `used`, and none from that of another model.
  lemma DeathAfterSuccess(c: Config, ss: seq<State>, es: seq<Event>, j: JobId, reason: string)
    returns (ss': seq<State>, es': seq<Event>)
    requires Run(c, ss, es) && j in ss[|es|].jobs && Succeeding(ss[|es|].jobs[j].pc) && !Late(ss[|es|].jobs[j].cron)
    requires ss[|es|].jobs[j].pc.Done? ==> j in ss[|es|].db.metas
    ensures Run(c, ss', es') && ss <= ss' && es <= es'
    ensures var s, s' := ss[|es|], ss'[|es'|];
            && j in s'.jobs && s'.jobs[j].pc.FailureDone?
            && ResultOf(s'.db, j).data == ResultOf(s.db, j).data && ResultOf(s'.db, j).status == Some(Failed)
            && j in s.db.metas && s.db.metas[j].processed.Some?
            && TakesPlace(s.db.counters, s.db.metas[j].processed, s'.db.counters)
  {
    ProcessedIsKnown(c, ss, es, j);
    ss', es' := Die(c, ss, es, j);
    ss', es' := Decide(c, ss', es', j);
    ss', es' := FailOver(c, ss', es', j, reason);
  }

  // A worker that dies after it has released the job's place, before BullMQ hears of the
  // success: the job is in the backlog again, and the counter does not know.
  lemma DeathAfterRelease(c: Config, ss: seq<State>, es: seq<Event>, j: JobId, retry: bool)
    returns (ss': seq<State>, es': seq<Event>)
    requires Run(c, ss, es) && j in ss[|es|].jobs && ss[|es|].jobs[j].pc.Done? && !Late(ss[|es|].jobs[j].cron)
    requires j in ss[|es|].db.metas
    ensures Run(c, ss', es') && es' == es + [OfJob(j, Work(WorkerDies(retry)))]
    ensures var s, s' := ss[|es|], ss'[|es'|];
            var m := s.jobs[j].info.model;
            && s'.db.counters == s.db.counters
            && j !in Safety.Occupants(s, m) && Safety.Occupants(s', m) == Safety.Occupants(s, m) + {j}
  {
    ss', es' := GoOn(c, ss, es, j, Work(WorkerDies(retry)));
    assert ss'[|es'|].jobs == ss[|es|].jobs[j := ss'[|es'|].jobs[j]];
  }

  // A cron that read the job while it was waiting removes it after it has failed or finished,
  // and goes on with whatever the flags say.
  lemma RemoveLate(c: Config, ss: seq<State>, es: seq<Event>, j: JobId) returns (ss': seq<State>, es': seq<Event>)
    requires Run(c, ss, es) && j in ss[|es|].jobs && ss[|es|].jobs[j].cron.Read? && LeftQueue(ss[|es|].jobs[j].pc)
    ensures Run(c, ss', es') && ss <= ss' && es <= es'
    ensures var s, s' := ss[|es|], ss'[|es'|];
            && j in s'.jobs && s'.jobs[j].cron.LateRefunded?
            && s'.jobs[j].pc == s.jobs[j].pc && s'.jobs[j].hist.writes == s.jobs[j].hist.writes
            && s'.jobs[j].info == s.jobs[j].info && ResultOf(s'.db, j) == ResultOf(s.db, j)
            && Val(s'.db.counters, Waiting(s.jobs[j].info.model)) == Val(s.db.counters, Waiting(s.jobs[j].info.model))
  {
    ss', es' := GoOn(c, ss, es, j, Stale(RemoveStale));
    var s := ss'[|es'|];
    var e := Stale(RefundStale(s.now));
    ss', es' := GoOn(c, ss', es', j, e);
    RefundLeavesWaiting(c, s.db.counters, s.now, CommandOf(c, s.now, ViewOf(s, j), e), s.jobs[j].info.model);
  }

  // The expiry is written over the result, whatever that was, and a place is taken from the
  // backlog, although the jobs in it stay the same: a finished job had none, and a failing one
  // will release its own.
  lemma ExpiryAfterTheEnd(c: Config, ss: seq<State>, es: seq<Event>, j: JobId)
    returns (ss': seq<State>, es': seq<Event>)
    requires Run(c, ss, es) && j in ss[|es|].jobs && ss[|es|].jobs[j].cron.Read? && LeftQueue(ss[|es|].jobs[j].pc)
    ensures Run(c, ss', es') && ss <= ss' && es <= es'
    ensures var s, s' := ss[|es|], ss'[|es'|];
            var m := s.jobs[j].info.model;
            && j in s'.jobs && s'.jobs[j].pc == s.jobs[j].pc && s'.jobs[j].hist.writes == s.jobs[j].hist.writes + 1
            && ResultOf(s'.db, j).data == ResultOf(s.db, j).data && ResultOf(s'.db, j).status == Some(Failed)
            && (Val(s.db.counters, Waiting(m)) > 0 ==>
                  Val(s'.db.counters, Waiting(m)) == Val(s.db.counters, Waiting(m)) - 1)
  {
    ss', es' := RemoveLate(c, ss, es, j);
    ss', es' := GoOn(c, ss', es', j, Stale(ReleaseStale(ss'[|es'|].now)));
  }

  // The listener looks at the failure of an attempt after the expiry cron has removed the job:
  // it fails the job for good, beside the expiry, and releases a place once more.
  lemma ListenerMissesJob(c: Config, ss: seq<State>, es: seq<Event>, j: JobId, reason: string)
    returns (ss': seq<State>, es': seq<Event>)
    requires Run(c, ss, es) && Enabled(ss[|es|], OfJob(j, Fail(FindMissing)))
    ensures Run(c, ss', es') && ss <= ss' && es <= es'
    ensures var s, s' := ss[|es|], ss'[|es'|];
            && j in s'.jobs && s'.jobs[j].pc.FailureDone? && Late(s'.jobs[j].cron)
            && ResultOf(s'.db, j).status == Some(Failed)
            && TakesPlace(s.db.counters, FailureModel(ViewOf(s, j)), s'.db.counters)
  {
    ss', es' := GoOn(c, ss, es, j, Fail(FindMissing));
    ss', es' := Decide(c, ss', es', j);
    ss', es' := FailOver(c, ss', es', j, reason);
  }

  // ---- an answered job that is refunded ------------------------------------------------

  // The job waits or is worked on; its meta names user and model, and `charged` says whether
  // its charge has been noted.
  ghost predicate Stands(s: State, j: JobId, pc: Pc, charged: bool) {
    && j in s.jobs && s.jobs[j].pc == pc && j in s.db.metas
    && s.db.metas[j].user.Some? && s.db.metas[j].processed.Some? && s.db.metas[j].tokensConsumed == charged
  }

  ghost predicate Fresh(s: State, m: Model) {
    Val(s.db.counters, Waiting(m)) == 0 && Val(s.db.counters, ModelRpm(m)) == 0 && Val(s.db.counters, ModelRpd(m)) == 0
  }

  lemma Admit(c: Config, u: User, mode: Mode, m: Model, now: int) returns (ss: seq<State>, es: seq<Event>)
    ensures Run(c, ss, es) && Fresh(ss[|es|], m) && 0 !in ss[|es|].db.metas
    ensures 0 in ss[|es|].jobs && ss[|es|].jobs[0].pc.Selected? && ss[|es|].jobs[0].info.model == m
  {
    var s := State(EMPTY_DB, now, map[], map[], map[]);
    var e := TryAcquire(0, u, mode, m, m, now);
    EventCounts.ExtendRun(c, [s], [], e);
    ss, es := [s] + [Apply(c, s, e)], [] + [e];
  }

  lemma Submit(c: Config, ss: seq<State>, es: seq<Event>, m: Model) returns (ss': seq<State>, es': seq<Event>)
    requires Run(c, ss, es) && Fresh(ss[|es|], m) && 0 !in ss[|es|].db.metas
    requires 0 in ss[|es|].jobs && ss[|es|].jobs[0].pc.Selected? && ss[|es|].jobs[0].info.model == m
    ensures Run(c, ss', es') && Stands(ss'[|es'|], 0, WaitingInQueue, false)
    ensures CodeFor(c, ss'[|es'|], ss'[|es'|].jobs[0]) == OK
  {
    ss', es' := GoOn(c, ss, es, 0, Request(IncrWaiting));
    ss', es' := GoOn(c, ss', es', 0, Request(CompareAndDecr));
    ss', es' := GoOn(c, ss', es', 0, Request(Enqueue));
  }

  lemma StartAttempt(c: Config, ss: seq<State>, es: seq<Event>, j: JobId, charged: bool) returns (ss': seq<State>, es': seq<Event>)
    requires Run(c, ss, es) && Stands(ss[|es|], j, WaitingInQueue, charged)
    ensures Run(c, ss', es') && es <= es' && Stands(ss'[|es'|], j, Marked(charged), charged)
    ensures ss'[|es'|].db.counters == ss[|es|].db.counters && ss'[|es'|].now == ss[|es|].now
    ensures ss'[|es'|].jobs[j].info == ss[|es|].jobs[j].info
  {
    ss', es' := GoOn(c, ss, es, j, Work(Fetch));
    ss', es' := GoOn(c, ss', es', j, Work(MarkInProgress));
  }

  // An attempt up to the call of the provider.
  lemma CallAgain(c: Config, ss: seq<State>, es: seq<Event>, j: JobId, charged: bool) returns (ss': seq<State>, es': seq<Event>)
    requires Run(c, ss, es) && Stands(ss[|es|], j, WaitingInQueue, charged)
    requires charged || CodeFor(c, ss[|es|], ss[|es|].jobs[j]) == OK
    ensures Run(c, ss', es') && es <= es' && Stands(ss'[|es'|], j, Calling, true)
    ensures !ss'[|es'|].db.metas[j].providerCompleted
  {
    ss', es' := StartAttempt(c, ss, es, j, charged);
    ss', es' := GoOn(c, ss', es', j, Work(Consume));
    if !charged {
      ss', es' := GoOn(c, ss', es', j, Work(FlagConsumed));
    }
    ss', es' := GoOn(c, ss', es', j, Work(CallProvider));
  }

  lemma AnswerAndDie(c: Config, ss: seq<State>, es: seq<Event>, j: JobId) returns (ss': seq<State>, es': seq<Event>)
    requires Run(c, ss, es) && Stands(ss[|es|], j, Calling, true)
    ensures Run(c, ss', es') && Stands(ss'[|es'|], j, WaitingInQueue, true)
    ensures es' == es + [OfJob(j, Work(ProviderAnswers)), OfJob(j, Work(WorkerDies(true)))]
  {
    ss', es' := GoOn(c, ss, es, j, Work(ProviderAnswers));
    ss', es' := GoOn(c, ss', es', j, Work(WorkerDies(true)));
  }

  lemma FailAndRefund(c: Config, ss: seq<State>, es: seq<Event>, j: JobId) returns (ss': seq<State>, es': seq<Event>)
    requires Run(c, ss, es) && Stands(ss[|es|], j, Calling, true) && !ss[|es|].db.metas[j].providerCompleted
    ensures Run(c, ss', es') && es < es' && Traces.RefundOf(c, j)(ss'[|es'| - 1], es'[|es'| - 1])
  {
    ss', es' := GoOn(c, ss, es, j, Work(ProviderFails(false)));
    ss', es' := GoOn(c, ss', es', j, Fail(DecideRefund));
  }

  // Whatever the limits are: the provider answers, the worker dies before it can say so, the
  // next attempt fails, and the job is refunded.
  lemma AnsweredJobIsRefunded(c: Config, u: User, mode: Mode, m: Model, now: int)
    returns (ss: seq<State>, es: seq<Event>, answer: nat)
    ensures Run(c, ss, es) && answer < |es| - 1
    ensures es[answer] == OfJob(0, Work(ProviderAnswers)) && Traces.RefundOf(c, 0)(ss[|es| - 1], es[|es| - 1])
  {
    ss, es := Admit(c, u, mode, m, now);
    ss, es := Submit(c, ss, es, m);
    ss, es := CallAgain(c, ss, es, 0, false);
    answer := |es|;
    ss, es := AnswerAndDie(c, ss, es, 0);
    ss, es := CallAgain(c, ss, es, 0, true);
    ss, es := FailAndRefund(c, ss, es, 0);
  }
}
