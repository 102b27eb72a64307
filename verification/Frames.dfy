/** What each kind of step does, and which steps can touch the queue, the job rows and the outbox rows at all. */
module Frames {
  import opened Basics
  import opened Tables
  import opened Pipeline

  predicate TouchesJobs(a: Action) {
    a.Create? || a.ClaimJob? || a.Renew? || a.Complete? || a.Fail?
  }

  predicate Dispatches(a: Action) {
    a.ClaimBatch? || a.Publish? || a.MarkSent? || a.MarkUnsent? || a.EndDispatch?
  }

  predicate Consumes(a: Action) {
    a.Receive? || a.ClaimJob? || a.LookUp? || a.Delete? || a.Put? || a.Complete?
  }

  /** The steps that touch job rows, each by its transaction. */
  lemma JobStepIs(c: Config, s: State, now: Time, a: Action)
    requires Enabled(c, s, now, a) && TouchesJobs(a)
    ensures var t := Next(c, s, now, a);
            && (a.Create? ==>
                  && a.job !in s.log.issued && a.event !in s.log.issued
                  && t.db == CreateJob(s.db, a.job, a.event, a.jobType, a.payload, a.correlation, now))
            && (a.ClaimJob? ==>
                  && a.w in s.workers && s.workers[a.w].Received? && a.token !in s.log.issued
                  && t == NextClaimJob(c, s, now, a.w, a.token))
            && (a.Renew? ==> a.beat in s.beats && t == NextRenew(s, now, a.beat))
            && (a.Complete? ==> a.w in s.workers && s.workers[a.w].Stored? && t == NextComplete(s, now, a.w, a.outcome))
            && (a.Fail? ==>
                  && a.w in s.workers && s.workers[a.w].Failing?
                  && t.db == FailJob(s.db, s.workers[a.w].claimed.job, s.workers[a.w].claimed.token, a.error, now))
  {
    hide IsBatch, CanClaim, HoldsJob, HoldsRow, CreateJob, FailJob;
    hide NextClaimBatch, NextPublish, NextMarkSent, NextReceive, NextClaimJob, NextLookUp, NextDelete, NextPut, NextComplete;
    hide NextLeave, NextRenew, NextExtend, Die;
  }

  /** The consumer's steps, each by what it does. */
  lemma ConsumeStepIs(c: Config, s: State, now: Time, a: Action)
    requires Enabled(c, s, now, a) && Consumes(a)
    ensures a.w in s.workers
    ensures var t, worker := Next(c, s, now, a), s.workers[a.w];
            && (a.Receive? ==> worker.ReadyToReceive? && a.msg in s.queue && t == NextReceive(c, s, now, a.w, a.msg, a.replied))
            && (a.ClaimJob? ==> worker.Received? && t == NextClaimJob(c, s, now, a.w, a.token))
            && (a.LookUp? ==> worker.TurnedAway? && t == NextLookUp(s, a.w))
            && (a.Delete? ==>
                  && (worker.DeletingDuplicate? || worker.Deleting?) && HandleOf(worker).msg in s.queue
                  && (worker.DeletingDuplicate? ==> a.acked) && t == NextDelete(s, a.w, a.removed, a.acked))
            && (a.Put? ==> worker.Working? && t == NextPut(s, a.w, a.report, a.outcome))
            && (a.Complete? ==> worker.Stored? && t == NextComplete(s, now, a.w, a.outcome))
  {
    hide IsBatch, CanClaim, HoldsJob, HoldsRow, CreateJob, FailJob;
    hide NextClaimBatch, NextPublish, NextMarkSent, NextReceive, NextClaimJob, NextLookUp, NextDelete, NextPut, NextComplete;
    hide NextLeave, NextRenew, NextExtend, Die;
  }

  /** The dispatcher's steps, each by what it does. */
  lemma DispatchStepIs(c: Config, s: State, now: Time, a: Action)
    requires Enabled(c, s, now, a) && Dispatches(a)
    ensures a.w in s.workers
    ensures var t, worker := Next(c, s, now, a), s.workers[a.w];
            && (a.ClaimBatch? ==> a.batch <= s.db.outbox.Keys && t == NextClaimBatch(s, now, a.w, a.token, a.batch))
            && (a.Publish? ==>
                  && worker.Dispatching? && a.event in worker.todo && a.event in s.db.outbox && a.msg !in s.queue
                  && t == NextPublish(s, now, a.w, a.event, a.msg, a.outcome))
            && (a.MarkSent? ==> worker.Sent? && t == NextMarkSent(s, now, a.w, a.outcome))
            && (a.MarkUnsent? ==> worker.Unsent? && t.db == MarkFailed(s.db, worker.event, worker.batch, a.error, now))
            && (a.EndDispatch? ==> t.db == s.db)
  {
    hide CanClaim, HoldsJob, HoldsRow, RowClaimable, CreateJob, FailJob, MarkFailed;
    hide NextClaimBatch, NextPublish, NextMarkSent, NextReceive, NextClaimJob, NextLookUp, NextDelete, NextPut, NextComplete;
    hide NextLeave, NextRenew, NextExtend, Die;
  }

  lemma RestKeepTables(c: Config, s: State, now: Time, a: Action)
    requires Enabled(c, s, now, a) && !TouchesJobs(a) && !Consumes(a) && !Dispatches(a)
    ensures Next(c, s, now, a).db == s.db
  {
    hide IsBatch, CanClaim, HoldsJob, HoldsRow, CreateJob, FailJob, MarkFailed;
    hide NextClaimBatch, NextPublish, NextMarkSent, NextReceive, NextClaimJob, NextLookUp, NextDelete, NextPut, NextComplete, NextRenew;
  }

  lemma ConsumersKeepTables(c: Config, s: State, now: Time, a: Action)
    requires Enabled(c, s, now, a) && Consumes(a) && !TouchesJobs(a)
    ensures Next(c, s, now, a).db == s.db
  {
    hide Next, Enabled, SupportedSchema, NextClaimJob, NextComplete;
    ConsumeStepIs(c, s, now, a);
  }

  lemma DispatchersKeepJobs(c: Config, s: State, now: Time, a: Action)
    requires Enabled(c, s, now, a) && Dispatches(a)
    ensures Next(c, s, now, a).db.jobs == s.db.jobs && Next(c, s, now, a).db.results == s.db.results
  {
    hide Next, Enabled, SupportedSchema, HoldsRow;
    DispatchStepIs(c, s, now, a);
  }

  lemma JobsStill(c: Config, s: State, now: Time, a: Action)
    requires Enabled(c, s, now, a) && !TouchesJobs(a)
    ensures Next(c, s, now, a).db.jobs == s.db.jobs && Next(c, s, now, a).db.results == s.db.results
  {
    hide Next, Enabled;
    if Consumes(a) {
      ConsumersKeepTables(c, s, now, a);
    } else if Dispatches(a) {
      DispatchersKeepJobs(c, s, now, a);
    } else {
      RestKeepTables(c, s, now, a);
    }
  }

  predicate TouchesOutbox(a: Action) {
    a.Create? || a.ClaimBatch? || a.MarkSent? || a.MarkUnsent?
  }

  lemma JobStepsKeepOutbox(c: Config, s: State, now: Time, a: Action)
    requires Enabled(c, s, now, a) && TouchesJobs(a) && !a.Create?
    ensures Next(c, s, now, a).db.outbox == s.db.outbox
  {
    hide Next, Enabled, JobClaimable, HoldsJob;
    JobStepIs(c, s, now, a);
  }

  lemma OutboxStill(c: Config, s: State, now: Time, a: Action)
    requires Enabled(c, s, now, a) && !TouchesOutbox(a)
    ensures Next(c, s, now, a).db.outbox == s.db.outbox
  {
    hide Next, Enabled;
    if TouchesJobs(a) {
      JobStepsKeepOutbox(c, s, now, a);
    } else if Consumes(a) {
      ConsumersKeepTables(c, s, now, a);
    } else if Dispatches(a) {
      DispatchStepIs(c, s, now, a);
    } else {
      RestKeepTables(c, s, now, a);
    }
  }

  predicate TouchesQueue(a: Action) {
    a.Publish? || a.Receive? || a.Redrive? || a.Delete? || a.Extend?
  }

  lemma QueueStill(c: Config, s: State, now: Time, a: Action)
    requires Enabled(c, s, now, a) && !TouchesQueue(a)
    ensures Next(c, s, now, a).queue == s.queue
  {
    hide IsBatch, CanClaim, HoldsJob, HoldsRow, ClaimEvents, MarkPublished, MarkFailed, MarkProcessing, CompleteJob, FailJob;
    hide NextPublish, NextReceive, NextDelete, NextExtend;
  }
}
