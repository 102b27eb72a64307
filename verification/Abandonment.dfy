/** The converse of recoverability: a job that nothing carries is never completed, so the condition is exact. */
module Abandonment {
  import opened Basics
  import opened Tables
  import opened Pipeline
  import opened Frames
  import opened Invariant
  import opened Preservation
  import opened Safety
  import opened Recovery

  ghost predicate RowsDone(s: State, j: Id) {
    forall e :: !Unpublished(s, e, j)
  }

  ghost predicate MessagesDone(c: Config, s: State, j: Id) {
    forall m :: !Deliverable(c, s, m, j)
  }

  ghost predicate NobodySends(s: State, j: Id) {
    forall w, e :: !WillSend(s, w, e, j)
  }

  ghost predicate NobodyClaims(s: State, j: Id) {
    forall w :: !WillClaim(s, w, j)
  }

  ghost predicate NobodyCompletes(s: State, j: Id) {
    forall w :: !WillComplete(s, w, j)
  }

  /** Nothing carries the job, and it is not completed. */
  ghost predicate Abandoned(c: Config, s: State, j: Id) {
    && j in s.db.jobs && !IsCompleted(s, j)
    && RowsDone(s, j) && MessagesDone(c, s, j) && NobodySends(s, j) && NobodyClaims(s, j) && NobodyCompletes(s, j)
  }

  lemma NotCarriedIsAbandoned(c: Config, s: State, j: Id)
    requires j in s.db.jobs && !IsCompleted(s, j)
    ensures Abandoned(c, s, j) <==> !Carried(c, s, j)
  {
    hide Unpublished, Deliverable, WillSend, WillClaim, WillComplete;
  }

  /* ---- each part stays so ---- */

  lemma RowsStayDone(c: Config, s: State, now: Time, a: Action, t: State, j: Id)
    requires Enabled(c, s, now, a) && t == Next(c, s, now, a) && OutboxGrows(s, t)
    requires RowsDone(s, j) && (a.Create? ==> a.job != j)
    ensures RowsDone(t, j)
  {
    hide IsBatch, CanClaim, SupportedSchema, HoldsJob;
    if !TouchesOutbox(a) {
      hide Next, Enabled, OutboxGrows;
      OutboxStill(c, s, now, a);
    }
    forall e ensures !Unpublished(t, e, j) {
      assert !Unpublished(s, e, j);
      assert e in t.db.outbox && e !in s.db.outbox ==> a.Create? by { hide OutboxGrows; }
    }
  }

  /** Messages only come from a dispatcher's send, and none returns to the main queue. */
  lemma QueueShift(c: Config, s: State, now: Time, a: Action, t: State, m: Id)
    requires Enabled(c, s, now, a) && t == Next(c, s, now, a) && m in t.queue
    ensures m !in s.queue ==> a.Publish? && t.queue[m].body.job == s.db.outbox[a.event].payload.job
    ensures m in s.queue ==>
              && t.queue[m].body == s.queue[m].body && s.queue[m].receives <= t.queue[m].receives
              && (t.queue[m].place.MainQueue? ==> s.queue[m].place.MainQueue?)
  {
    if a.Receive? || a.Delete? {
      hide Next, Enabled, SupportedSchema;
      ConsumeStepIs(c, s, now, a);
    } else if TouchesQueue(a) {
      hide IsBatch, NextClaimBatch, NextMarkSent, NextClaimJob, NextLookUp, NextPut, NextComplete, NextLeave, NextRenew, Die;
      hide NextReceive, NextDelete;
    } else {
      hide Next, Enabled;
      QueueStill(c, s, now, a);
    }
  }

  lemma MessagesStayDone(c: Config, s: State, now: Time, a: Action, t: State, j: Id)
    requires Enabled(c, s, now, a) && t == Next(c, s, now, a)
    requires MessagesDone(c, s, j) && NobodySends(s, j)
    ensures MessagesDone(c, t, j)
  {
    forall m ensures !Deliverable(c, t, m, j) {
      if m in t.queue {
        hide Next, NobodySends;
        QueueShift(c, s, now, a, t, m);
        assert !Deliverable(c, s, m, j);
        if m !in s.queue {
          assert !WillSend(s, a.w, a.event, j) by { Nobody(s, a.w, a.event, j); }
        }
      }
    }
  }

  lemma Nobody(s: State, w: Id, e: Id, j: Id)
    requires NobodySends(s, j)
    ensures !WillSend(s, w, e, j)
  {
  }

  function Mover(a: Action): set<Id> {
    match a
    case Create(_, _, _, _, _) => {}
    case Redrive(_) => {}
    case Wake(_) => {}
    case Renew(_) => {}
    case Extend(_, _) => {}
    case EndBeat(_) => {}
    case _ => {a.w}
  }

  ghost predicate WorkersElsewhere(s: State, t: State, mover: set<Id>) {
    forall w :: w !in mover ==>
                  && (w in t.workers <==> w in s.workers)
                  && (w in s.workers && w in t.workers ==> t.workers[w] == s.workers[w])
  }

  lemma DispatchElsewhere(c: Config, s: State, now: Time, a: Action)
    requires Enabled(c, s, now, a) && Dispatches(a)
    ensures WorkersElsewhere(s, Next(c, s, now, a), Mover(a))
  {
    hide IsBatch, CanClaim, HoldsJob, HoldsRow, ClaimEvents, MarkPublished, MarkFailed, MarkProcessing, CompleteJob, FailJob;
    hide NextReceive, NextClaimJob, NextLookUp, NextDelete, NextPut, NextComplete, NextLeave, NextRenew, NextExtend, Die;
  }

  lemma ConsumeElsewhere(c: Config, s: State, now: Time, a: Action)
    requires Enabled(c, s, now, a) && Consumes(a)
    ensures WorkersElsewhere(s, Next(c, s, now, a), Mover(a))
  {
    hide Next, Enabled, CanClaim, HoldsJob, MarkProcessing, CompleteJob;
    ConsumeStepIs(c, s, now, a);
    match a
    case Receive(_, _, _, _) =>
    case ClaimJob(_, _) =>
    case LookUp(_) =>
    case Delete(_, _, _) =>
    case Put(_, _, _) =>
    case Complete(_, _) =>
  }

  lemma RestElsewhere(c: Config, s: State, now: Time, a: Action)
    requires Enabled(c, s, now, a) && !Dispatches(a) && !Consumes(a)
    ensures WorkersElsewhere(s, Next(c, s, now, a), Mover(a))
  {
    hide IsBatch, CanClaim, HoldsJob, HoldsRow, ClaimEvents, MarkPublished, MarkFailed, MarkProcessing, CompleteJob, FailJob;
    hide NextClaimBatch, NextPublish, NextMarkSent, NextReceive, NextClaimJob, NextLookUp, NextDelete, NextPut, NextComplete;
  }

  /** A step moves no worker but its own. */
  lemma OnlyMover(c: Config, s: State, now: Time, a: Action, t: State, w: Id)
    requires Enabled(c, s, now, a) && t == Next(c, s, now, a) && w !in Mover(a)
    ensures w in t.workers <==> w in s.workers
    ensures w in t.workers ==> t.workers[w] == s.workers[w]
  {
    hide Enabled, Next;
    if Dispatches(a) {
      DispatchElsewhere(c, s, now, a);
    } else if Consumes(a) {
      ConsumeElsewhere(c, s, now, a);
    } else {
      RestElsewhere(c, s, now, a);
    }
  }

  predicate WorkerShift(s: State, a: Action, before: Worker, after: Worker) {
    && Unfinished(after).Keys <= (if a.ClaimBatch? then a.batch else Unfinished(before).Keys)
    && (after.Received? ==> a.Receive? && a.msg in s.queue && after.job == s.queue[a.msg].body.job)
    && (after.Working? ==> a.ClaimJob? && before.Received? && after.claimed.job == before.job)
    && (after.Stored? ==> before.Working? && after.claimed == before.claimed)
  }

  lemma DispatcherShift(c: Config, s: State, now: Time, a: Action, t: State, w: Id)
    requires Enabled(c, s, now, a) && t == Next(c, s, now, a) && w in t.workers && w in Mover(a) && Dispatches(a)
    ensures w in s.workers && WorkerShift(s, a, s.workers[w], t.workers[w])
  {
    hide IsBatch, CanClaim, HoldsJob, HoldsRow, ClaimEvents, MarkPublished, MarkFailed, MarkProcessing, CompleteJob, FailJob;
    hide NextReceive, NextClaimJob, NextLookUp, NextDelete, NextPut, NextComplete, NextLeave, NextRenew, NextExtend, Die;
  }

  lemma ShiftByReceive(c: Config, s: State, now: Time, a: Action)
    requires a.Receive? && a.w in s.workers && s.workers[a.w].ReadyToReceive? && a.msg in s.queue
    ensures var t := NextReceive(c, s, now, a.w, a.msg, a.replied);
            a.w in t.workers && WorkerShift(s, a, s.workers[a.w], t.workers[a.w])
  {
    hide SupportedSchema;
  }

  lemma ShiftByClaim(c: Config, s: State, now: Time, a: Action)
    requires a.ClaimJob? && a.w in s.workers && s.workers[a.w].Received?
    ensures var t := NextClaimJob(c, s, now, a.w, a.token);
            a.w in t.workers && WorkerShift(s, a, s.workers[a.w], t.workers[a.w])
  {
    hide JobClaimable;
  }

  lemma ShiftByLookUp(s: State, a: Action)
    requires a.LookUp? && a.w in s.workers && s.workers[a.w].TurnedAway?
    ensures var t := NextLookUp(s, a.w); a.w in t.workers ==> WorkerShift(s, a, s.workers[a.w], t.workers[a.w])
  {
  }

  lemma ShiftByDelete(s: State, a: Action)
    requires a.Delete? && a.w in s.workers && (s.workers[a.w].DeletingDuplicate? || s.workers[a.w].Deleting?)
    requires HandleOf(s.workers[a.w]).msg in s.queue && (s.workers[a.w].DeletingDuplicate? ==> a.acked)
    ensures var t := NextDelete(s, a.w, a.removed, a.acked);
            a.w in t.workers && WorkerShift(s, a, s.workers[a.w], t.workers[a.w])
  {
  }

  lemma ShiftByPut(s: State, a: Action)
    requires a.Put? && a.w in s.workers && s.workers[a.w].Working?
    ensures var t := NextPut(s, a.w, a.report, a.outcome);
            a.w in t.workers && WorkerShift(s, a, s.workers[a.w], t.workers[a.w])
  {
  }

  lemma ShiftByComplete(s: State, now: Time, a: Action)
    requires a.Complete? && a.w in s.workers && s.workers[a.w].Stored?
    ensures var t := NextComplete(s, now, a.w, a.outcome);
            a.w in t.workers && WorkerShift(s, a, s.workers[a.w], t.workers[a.w])
  {
    hide HoldsJob, CompleteJob;
  }

  lemma ConsumerShift(c: Config, s: State, now: Time, a: Action, t: State, w: Id)
    requires Enabled(c, s, now, a) && t == Next(c, s, now, a) && w in t.workers && w in Mover(a) && Consumes(a)
    ensures w in s.workers && WorkerShift(s, a, s.workers[w], t.workers[w])
  {
    hide Next, Enabled, WorkerShift, NextReceive, NextClaimJob, NextLookUp, NextDelete, NextPut, NextComplete;
    ConsumeStepIs(c, s, now, a);
    match a
    case Receive(_, _, _, _) => ShiftByReceive(c, s, now, a);
    case ClaimJob(_, _) => ShiftByClaim(c, s, now, a);
    case LookUp(_) => ShiftByLookUp(s, a);
    case Delete(_, _, _) => ShiftByDelete(s, a);
    case Put(_, _, _) => ShiftByPut(s, a);
    case Complete(_, _) => ShiftByComplete(s, now, a);
  }

  lemma RestShift(c: Config, s: State, now: Time, a: Action, t: State, w: Id)
    requires Enabled(c, s, now, a) && t == Next(c, s, now, a) && w in t.workers && w in Mover(a)
    requires !Dispatches(a) && !Consumes(a)
    ensures if a.Start? then t.workers[w].LoopTop? else w in s.workers
    ensures !a.Start? ==> WorkerShift(s, a, s.workers[w], t.workers[w])
  {
    hide IsBatch, CanClaim, HoldsJob, HoldsRow, ClaimEvents, MarkPublished, MarkFailed, MarkProcessing, CompleteJob, FailJob;
    hide NextClaimBatch, NextPublish, NextMarkSent, NextReceive, NextClaimJob, NextDelete, NextPut, NextComplete, NextRenew, NextExtend;
  }

  /** What the worker that moved can have become. */
  lemma MoverShift(c: Config, s: State, now: Time, a: Action, t: State, w: Id)
    requires Enabled(c, s, now, a) && t == Next(c, s, now, a) && w in t.workers && w in Mover(a)
    ensures if a.Start? then t.workers[w].LoopTop? else w in s.workers
    ensures !a.Start? ==> WorkerShift(s, a, s.workers[w], t.workers[w])
  {
    hide Enabled, Next, WorkerShift;
    if Dispatches(a) {
      DispatcherShift(c, s, now, a, t, w);
    } else if Consumes(a) {
      ConsumerShift(c, s, now, a, t, w);
    } else {
      RestShift(c, s, now, a, t, w);
    }
  }

  /** Rows a dispatcher still has to send are in the table. */
  lemma TodoInTable(s: State, w: Id, e: Id)
    requires WorkersOk(s) && GrantsOk(s) && w in s.workers && e in Unfinished(s.workers[w])
    ensures e in s.db.outbox
  {
    hide NotYetClaimed, NotYetStored, NotSent;
    assert WorkerOk(s, w);
    var todo := s.workers[w].todo;
    assert MayStillSend(s, w, e, todo[e]);
    assert GrantOk(s, Grant(e, todo[e]));
  }

  lemma NewBatchIsOthers(c: Config, s: State, now: Time, a: Action, e: Id, j: Id)
    requires a.ClaimBatch? && Enabled(c, s, now, a) && RowsOk(s.db) && RowsDone(s, j) && e in a.batch
    ensures e in s.db.outbox && s.db.outbox[e].payload.job != j
  {
    BatchIsClaimable(s.db, a.batch, a.skipped, c.limit, now, c.outboxLease);
    assert !Unpublished(s, e, j);
  }

  lemma StillNotSending(c: Config, s: State, now: Time, a: Action, t: State, j: Id, w: Id, e: Id)
    requires Enabled(c, s, now, a) && t == Next(c, s, now, a) && OutboxGrows(s, t)
    requires RowsOk(s.db) && RowsDone(s, j) && NobodySends(s, j) && GrantsOk(s) && WorkersOk(s)
    requires w in t.workers && e in Unfinished(t.workers[w])
    ensures !WillSend(t, w, e, j)
  {
    hide Next, Enabled, RowsDone, NobodySends, RowsOk, GrantsOk, WorkersOk, Unfinished;
    if a.ClaimBatch? && w == a.w {
      MoverShift(c, s, now, a, t, w);
      NewBatchIsOthers(c, s, now, a, e, j);
    } else {
      if w in Mover(a) {
        MoverShift(c, s, now, a, t, w);
        if t.workers[w].LoopTop? {
          NothingUnfinished(t.workers[w]);
        }
      } else {
        OnlyMover(c, s, now, a, t, w);
      }
      TodoInTable(s, w, e);
      Nobody(s, w, e, j);
    }
  }

  lemma NothingUnfinished(worker: Worker)
    requires worker.LoopTop?
    ensures Unfinished(worker) == map[]
  {
  }

  lemma NobodyStillSends(c: Config, s: State, now: Time, a: Action, t: State, j: Id)
    requires Enabled(c, s, now, a) && t == Next(c, s, now, a) && OutboxGrows(s, t)
    requires RowsOk(s.db) && RowsDone(s, j) && NobodySends(s, j) && GrantsOk(s) && WorkersOk(s)
    ensures NobodySends(t, j)
  {
    hide Next, Enabled, RowsDone, RowsOk, GrantsOk, WorkersOk, OutboxGrows, Unfinished;
    forall w, e ensures !WillSend(t, w, e, j) {
      if w in t.workers && e in Unfinished(t.workers[w]) {
        StillNotSending(c, s, now, a, t, j, w, e);
      }
    }
  }

  lemma NobodyStillClaims(c: Config, s: State, now: Time, a: Action, t: State, j: Id)
    requires Enabled(c, s, now, a) && t == Next(c, s, now, a)
    requires MessagesDone(c, s, j) && NobodyClaims(s, j)
    ensures NobodyClaims(t, j)
  {
    forall w ensures !WillClaim(t, w, j) {
      hide Next;
      if w in t.workers && t.workers[w].Received? {
        if w in Mover(a) {
          hide IsBatch;
          MoverShift(c, s, now, a, t, w);
          assert !Deliverable(c, s, a.msg, j);
        } else {
          hide Enabled;
          OnlyMover(c, s, now, a, t, w);
          assert !WillClaim(s, w, j);
        }
      }
    }
  }

  lemma OtherJobTouched(c: Config, s: State, now: Time, a: Action, j: Id)
    requires Enabled(c, s, now, a) && j in s.db.jobs
    requires (a.Create? && a.job != j) || (a.ClaimJob? && s.workers[a.w].job != j)
    ensures j in Next(c, s, now, a).db.jobs && Next(c, s, now, a).db.jobs[j] == s.db.jobs[j]
  {
    hide IsBatch, NewBody;
  }

  lemma HolderRow(before: Db, after: Db, j: Id, token: Id)
    requires j in before.jobs && j in after.jobs && after.jobs[j] == before.jobs[j]
    ensures HoldsJob(after, j, token) ==> HoldsJob(before, j, token)
  {
  }

  lemma ByRenew(c: Config, s: State, now: Time, b: Id, j: Id, token: Id)
    requires b in s.beats && j in s.db.jobs
    ensures var t := NextRenew(s, now, b);
            (HoldsJob(t.db, j, token) ==> HoldsJob(s.db, j, token)) && (IsCompleted(t, j) ==> IsCompleted(s, j))
  {
  }

  lemma ByFail(s: State, now: Time, claimed: ClaimedJob, error: string, j: Id, token: Id)
    requires j in s.db.jobs
    ensures var t := s.(db := FailJob(s.db, claimed.job, claimed.token, error, now));
            (HoldsJob(t.db, j, token) ==> HoldsJob(s.db, j, token)) && (IsCompleted(t, j) ==> IsCompleted(s, j))
  {
  }

  lemma ByComplete(s: State, now: Time, a: Action, j: Id, token: Id)
    requires a.Complete? && a.w in s.workers && s.workers[a.w].Stored? && j in s.db.jobs
    ensures var t := NextComplete(s, now, a.w, a.outcome);
            (HoldsJob(t.db, j, token) ==> HoldsJob(s.db, j, token)) &&
            (IsCompleted(t, j) && !IsCompleted(s, j) ==> Commits(s, a) && s.workers[a.w].claimed.job == j)
  {
  }

  /** Only a claim of the job makes a token its holder, and only a committed completion completes it. */
  lemma HolderShift(c: Config, s: State, now: Time, a: Action, t: State, j: Id, token: Id)
    requires Enabled(c, s, now, a) && t == Next(c, s, now, a)
    requires j in s.db.jobs && !(a.ClaimJob? && s.workers[a.w].job == j) && !(a.Create? && a.job == j)
    ensures HoldsJob(t.db, j, token) ==> HoldsJob(s.db, j, token)
    ensures IsCompleted(t, j) && !IsCompleted(s, j) ==> Commits(s, a) && s.workers[a.w].claimed.job == j
  {
    hide Next, Enabled, HoldsJob, Commits, NextClaimJob, NextRenew, NextComplete, CreateJob, FailJob;
    if TouchesJobs(a) {
      JobStepIs(c, s, now, a);
      match a
      case Renew(b) => ByRenew(c, s, now, b, j, token);
      case Complete(_, _) => ByComplete(s, now, a, j, token);
      case Fail(w, error) => ByFail(s, now, s.workers[w].claimed, error, j, token);
      case _ =>
        OtherJobTouched(c, s, now, a, j);
        HolderRow(s.db, t.db, j, token);
    } else {
      JobsStill(c, s, now, a);
      HolderRow(s.db, t.db, j, token);
    }
  }

  lemma NobodyStillCompletes(c: Config, s: State, now: Time, a: Action, t: State, j: Id)
    requires Enabled(c, s, now, a) && t == Next(c, s, now, a) && j in s.db.jobs && (a.Create? ==> a.job != j)
    requires NobodyClaims(s, j) && NobodyCompletes(s, j) && !IsCompleted(s, j)
    ensures NobodyCompletes(t, j) && !IsCompleted(t, j)
  {
    hide Next;
    assert !(a.ClaimJob? && s.workers[a.w].job == j) by {
      hide IsBatch;
      if a.ClaimJob? {
        assert !WillClaim(s, a.w, j);
      }
    }
    hide Enabled;
    forall w ensures !WillComplete(t, w, j) {
      if w in t.workers && (t.workers[w].Working? || t.workers[w].Stored?) {
        HolderShift(c, s, now, a, t, j, t.workers[w].claimed.token);
        assert !WillComplete(s, w, j);
        if w in Mover(a) {
          MoverShift(c, s, now, a, t, w);
        } else {
          OnlyMover(c, s, now, a, t, w);
        }
      }
    }
    HolderShift(c, s, now, a, t, j, 0);
    if Commits(s, a) {
      assert !WillComplete(s, a.w, j);
    }
  }

  lemma CreatedIsNew(c: Config, s: State, now: Time, a: Action)
    requires Inv(c, s) && Enabled(c, s, now, a) && a.Create?
    ensures a.job !in s.db.jobs
  {
    hide Inv;
    FreshIds(c, s, a.job);
  }

  lemma AbandonedStep(c: Config, s: State, now: Time, a: Action, j: Id)
    requires Inv(c, s) && Enabled(c, s, now, a) && Abandoned(c, s, j)
    ensures Abandoned(c, Next(c, s, now, a), j)
  {
    hide Inv, Enabled, Next, Consistent, AllApart, ClaimsOk, OutboxOk, QueueOk, GrantsOk, DeliveriesOk, ArtifactsOk, RecordsOk;
    hide WorkersOk, BeatsOk, RowsDone, MessagesDone, NobodySends, NobodyClaims, NobodyCompletes, TokensOf;
    hide ResultsGrow, OutboxGrows, QueueGrows, LogGrows, ArtifactsGrow;
    var t := Next(c, s, now, a);
    Parts(c, s);
    StepKeeps(c, s, now, a);
    assert a.Create? ==> a.job != j by { if a.Create? { CreatedIsNew(c, s, now, a); } }
    RowsAreOk(c, s);
    RowsStayDone(c, s, now, a, t, j);
    MessagesStayDone(c, s, now, a, t, j);
    NobodyStillSends(c, s, now, a, t, j);
    NobodyStillClaims(c, s, now, a, t, j);
    NobodyStillCompletes(c, s, now, a, t, j);
  }

  lemma {:induction false} AbandonedForever(c: Config, s: State, run: seq<Step>, j: Id)
    requires Inv(c, s) && Abandoned(c, s, j) && ValidFrom(c, s, run)
    ensures Abandoned(c, Exec(c, s, run), j)
    decreases |run|
  {
    hide Inv, Grows, Next, Enabled, Abandoned;
    if run != [] {
      StepKeeps(c, s, run[0].now, run[0].act);
      AbandonedStep(c, s, run[0].now, run[0].act, j);
      AbandonedForever(c, Next(c, s, run[0].now, run[0].act), run[1..], j);
    }
  }

  ghost predicate CanComplete(c: Config, s: State, j: Id) {
    exists run :: ValidFrom(c, s, run) && IsCompleted(Exec(c, s, run), j)
  }

  /**
   An uncompleted job has a continuation that completes it if and only if something carries it; and then there is
   one without failures, duplicates or crashes, with clocks that only go forward.
   */
  lemma RecoverableIffCarried(c: Config, s: State, j: Id, from: Time)
    requires Reachable(c, s) && j in s.db.jobs && !IsCompleted(s, j) && 0 < c.maxReceives && 0 < c.limit
    ensures CanComplete(c, s, j) <==> Carried(c, s, j)
    ensures Carried(c, s, j) ==>
              exists run: seq<Step> :: ValidFrom(c, s, run) && IsCompleted(Exec(c, s, run), j) && Monotone(run, from)
                            && forall i :: 0 <= i < |run| ==> Smooth(run[i].act)
  {
    hide Inv, Carried, Abandoned, Reachable, ValidFrom, Exec, Monotone, Smooth, IsCompleted;
    ReachableInv(c, s);
    if Carried(c, s, j) {
      var run, u, now := CarriedCompletes(c, s, j, from);
      InstantMonotone(run, now);
      assert Monotone(run, from) by { Earlier(run, now, from); }
    } else {
      NotCarriedIsAbandoned(c, s, j);
      forall run | ValidFrom(c, s, run) ensures !IsCompleted(Exec(c, s, run), j) {
        AbandonedForever(c, s, run, j);
        NotCompletedYet(c, Exec(c, s, run), j);
      }
    }
  }

  lemma Earlier(run: seq<Step>, now: Time, from: Time)
    requires Monotone(run, now) && from <= now
    ensures Monotone(run, from)
  {
  }

  lemma NotCompletedYet(c: Config, s: State, j: Id)
    requires Abandoned(c, s, j)
    ensures !IsCompleted(s, j)
  {
  }
}
