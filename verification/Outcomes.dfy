/**
 What the steps bring about, told by the columns and the messages: when a claim wins, what a failure leaves, what is kept of
 what was created, and what becomes of a message.
 */
module Outcomes {
  import opened Basics
  import opened Tables
  import opened Pipeline
  import opened Frames
  import opened Invariant
  import opened Preservation
  import opened Safety

  /* ---- claiming and failing a job ---- */

  lemma ReceivedJobExists(c: Config, s: State, w: Id)
    requires Reachable(c, s) && w in s.workers && s.workers[w].Received?
    ensures s.workers[w].job in s.db.jobs
    ensures var row := s.db.jobs[s.workers[w].job]; row.status == Processing ==> row.startedAt.Some? && row.token.Some?
  {
    hide Inv, Reachable, JobsOk, ClaimsOk, OutboxOk, QueueOk, GrantsOk, DeliveriesOk, ArtifactsOk, RecordsOk, BeatsOk, AllApart;
    hide EventsMatchJobs, ResultsAgree, MetadataAgrees, CompletionsAudited, CreationsAudited, TodoOk, NotYetClaimed, NotYetStored;
    ReachableInv(c, s);
    Parts(c, s);
    assert WorkerOk(s, w);
    MessagesCarryTheRow(c, s, s.workers[w].handle.msg);
    assert JobRowOk(s.db.jobs[s.workers[w].job]);
  }

  /**
   A claim at `now` wins exactly on a pending or failed job, or on one whose last stamp is more than the lease ago. A winner
   is the job's holder, under a heartbeat of its own; a loser has changed no table.
   */
  lemma ClaimWinsIff(c: Config, s: State, now: Time, w: Id, token: Id)
    requires Reachable(c, s) && Enabled(c, s, now, ClaimJob(w, token))
    ensures s.workers[w].Received? && s.workers[w].job in s.db.jobs
    ensures var j, t := s.workers[w].job, Next(c, s, now, ClaimJob(w, token));
            var row := s.db.jobs[j];
            && w in t.workers
            && (row.status == Processing ==> row.startedAt.Some?)
            && (t.workers[w].Working? <==>
                row.status in {Pending, Failed} || (row.status == Processing && row.startedAt.value + c.jobLease < now))
            && (t.workers[w].Working? ==>
                  && j in t.db.jobs && t.db.jobs[j].status == Processing && t.db.jobs[j].token == Some(token)
                  && t.db.jobs[j].startedAt == Some(now) && t.db.jobs[j].attempts == row.attempts + 1
                  && t.workers[w].claimed == ClaimedJob(j, row.jobType, row.attempts + 1, token)
                  && token in t.beats && t.beats[token].worker == w && t.beats[token].job == j && !t.beats[token].stop)
            && (!t.workers[w].Working? ==> t.workers[w].TurnedAway? && t.db == s.db)
  {
    hide Reachable, Next, Enabled;
    ConsumeStepIs(c, s, now, ClaimJob(w, token));
    ReceivedJobExists(c, s, w);
  }

  /** A failure by the holder frees the job, keeps the error's first 1000 characters, and changes nothing else. */
  lemma FailureFrees(c: Config, s: State, now: Time, w: Id, error: string)
    requires Enabled(c, s, now, Fail(w, error))
    requires var claimed := s.workers[w].claimed;
             && claimed.job in s.db.jobs && s.db.jobs[claimed.job].status == Processing
             && s.db.jobs[claimed.job].token == Some(claimed.token)
    ensures var j, t := s.workers[w].claimed.job, Next(c, s, now, Fail(w, error));
            && t.db.jobs.Keys == s.db.jobs.Keys && (forall k :: k in s.db.jobs && k != j ==> t.db.jobs[k] == s.db.jobs[k])
            && t.db == s.db.(jobs := t.db.jobs)
            && var before, after := s.db.jobs[j], t.db.jobs[j];
               && after.status == Failed && after.token == None && after.startedAt == None && after.updatedAt == now
               && after.lastError == Some(if |error| <= 1000 then error else error[..1000])
               && after.attempts == before.attempts && after.jobType == before.jobType && after.payload == before.payload
               && after.createdAt == before.createdAt
  {
    hide Next, Enabled;
    JobStepIs(c, s, now, Fail(w, error));
  }

  /** So the next claim of it wins, whenever it comes. */
  lemma FailedIsClaimedAtOnce(c: Config, s: State, now: Time, w: Id, error: string, later: Time, v: Id, token: Id)
    requires Reachable(c, s) && Enabled(c, s, now, Fail(w, error))
    requires var claimed := s.workers[w].claimed;
             && claimed.job in s.db.jobs && s.db.jobs[claimed.job].status == Processing
             && s.db.jobs[claimed.job].token == Some(claimed.token)
    requires var t := Next(c, s, now, Fail(w, error));
             Enabled(c, t, later, ClaimJob(v, token)) && v in t.workers && t.workers[v].Received? &&
             t.workers[v].job == s.workers[w].claimed.job
    ensures var t := Next(c, s, now, Fail(w, error));
            var u := Next(c, t, later, ClaimJob(v, token));
            v in u.workers && u.workers[v].Working?
  {
    hide Reachable, Next, Enabled;
    FailureFrees(c, s, now, w, error);
    OneMoreReachable(c, s, now, Fail(w, error));
    ClaimWinsIff(c, Next(c, s, now, Fail(w, error)), later, v, token);
  }

  lemma OneMoreReachable(c: Config, s: State, now: Time, a: Action)
    requires Reachable(c, s) && Enabled(c, s, now, a)
    ensures Reachable(c, Next(c, s, now, a))
  {
    hide Enabled, Next, Reachable, ValidFrom, Exec;
    SingleStep(c, s, At(now, a));
    ReachableOn(c, s, [At(now, a)]);
  }

  /* ---- claiming and failing outbox rows ---- */

  lemma RowFacts(c: Config, s: State, e: Id)
    requires Reachable(c, s) && e in s.db.outbox
    ensures s.db.outbox[e].status == OutPublishing ==> s.db.outbox[e].lockedAt.Some?
  {
    hide Inv, Reachable;
    ReachableInv(c, s);
    hide Consistent;
    Parts(c, s);
    RowIsOk(s.db, e);
  }

  /**
   A batch with room left holds exactly the rows, not locked by others, that are pending, failed, or locked more than the
   outbox lease ago; each is then claimed under the batch's token, one attempt further.
   */
  lemma BatchTakesIff(c: Config, s: State, now: Time, w: Id, token: Id, batch: set<Id>, skipped: set<Id>, e: Id)
    requires Reachable(c, s) && Enabled(c, s, now, ClaimBatch(w, token, batch, skipped)) && e in s.db.outbox
    ensures s.db.outbox[e].status == OutPublishing ==> s.db.outbox[e].lockedAt.Some?
    ensures var row := s.db.outbox[e];
            var free := e !in skipped && (row.status in {OutPending, OutFailed} ||
                                          (row.status == OutPublishing && row.lockedAt.value + c.outboxLease < now));
            && (e in batch ==> free)
            && (free && |batch| < c.limit ==> e in batch)
    ensures var row, t := s.db.outbox[e], Next(c, s, now, ClaimBatch(w, token, batch, skipped));
            && e in t.db.outbox
            && t.db.outbox[e] == if e in batch then row.(status := OutPublishing, attempts := row.attempts + 1,
                                                         lockedAt := Some(now), claimToken := Some(token), updatedAt := now)
                                 else row
  {
    hide Reachable, Next;
    RowFacts(c, s, e);
    DispatchStepIs(c, s, now, ClaimBatch(w, token, batch, skipped));
    var free := ClaimableRows(s.db, now, c.outboxLease) - skipped;
    if |batch| < c.limit {
      SubsetBound(batch, free);
    }
  }

  /** A failure by the holder frees the row and keeps the error's first 1000 characters; any batch may take it at any time. */
  lemma FailureFreesRow(c: Config, s: State, now: Time, w: Id, error: string)
    requires Enabled(c, s, now, MarkUnsent(w, error))
    requires var e := s.workers[w].event;
             e in s.db.outbox && s.db.outbox[e].status == OutPublishing && s.db.outbox[e].claimToken == Some(s.workers[w].batch)
    ensures var e, t := s.workers[w].event, Next(c, s, now, MarkUnsent(w, error));
            && t.db.outbox.Keys == s.db.outbox.Keys && (forall f :: f in s.db.outbox && f != e ==> t.db.outbox[f] == s.db.outbox[f])
            && t.db == s.db.(outbox := t.db.outbox)
            && t.db.outbox[e].status == OutFailed && t.db.outbox[e].claimToken == None && t.db.outbox[e].lockedAt == None
            && t.db.outbox[e].lastError == Some(if |error| <= 1000 then error else error[..1000])
            && t.db.outbox[e].payload == s.db.outbox[e].payload && t.db.outbox[e].attempts == s.db.outbox[e].attempts
  {
    hide Next, Enabled;
    DispatchStepIs(c, s, now, MarkUnsent(w, error));
  }

  /* ---- what was created is kept ---- */

  lemma CreatedRow(c: Config, s: State, now: Time, a: Action)
    requires Enabled(c, s, now, a) && a.Create?
    ensures var t := Next(c, s, now, a);
            && a.job in t.db.jobs && t.db.jobs[a.job].payload == a.payload && t.db.jobs[a.job].jobType == a.jobType
            && t.db.jobs[a.job].createdAt == now
            && a.event in t.db.outbox && t.db.outbox[a.event].payload.job == a.job
            && t.db.outbox[a.event].payload.correlation ==
               if a.correlation.Some? && |a.correlation.value| > 0 then a.correlation else None
  {
    hide Next, Enabled;
    JobStepIs(c, s, now, a);
  }

  /** Whatever happens after its creation, `get_job` finds the job with the type and payload it was given. */
  lemma CreatedIsKept(c: Config, s: State, now: Time, a: Action, more: seq<Step>)
    requires Reachable(c, s) && Enabled(c, s, now, a) && a.Create? && ValidFrom(c, Next(c, s, now, a), more)
    ensures var u := Exec(c, Next(c, s, now, a), more);
            && a.job in u.db.jobs
            && u.db.jobs[a.job].payload == a.payload && u.db.jobs[a.job].jobType == a.jobType && u.db.jobs[a.job].createdAt == now
            && exists view :: JoinedRows(u.db, a.job) == {view} && view.id == a.job && view.row == u.db.jobs[a.job]
  {
    hide Inv, Reachable, ValidFrom, Exec, Next, Enabled, OutboxGrows, QueueGrows, LogGrows, ArtifactsGrow, ResultsGrow, JoinedRows;
    var t := Next(c, s, now, a);
    CreatedRow(c, s, now, a);
    OneMoreReachable(c, s, now, a);
    ReachableInv(c, t);
    RunKeeps(c, t, more);
    var u := Exec(c, t, more);
    hide Consistent, AllApart;
    Parts(c, u);
    JoinIsOneRow(u.db, a.job);
    assert a.job in u.db.jobs;
    OneView(u.db, a.job);
  }

  lemma OneView(db: Db, j: Id)
    requires Consistent(db) && j in db.jobs
    ensures exists view :: JoinedRows(db, j) == {view} && view.id == j && view.row == db.jobs[j]
  {
    JoinIsOneRow(db, j);
    hide Consistent, JoinedRows;
    var view := JobView(j, db.jobs[j], if j in db.results then Some(db.results[j]) else None,
                        if j in db.results then Some((db.results[j].key, "text/csv")) else None);
    assert JoinedRows(db, j) == {view};
  }

  /** Every message ever sent carries exactly the body its outbox row was created with. */
  lemma MessagesCarryTheRow(c: Config, s: State, m: Id)
    requires Reachable(c, s) && m in s.queue
    ensures var e := s.queue[m].origin.event; e in s.db.outbox && s.queue[m].body == s.db.outbox[e].payload
    ensures s.queue[m].body.version == 1 && s.queue[m].body.eventType == "job.created" && s.queue[m].body.job in s.db.jobs
  {
    hide Inv, Reachable, JobsOk, ClaimsOk, OutboxOk, GrantsOk, DeliveriesOk, ArtifactsOk, RecordsOk, WorkersOk, BeatsOk, AllApart;
    hide RowsOk, ResultsAgree, MetadataAgrees, CompletionsAudited, CreationsAudited;
    ReachableInv(c, s);
    Parts(c, s);
    assert MessageOk(c, s, m);
  }

  /** So a message of a job carries the correlation id the job was created with, if there was one. */
  lemma CorrelationIsCarried(c: Config, s: State, now: Time, a: Action, more: seq<Step>, m: Id)
    requires Reachable(c, s) && Enabled(c, s, now, a) && a.Create? && ValidFrom(c, Next(c, s, now, a), more)
    requires m in Exec(c, Next(c, s, now, a), more).queue && Exec(c, Next(c, s, now, a), more).queue[m].body.job == a.job
    ensures Exec(c, Next(c, s, now, a), more).queue[m].body.correlation ==
            if a.correlation.Some? && |a.correlation.value| > 0 then a.correlation else None
  {
    hide Inv, Reachable, ValidFrom, Exec, Next, Enabled, JobsGrow, QueueGrows, LogGrows, ArtifactsGrow, ResultsGrow;
    var t := Next(c, s, now, a);
    CreatedRow(c, s, now, a);
    OneMoreReachable(c, s, now, a);
    ReachableInv(c, t);
    RunKeeps(c, t, more);
    var u := Exec(c, t, more);
    assert Reachable(c, u) by { ReachableOn(c, t, more); }
    MessagesCarryTheRow(c, u, m);
    OnlyEvent(c, u, a.event, u.queue[m].origin.event);
  }

  lemma OnlyEvent(c: Config, s: State, e: Id, f: Id)
    requires Reachable(c, s) && e in s.db.outbox && f in s.db.outbox && s.db.outbox[e].payload.job == s.db.outbox[f].payload.job
    ensures e == f
  {
    hide Inv, Reachable, JobsOk, ClaimsOk, OutboxOk, QueueOk, GrantsOk, DeliveriesOk, ArtifactsOk, RecordsOk, WorkersOk, BeatsOk, AllApart;
    hide RowsOk, ResultsAgree, MetadataAgrees, CompletionsAudited, CreationsAudited;
    ReachableInv(c, s);
    Parts(c, s);
  }

  /* ---- what becomes of a message ---- */

  /** A receive counts, hides the message for the visibility timeout, and touches no other. */
  lemma ReceiveHides(c: Config, s: State, now: Time, a: Action)
    requires Enabled(c, s, now, a) && a.Receive?
    ensures a.msg in s.queue && s.queue[a.msg].place == MainQueue && s.queue[a.msg].receives < c.maxReceives
    ensures a.duplicate || s.queue[a.msg].visibleAt <= now
    ensures Next(c, s, now, a).queue ==
            s.queue[a.msg := s.queue[a.msg].(receives := s.queue[a.msg].receives + 1, visibleAt := now + c.visibility)]
  {
    hide SupportedSchema, NextClaimBatch, NextPublish, NextMarkSent, NextClaimJob, NextLookUp, NextDelete, NextPut, NextComplete;
    hide NextLeave, NextRenew, NextExtend, IsBatch;
  }

  /** An acknowledged delete under the latest receipt takes the message out of the main queue. */
  lemma AckedDeleteRemoves(c: Config, s: State, now: Time, w: Id, removed: bool)
    requires Enabled(c, s, now, Delete(w, removed, true))
    ensures s.workers[w].DeletingDuplicate? || s.workers[w].Deleting?
    ensures var h, t := s.workers[w].handle, Next(c, s, now, Delete(w, removed, true));
            && h.msg in s.queue && h.msg in t.queue
            && (h.receipt == s.queue[h.msg].receives ==> t.queue[h.msg].place != MainQueue)
            && (removed ==> t.queue[h.msg].place == Deleted)
            && (forall m :: m in s.queue && m != h.msg ==> m in t.queue && t.queue[m] == s.queue[m])
  {
    hide NextClaimBatch, NextPublish, NextMarkSent, NextReceive, NextClaimJob, NextLookUp, NextPut, NextComplete;
    hide NextLeave, NextRenew, NextExtend, IsBatch;
  }

  /** The queue moves a message that is out of receives to the dead-letter queue. */
  lemma RedriveMoves(c: Config, s: State, now: Time, m: Id)
    requires Enabled(c, s, now, Redrive(m))
    ensures m in s.queue && c.maxReceives <= s.queue[m].receives
    ensures Next(c, s, now, Redrive(m)) == s.(queue := s.queue[m := s.queue[m].(place := DeadLetter)])
  {
  }

  lemma OutStaysOut(c: Config, s: State, now: Time, a: Action, m: Id)
    requires Enabled(c, s, now, a) && m in s.queue && s.queue[m].place != MainQueue
    ensures a.Receive? ==> a.msg != m
    ensures var t := Next(c, s, now, a);
            m in t.queue && t.queue[m].place != MainQueue && t.queue[m].receives == s.queue[m].receives
  {
    if a.Receive? {
      ReceiveHides(c, s, now, a);
    } else if !TouchesQueue(a) {
      hide Next, Enabled;
      QueueStill(c, s, now, a);
    } else {
      hide IsBatch, NextClaimBatch, NextMarkSent, NextClaimJob, NextLookUp, NextPut, NextComplete, NextLeave, NextRenew, Die, NextReceive;
    }
  }

  /** A message that has left the main queue is never received again. */
  lemma {:induction false} NeverReceivedAgain(c: Config, s: State, run: seq<Step>, m: Id)
    requires ValidFrom(c, s, run) && m in s.queue && s.queue[m].place != MainQueue
    ensures forall i :: 0 <= i < |run| && run[i].act.Receive? ==> run[i].act.msg != m
    ensures var u := Exec(c, s, run); m in u.queue && u.queue[m].place != MainQueue && u.queue[m].receives == s.queue[m].receives
    decreases |run|
  {
    hide Next, Enabled;
    if run != [] {
      OutStaysOut(c, s, run[0].now, run[0].act, m);
      NeverReceivedAgain(c, Next(c, s, run[0].now, run[0].act), run[1..], m);
      forall i | 0 <= i < |run| && run[i].act.Receive? ensures run[i].act.msg != m {
        assert 0 < i ==> run[i] == run[1..][i - 1];
      }
    }
  }
}
