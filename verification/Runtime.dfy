/**
 The worker program, run against the repository, the queue and the artifact store while every other agent moves freely.
 Each method follows the control flow of its source function. Each call it makes appends one step to the world's run, so
 whatever the program does is a run of the step system, and what is proved of all runs holds of the program.
 */
module Runtime {
  import opened Basics
  import opened Tables
  import opened Pipeline
  import opened Invariant
  import opened Preservation
  import opened Safety
  import opened Abandonment
  import opened Agents
  import opened Repositories

  // How a call of the program ended: it returned, or its process did not survive.
  datatype Ending = Handled | NotHandled | Died

  datatype Claimed = Acquired(job: ClaimedJob) | DuplicateCompleted | InProgressNotOwned | ClaimDied

  // What the queue may offer a receiver: a message, perhaps again before its time, and whether the reply arrives.
  datatype Offer = Offer(msg: Id, duplicate: bool, replied: bool)

  // How a heartbeat's loop ended.
  datatype Silence = Stopped | LostOwnership | RenewalRaised | ProcessEnded | StillBeating

  /** Exactly when the last thing done was a delete request that the queue acknowledged. */
  predicate EndsInDelete(own: seq<Action>) {
    own != [] && own[|own| - 1].Delete? && own[|own| - 1].acked
  }

  function IdsOf(rows: seq<ClaimedEvent>): set<Id> {
    set r | r in rows :: r.id
  }

  lemma IdsAfter(rows: seq<ClaimedEvent>, i: nat)
    requires i < |rows| && forall i, k :: 0 <= i < k < |rows| ==> rows[i].id != rows[k].id
    ensures rows[i].id in IdsOf(rows[i..])
    ensures IdsOf(rows[i + 1..]) == IdsOf(rows[i..]) - {rows[i].id}
  {
    assert rows[i..] == [rows[i]] + rows[i + 1..];
  }

  class World {
    const c: Config
    const repo: Repository
    // In a steady world nothing ends the program and no call it makes raises.
    const steady: bool
    var queue: map<Id, Message>
    var artifacts: map<Key, Artifact>
    var workers: map<Id, Worker>
    var beats: map<Id, Beat>
    var log: Log
    ghost var run: seq<Step>

    function S(): State
      reads this, repo
    {
      State(repo.Value(), queue, artifacts, workers, beats, log)
    }

    /** The world is where its run of the step system leads. */
    ghost predicate Valid()
      reads this, repo
    {
      ValidFrom(c, INITIAL, run) && S() == Exec(c, INITIAL, run)
    }

    constructor (c: Config, steady: bool)
      ensures Valid() && this.c == c && this.steady == steady && run == [] && fresh(repo)
    {
      this.c := c;
      this.steady := steady;
      repo := new Repository();
      queue, artifacts, workers, beats, log := map[], map[], map[], map[], Log({}, map[], map[], map[], map[]);
      run := [];
    }

    lemma IsReachable()
      requires Valid()
      ensures Reachable(c, S()) && Inv(c, S()) && repo.Valid()
    {
      hide Inv, ValidFrom, Exec, Consistent;
      ReachableInv(c, S());
      Parts(c, S());
    }

    /* ---- the other agents, and chance ---- */

    /** Anything the others may do, any number of steps of it. */
    method Interfere(who: Agent)
      requires Valid()
      modifies this, repo
      ensures Valid() && Follows(old(run), run, who, [])
    {
      // Nothing need happen; a caller knows only that whatever did was not a step of `who`.
      FollowsNothing(run, who);
    }

    /** Others move. */
    method Pause(who: Agent) returns (ghost start: seq<Step>)
      requires Valid() && Exists(S(), who)
      modifies this, repo
      ensures Valid() && repo.Valid() && start == old(run) && Follows(start, run, who, [])
      ensures Undisturbed(old(S()), S(), who) && Grows(old(S()), S())
    {
      hide Inv, ValidFrom, Exec, Own, Consistent, Undisturbed, Exists, Grows;
      start := run;
      ghost var s := S();
      IsReachable();
      Interfere(who);
      ghost var more := run[|start|..];
      assert run[..|start|] == start;
      ExecSplit(c, INITIAL, run, |start|);
      OthersLeave(c, s, more, who);
      RunKeeps(c, s, more);
      IsReachable();
    }

    method Clock() returns (now: Time) {
      now := *;
    }

    /** How a call ends. */
    method Answer() returns (outcome: Outcome)
      ensures steady ==> outcome.Done?
    {
      outcome := *;
      if steady {
        outcome := Done;
      }
    }

    method Works() returns (works: bool)
      ensures steady ==> works
    {
      works := *;
      works := works || steady;
    }

    method Uuid4() returns (id: Id)
      ensures id !in log.issued
    {
      id := Unused(log.issued);
    }

    /** The step's calls have been made; move the agents on and remember the step. */
    method Advance(ghost start: seq<Step>, who: Agent, before: State, step: Step)
      requires ValidFrom(c, INITIAL, run) && before == Exec(c, INITIAL, run)
      requires Follows(start, run, who, []) && By(step.act, who)
      requires Enabled(c, before, step.now, step.act)
      requires var t := Next(c, before, step.now, step.act);
               repo.Value() == t.db && queue == t.queue && artifacts == t.artifacts
      modifies this`workers, this`beats, this`log, this`run
      ensures Valid() && run == old(run) + [step] && S() == Next(c, before, step.now, step.act)
      ensures Follows(start, run, who, [step.act])
    {
      hide Enabled, Consistent, By;
      var t := Next(c, before, step.now, step.act);
      workers, beats, log := t.workers, t.beats, t.log;
      Recorded(run, before, step);
      OneOwn(run, step, who);
      After(start, run, run + [step], who, [step.act]);
      run := run + [step];
      assert S() == t;
    }

    lemma Recorded(done: seq<Step>, before: State, step: Step)
      requires ValidFrom(c, INITIAL, done) && before == Exec(c, INITIAL, done)
      requires Enabled(c, before, step.now, step.act)
      ensures ValidFrom(c, INITIAL, done + [step])
      ensures Exec(c, INITIAL, done + [step]) == Next(c, before, step.now, step.act)
    {
      hide Next, Enabled;
      SingleStep(c, before, step);
      ExecAppend(c, INITIAL, done, [step]);
    }

    /** The process ends: an exception nobody catches, or a kill. */
    method Kill(w: Id)
      requires Valid() && w in workers
      modifies this, repo
      ensures Valid() && Follows(old(run), run, Thread(w), [Crash(w)]) && w !in workers
    {
      hide ValidFrom, Exec, Follows;
      var now := Clock();
      FollowsNothing(run, Thread(w));
      Advance(run, Thread(w), S(), At(now, Crash(w)));
    }

    /**
     Between two calls the process may end: by a kill, or because the call before or after, made outside every `try`, raises.
     (One that raises after it took effect is the call followed by this.) `own` is what the worker has done since `start`.
     */
    method Survive(w: Id, ghost start: seq<Step>, ghost own: seq<Action>) returns (alive: bool, ghost done: seq<Action>)
      requires Valid() && w in workers && Follows(start, run, Thread(w), own)
      modifies this, repo
      ensures Valid() && Follows(start, run, Thread(w), done)
      ensures steady ==> alive
      ensures alive ==> done == own && run == old(run) && S() == old(S())
      ensures !alive ==> done == own + [Crash(w)] && w !in workers && Follows(old(run), run, Thread(w), [Crash(w)])
    {
      hide ValidFrom, Exec, Follows;
      alive := Works();
      done := own;
      if !alive {
        ghost var mid := run;
        Kill(w);
        Chain(start, mid, run, Thread(w), own, [Crash(w)]);
        done := own + [Crash(w)];
      }
    }

    /* ---- one call of the program each; others move before it, and how the call ends is a parameter ---- */

    /** `repository.mark_job_processing`, the call as it returns. */
    method MarkJobProcessing(w: Id) returns (claimed: Option<ClaimedJob>, ghost act: Action)
      requires Valid() && w in workers && workers[w].Received?
      modifies this, repo
      ensures Valid() && Follows(old(run), run, Thread(w), [act]) && act.ClaimJob? && w in workers
      ensures claimed.Some? ==>
                && workers[w] == Working(old(workers[w]).handle, claimed.value)
                && claimed.value.job == old(workers[w]).job && claimed.value.token in beats
      ensures claimed.None? ==> workers[w] == TurnedAway(old(workers[w]).handle, old(workers[w]).job)
    {
      hide ValidFrom, Exec, Consistent, Follows, Reachable, Grows;
      ghost var start := Pause(Thread(w));
      var token := Uuid4();
      var now := Clock();
      var before := S();
      act := ClaimJob(w, token);
      claimed := repo.MarkJobProcessing(workers[w].job, token, now, c.jobLease);
      Advance(start, Thread(w), before, At(now, ClaimJob(w, token)));
    }

    /** `repository.get_job` after a refused claim: the status it reads may already be out of date. */
    method GetStatus(w: Id) returns (completed: bool, ghost act: Action)
      requires Valid() && w in workers && workers[w].TurnedAway?
      modifies this, repo
      ensures Valid() && Follows(old(run), run, Thread(w), [act]) && act.LookUp? && w in workers
      ensures completed ==> workers[w] == DeletingDuplicate(old(workers[w]).handle, old(workers[w]).job)
      ensures completed ==> IsCompleted(S(), old(workers[w]).job)
      ensures !completed ==> workers[w].LoopTop?
    {
      hide ValidFrom, Exec, Consistent, Follows, Reachable, Inv, Grows;
      ghost var start := Pause(Thread(w));
      var before := S();
      act := LookUp(w);
      var now := Clock();
      var view := repo.GetJob(workers[w].job);
      IsReachable();
      RejectionsUnreachable(c, before, now, LookUp(w));
      assert view.Some?;
      completed := view.value.row.status.Completed?;
      Advance(start, Thread(w), before, At(now, LookUp(w)));
    }

    /** `artifact_store.put_csv_report`; None is an exception, with or without the object stored. */
    method PutCsvReport(w: Id, outcome: Outcome) returns (key: Option<Key>, ghost act: Action)
      requires Valid() && w in workers && workers[w].Working?
      modifies this, repo
      ensures Valid() && Follows(old(run), run, Thread(w), [act]) && act.Put? && w in workers
      ensures var was := old(workers[w]);
              workers[w] == if key.Some? then Stored(was.handle, was.claimed, key.value) else Unwinding(was.handle, was.claimed, Raised)
      ensures act.outcome == outcome && key == if outcome.Done? then Some(Key(old(workers[w]).claimed.job, act.report)) else None
      ensures !outcome.NotDone? ==>
                var claimed := old(workers[w]).claimed;
                && Key(claimed.job, act.report) in artifacts
                && artifacts[Key(claimed.job, act.report)] == Artifact(claimed.token, claimed.jobType, claimed.attempt)
    {
      hide ValidFrom, Exec, Consistent, Follows, Reachable, Inv, Grows;
      ghost var start := Pause(Thread(w));
      var before := S();
      var report := Uuid4();
      var now := Clock();
      act := Put(w, report, outcome);
      var claimed := workers[w].claimed;
      if Takes(outcome) {
        artifacts := artifacts[Key(claimed.job, report) := Artifact(claimed.token, claimed.jobType, claimed.attempt)];
      }
      key := if outcome.Done? then Some(Key(claimed.job, report)) else None;
      Advance(start, Thread(w), before, At(now, Put(w, report, outcome)));
    }

    /** The transaction itself: it may be lost, or its reply may. */
    method TryComplete(claimed: ClaimedJob, key: Key, now: Time, outcome: Outcome) returns (exit: Exit)
      requires repo.Valid()
      modifies repo
      ensures var was := old(repo.Value());
              && repo.Value() == (if Takes(outcome) then
                                    Tables.CompleteJob(was, claimed.job, claimed.token, Report(key, 3), key, "text/csv", now)
                                  else was)
              && exit == (if !outcome.Done? then Raised
                          else if HoldsJob(was, claimed.job, claimed.token) then Returned
                          else LostClaim)
      ensures exit.Returned? ==>
                && claimed.job in repo.jobs && repo.jobs[claimed.job].status == Completed
                && claimed.job in repo.results && repo.results[claimed.job] == Report(key, 3)
      ensures exit.LostClaim? ==>
                !(claimed.job in repo.jobs && repo.jobs[claimed.job].status == Processing &&
                  repo.jobs[claimed.job].token == Some(claimed.token))
    {
      hide Consistent, HoldsJob, Tables.CompleteJob;
      exit := Raised;
      if Takes(outcome) {
        var completed := repo.CompleteJobWithReport(claimed.job, claimed.token, Report(key, 3), key, "text/csv", now);
        if outcome.Done? {
          exit := if completed then Returned else LostClaim;
        }
      }
    }

    /** `repository.complete_job_with_report`: it returns, raises LostJobClaimError, or raises something else. */
    method CompleteJob(w: Id, outcome: Outcome) returns (exit: Exit, ghost act: Action)
      requires Valid() && w in workers && workers[w].Stored?
      modifies this, repo
      ensures Valid() && Follows(old(run), run, Thread(w), [act]) && act.Complete? && w in workers
      ensures workers[w] == Unwinding(old(workers[w]).handle, old(workers[w]).claimed, exit)
      ensures act.outcome == outcome && (exit.Raised? <==> !outcome.Done?)
      ensures exit.Returned? ==>
                var was := old(workers[w]);
                && was.claimed.job in repo.jobs && repo.jobs[was.claimed.job].status == Completed
                && was.claimed.job in repo.results && repo.results[was.claimed.job] == Report(was.key, 3)
      ensures exit.LostClaim? ==>
                var claimed := old(workers[w]).claimed;
                !(claimed.job in repo.jobs && repo.jobs[claimed.job].status == Processing &&
                  repo.jobs[claimed.job].token == Some(claimed.token))
    {
      hide ValidFrom, Exec, Consistent, Follows, Reachable, Inv, Grows, HoldsJob, Tables.CompleteJob;
      ghost var start := Pause(Thread(w));
      var before := S();
      var now := Clock();
      act := Complete(w, outcome);
      exit := TryComplete(workers[w].claimed, workers[w].key, now, outcome);
      Advance(start, Thread(w), before, At(now, Complete(w, outcome)));
    }

    /** Leaving the `with` block sets the stop event; the join may give up before the thread ends. */
    method LeaveHeartbeat(w: Id) returns (ghost act: Action)
      requires Valid() && w in workers && workers[w].Unwinding?
      modifies this, repo
      ensures Valid() && Follows(old(run), run, Thread(w), [act]) && act.Leave? && w in workers
      ensures var was := old(workers[w]);
              workers[w] == match was.exit
                            case Returned => Deleting(was.handle, was.claimed)
                            case LostClaim => LoopTop
                            case Raised => Failing(was.handle, was.claimed)
      ensures var token := old(workers[w]).claimed.token; token in beats ==> beats[token].stop
    {
      hide ValidFrom, Exec, Consistent, Follows, Reachable, Inv, Grows;
      ghost var start := Pause(Thread(w));
      var now := Clock();
      act := Leave(w);
      Advance(start, Thread(w), S(), At(now, Leave(w)));
    }

    /** `consumer.delete`. Only a delete inside the `try` may be seen to fail. */
    method DeleteMessage(w: Id, removes: bool, replies: bool) returns (acked: bool, ghost act: Action)
      requires Valid() && w in workers && (workers[w].DeletingDuplicate? || workers[w].Deleting?)
      modifies this, repo
      ensures Valid() && Follows(old(run), run, Thread(w), [act]) && act.Delete? && act.acked == acked && w in workers
      ensures acked <==> replies || old(workers[w]).DeletingDuplicate?
      ensures var handle := old(workers[w]).handle;
              handle.msg in queue && (removes || (acked && handle.receipt == queue[handle.msg].receives)) ==>
                queue[handle.msg].place != MainQueue
      ensures acked ==> workers[w].LoopTop?
      ensures !acked ==> workers[w] == Failing(old(workers[w]).handle, old(workers[w]).claimed)
      ensures var m := old(workers[w]).handle.msg; m in queue && IsCompleted(S(), queue[m].body.job)
    {
      hide ValidFrom, Exec, Consistent, Follows, Reachable, Inv, Grows;
      ghost var start := Pause(Thread(w));
      var before := S();
      IsReachable();
      DeletesCompleted(c, before, w);
      var handle := HandleOf(workers[w]);
      var m := handle.msg;
      var inMain := queue[m].place.MainQueue?;
      var removed := removes && inMain;
      acked := replies || workers[w].DeletingDuplicate?;
      if acked && !removed && inMain && handle.receipt == queue[m].receives {
        removed := true;
      }
      var now := Clock();
      act := Delete(w, removed, acked);
      if removed {
        queue := queue[m := queue[m].(place := Deleted)];
      }
      Advance(start, Thread(w), before, At(now, Delete(w, removed, acked)));
    }

    /** `repository.fail_job`, the call as it returns. */
    method FailJob(w: Id, error: string) returns (ghost act: Action)
      requires Valid() && w in workers && workers[w].Failing?
      modifies this, repo
      ensures Valid() && Follows(old(run), run, Thread(w), [act]) && act == Fail(w, error) && w in workers && workers[w].LoopTop?
    {
      hide ValidFrom, Exec, Consistent, Follows, Reachable, Inv, Grows;
      ghost var start := Pause(Thread(w));
      var before := S();
      var now := Clock();
      act := Fail(w, error);
      var claimed := workers[w].claimed;
      var failed := repo.FailJob(claimed.job, claimed.token, error, now);
      Advance(start, Thread(w), before, At(now, Fail(w, error)));
    }

    /** `consumer.receive_job`: the message offered, if the queue can deliver it, or nothing. */
    method ReceiveJob(w: Id, offer: Option<Offer>) returns (received: bool, ghost act: Action, ghost now: Time)
      requires Valid() && w in workers && workers[w].ReadyToReceive?
      modifies this, repo
      ensures Valid() && Follows(old(run), run, Thread(w), [act]) && (act.Receive? || act.ReceiveNothing?) && w in workers && act.w == w
      ensures received ==> workers[w].Received? && act.Receive? && workers[w].handle.msg == act.msg
      ensures !received ==> workers[w].LoopTop?
      ensures act.Receive? ==>
                && offer == Some(Offer(act.msg, act.duplicate, act.replied)) && received == act.replied
                && act.msg in queue && 1 <= queue[act.msg].receives && queue[act.msg].visibleAt == now + c.visibility
      ensures received ==> workers[w].handle.receipt == queue[act.msg].receives && workers[w].job == queue[act.msg].body.job
      ensures act.ReceiveNothing? && offer.Some? ==>
                var m := offer.value.msg;
                !(m in queue && queue[m].place == MainQueue && queue[m].receives < c.maxReceives &&
                  (offer.value.duplicate || queue[m].visibleAt <= now))
    {
      hide ValidFrom, Exec, Consistent, Follows, Reachable, Inv, Grows, Next, Enabled;
      ghost var start := Pause(Thread(w));
      var clock := Clock();
      now := clock;
      received := false;
      if offer.Some? && offer.value.msg in queue && queue[offer.value.msg].place.MainQueue? &&
         queue[offer.value.msg].receives < c.maxReceives && (offer.value.duplicate || queue[offer.value.msg].visibleAt <= clock) {
        received, act := Deliver(w, offer.value, clock, start);
      } else {
        act := ReceiveNothing(w);
        assert Enabled(c, S(), clock, ReceiveNothing(w)) && Next(c, S(), clock, ReceiveNothing(w)) == SetWorker(S(), w, LoopTop) by {
          NothingReceived(c, S(), clock, w);
        }
        Advance(start, Thread(w), S(), At(clock, ReceiveNothing(w)));
      }
    }

    lemma NothingReceived(c: Config, s: State, now: Time, w: Id)
      requires w in s.workers && s.workers[w].ReadyToReceive?
      ensures Enabled(c, s, now, ReceiveNothing(w)) && Next(c, s, now, ReceiveNothing(w)) == SetWorker(s, w, LoopTop)
    {
    }

    /** The queue hands the message over. */
    method Deliver(w: Id, offer: Offer, now: Time, ghost start: seq<Step>) returns (received: bool, ghost act: Action)
      requires Valid() && w in workers && workers[w].ReadyToReceive? && Follows(start, run, Thread(w), [])
      requires offer.msg in queue && queue[offer.msg].place.MainQueue? && queue[offer.msg].receives < c.maxReceives
      requires offer.duplicate || queue[offer.msg].visibleAt <= now
      modifies this, repo
      ensures Valid() && act == Receive(w, offer.msg, offer.duplicate, offer.replied) && Follows(start, run, Thread(w), [act])
      ensures received == offer.replied && w in workers
      ensures offer.msg in queue && queue[offer.msg].receives == old(queue[offer.msg].receives) + 1
      ensures queue[offer.msg].visibleAt == now + c.visibility
      ensures if received then
                workers[w] == Received(Handle(offer.msg, queue[offer.msg].receives), queue[offer.msg].body.job)
              else workers[w].LoopTop?
    {
      hide ValidFrom, Exec, Consistent, Follows, Reachable, Inv, Grows;
      IsReachable();
      ReferencesHold(c, S());
      var before, m := S(), offer.msg;
      act := Receive(w, m, offer.duplicate, offer.replied);
      received := offer.replied && SupportedSchema(queue[m].body.eventType, queue[m].body.version);
      queue := queue[m := queue[m].(receives := queue[m].receives + 1, visibleAt := now + c.visibility)];
      Advance(start, Thread(w), before, At(now, Receive(w, m, offer.duplicate, offer.replied)));
    }

    /* ---- claim_job, complete_claimed_job, consume_one_message ---- */

    method ClaimTheJob(w: Id) returns (claim: Claimed, ghost own: seq<Action>)
      requires Valid() && w in workers && workers[w].Received?
      modifies this, repo
      ensures Valid() && Follows(old(run), run, Thread(w), own) && EndDispatch(w) !in own && !EndsInDelete(own)
      ensures steady ==> !claim.ClaimDied?
      ensures claim.ClaimDied? <==> w !in workers
      ensures claim.Acquired? ==> workers[w] == Working(old(workers[w]).handle, claim.job) && claim.job.job == old(workers[w]).job
      ensures claim.DuplicateCompleted? ==>
                && workers[w] == DeletingDuplicate(old(workers[w]).handle, old(workers[w]).job)
                && IsCompleted(S(), old(workers[w]).job)
      ensures claim.InProgressNotOwned? ==> workers[w].LoopTop? && own != [] && own[|own| - 1].LookUp?
    {
      hide ValidFrom, Exec, Follows;
      ghost var start := run;
      FollowsNothing(run, Thread(w));
      var alive;
      alive, own := Survive(w, start, []);
      if !alive {
        return ClaimDied, own;
      }
      var claimed, act := MarkJobProcessing(w);
      alive, own := Survive(w, start, [act]);
      if !alive {
        return ClaimDied, own;
      }
      if claimed.Some? {
        return Acquired(claimed.value), own;
      }
      ghost var mid := run;
      var completed, look := GetStatus(w);
      Chain(start, mid, run, Thread(w), own, [look]);
      own := own + [look];
      claim := if completed then DuplicateCompleted else InProgressNotOwned;
    }

    /** Record the report, if the process lives. */
    method Record(w: Id) returns (alive: bool, exit: Exit, ghost own: seq<Action>)
      requires Valid() && w in workers && workers[w].Stored?
      modifies this, repo
      ensures Valid() && Follows(old(run), run, Thread(w), own) && EndDispatch(w) !in own && !EndsInDelete(own) && own != []
      ensures steady ==> alive && !exit.Raised?
      ensures alive <==> w in workers
      ensures alive ==> workers[w] == Unwinding(old(workers[w]).handle, old(workers[w]).claimed, exit)
    {
      hide ValidFrom, Exec, Follows;
      ghost var start := run;
      var answer := Answer();
      ghost var complete;
      exit, complete := CompleteJob(w, answer);
      alive, own := Survive(w, start, [complete]);
    }

    /** Put the report and record it: how the `with VisibilityHeartbeat` block is about to be left. */
    method InsideBlock(w: Id) returns (alive: bool, exit: Exit, ghost own: seq<Action>)
      requires Valid() && w in workers && workers[w].Working?
      modifies this, repo
      ensures Valid() && Follows(old(run), run, Thread(w), own) && EndDispatch(w) !in own && !EndsInDelete(own) && own != []
      ensures steady ==> alive && !exit.Raised?
      ensures alive <==> w in workers
      ensures alive ==> workers[w] == Unwinding(old(workers[w]).handle, old(workers[w]).claimed, exit)
    {
      hide ValidFrom, Exec, Follows;
      ghost var start := run;
      FollowsNothing(run, Thread(w));
      exit := Raised;
      alive, own := Survive(w, start, []);
      if !alive {
        return;
      }
      var answer := Answer();
      var key, put := PutCsvReport(w, answer);
      alive, own := Survive(w, start, [put]);
      if !alive || key.None? {
        return;
      }
      ghost var mid, recorded := run, [];
      alive, exit, recorded := Record(w);
      Chain(start, mid, run, Thread(w), own, recorded);
      own := own + recorded;
    }

    /** The whole block: put the report, record it, leave. */
    method CompleteClaimedJob(w: Id) returns (alive: bool, exit: Exit, ghost own: seq<Action>)
      requires Valid() && w in workers && workers[w].Working?
      modifies this, repo
      ensures Valid() && Follows(old(run), run, Thread(w), own) && EndDispatch(w) !in own && !EndsInDelete(own) && own != []
      ensures steady ==> alive && !exit.Raised? && own[|own| - 1].Leave?
      ensures alive <==> w in workers
      ensures alive ==>
                var was := old(workers[w]);
                workers[w] == match exit
                              case Returned => Deleting(was.handle, was.claimed)
                              case LostClaim => LoopTop
                              case Raised => Failing(was.handle, was.claimed)
    {
      hide ValidFrom, Exec, Follows;
      ghost var start := run;
      alive, exit, own := InsideBlock(w);
      if alive {
        ghost var mid := run;
        ghost var leave := LeaveHeartbeat(w);
        Chain(start, mid, run, Thread(w), own, [leave]);
        alive, own := Survive(w, start, own + [leave]);
      }
    }

    /** `consumer.delete` for a message found completed: outside the `try`, so an exception is fatal. */
    method DeleteDuplicate(w: Id) returns (end: Ending, ghost own: seq<Action>)
      requires Valid() && w in workers && workers[w].DeletingDuplicate?
      modifies this, repo
      ensures Valid() && Follows(old(run), run, Thread(w), own) && EndDispatch(w) !in own && own != []
      ensures steady ==> end.Handled?
      ensures if end.Died? then w !in workers else end.Handled? && w in workers && workers[w].LoopTop?
      ensures end.Handled? <==> EndsInDelete(own)
      ensures end.Handled? ==> var m := old(workers[w]).handle.msg; m in queue && IsCompleted(S(), queue[m].body.job)
    {
      hide ValidFrom, Exec, Follows;
      ghost var start := run;
      FollowsNothing(run, Thread(w));
      var alive;
      alive, own := Survive(w, start, []);
      if !alive {
        return Died, own;
      }
      var removes := Works();
      var replies := Works();
      var acked, delete := DeleteMessage(w, removes, replies);
      alive, own := Survive(w, start, [delete]);
      end := if alive then Handled else Died;
    }

    /** `repository.fail_job` in the handler: an exception there escapes. */
    method HandleFailure(w: Id, error: string) returns (end: Ending, ghost own: seq<Action>)
      requires Valid() && w in workers && workers[w].Failing?
      modifies this, repo
      ensures Valid() && Follows(old(run), run, Thread(w), own) && EndDispatch(w) !in own && own != [] && !EndsInDelete(own)
      ensures steady ==> end.NotHandled?
      ensures if end.Died? then w !in workers else end.NotHandled? && w in workers && workers[w].LoopTop?
    {
      hide ValidFrom, Exec, Follows;
      ghost var start := run;
      FollowsNothing(run, Thread(w));
      var alive;
      alive, own := Survive(w, start, []);
      if !alive {
        return Died, own;
      }
      ghost var failed := FailJob(w, error);
      alive, own := Survive(w, start, [failed]);
      end := if alive then NotHandled else Died;
    }

    /** What follows an acquired claim. */
    method WorkOn(w: Id, error: string) returns (end: Ending, ghost own: seq<Action>)
      requires Valid() && w in workers && workers[w].Working?
      modifies this, repo
      ensures Valid() && Follows(old(run), run, Thread(w), own) && EndDispatch(w) !in own && own != []
      ensures steady ==> end.Handled? || (end.NotHandled? && own[|own| - 1].Leave?)
      ensures if end.Died? then w !in workers else w in workers && workers[w].LoopTop?
      ensures end.Handled? <==> EndsInDelete(own)
      ensures end.Handled? ==> var m := old(workers[w]).handle.msg; m in queue && IsCompleted(S(), queue[m].body.job)
    {
      hide ValidFrom, Exec, Follows;
      ghost var start := run;
      var alive, exit;
      alive, exit, own := CompleteClaimedJob(w);
      if !alive || exit.LostClaim? {
        return if alive then NotHandled else Died, own;
      }
      ghost var mid := run;
      if exit.Returned? {
        var removes := Works();
      var replies := Works();
        var acked, delete := DeleteMessage(w, removes, replies);
        Chain(start, mid, run, Thread(w), own, [delete]);
        own := own + [delete];
        if acked {
          return Handled, own;
        }
        mid := run;
      }
      ghost var handler;
      end, handler := HandleFailure(w, error);
      Chain(start, mid, run, Thread(w), own, handler);
      own := own + handler;
    }

    /**
     True is returned exactly when the last thing done was an acknowledged delete, and then the job that the received
     message names is completed. Whatever else happens, the worker is back at the top of its loop or its process is gone.
     */
    method ConsumeOneMessage(w: Id, offer: Option<Offer>, error: string)
      returns (end: Ending, ghost own: seq<Action>, ghost asked: Time)
      requires Valid() && w in workers && workers[w].ReadyToReceive?
      modifies this, repo
      ensures Valid() && Follows(old(run), run, Thread(w), own) && EndDispatch(w) !in own
      ensures steady ==> !end.Died?
      ensures own != [] && (own[0].Receive? || own == [ReceiveNothing(w)])
      ensures own[0].Receive? ==> offer == Some(Offer(own[0].msg, own[0].duplicate, own[0].replied))
      ensures own[0].ReceiveNothing? && offer.Some? ==>
                var m := offer.value.msg;
                !(m in queue && queue[m].place == MainQueue && queue[m].receives < c.maxReceives &&
                  (offer.value.duplicate || queue[m].visibleAt <= asked))
      ensures steady && own[0].Receive? && own[0].replied ==>
                end.Handled? || (end.NotHandled? && (own[|own| - 1].LookUp? || own[|own| - 1].Leave?))
      ensures if end.Died? then w !in workers else w in workers && workers[w].LoopTop?
      ensures end.Handled? <==> EndsInDelete(own)
      ensures end.Handled? ==>
                && own[0].Receive? && own[0].w == w
                && own[0].msg in queue && IsCompleted(S(), queue[own[0].msg].body.job)
    {
      hide ValidFrom, Exec, Follows, IsCompleted;
      ghost var start := run;
      var received;
      ghost var receive;
      received, receive, asked := ReceiveJob(w, offer);
      own := [receive];
      if !received {
        return NotHandled, own, asked;
      }
      ghost var mid := run;
      var claim, claiming := ClaimTheJob(w);
      Chain(start, mid, run, Thread(w), own, claiming);
      own := own + claiming;
      mid := run;
      ghost var rest: seq<Action>;
      match claim {
        case ClaimDied => end := Died;
        case InProgressNotOwned => end := NotHandled;
        case DuplicateCompleted =>
          end, rest := DeleteDuplicate(w);
          Chain(start, mid, run, Thread(w), own, rest);
          own := own + rest;
        case Acquired(_) =>
          end, rest := WorkOn(w, error);
          Chain(start, mid, run, Thread(w), own, rest);
          own := own + rest;
      }
    }

    /* ---- dispatch_outbox ---- */

    /** `repository.claim_outbox_events`, the call as it returns; the rows come in any order. */
    method ClaimOutboxEvents(w: Id) returns (rows: seq<ClaimedEvent>, token: Id, ghost act: Action)
      requires Valid() && w in workers && workers[w].LoopTop?
      modifies this, repo
      ensures Valid() && Follows(old(run), run, Thread(w), [act]) && act.ClaimBatch? && w in workers
      ensures workers[w].Dispatching? && workers[w].batch == token
      ensures workers[w].todo.Keys == IdsOf(rows)
      ensures forall r :: r in rows ==> r.token == token && RowIs(r)
      ensures forall i, k :: 0 <= i < k < |rows| ==> rows[i].id != rows[k].id
      ensures |rows| <= c.limit
    {
      hide ValidFrom, Exec, Consistent, Follows, Reachable, Grows, Inv, IsBatch;
      ghost var start := Pause(Thread(w));
      var now := Clock();
      token := Uuid4();
      var locked: set<Id> := *;
      var before := S();
      ghost var free;
      rows, free := repo.ClaimOutboxEvents(c.limit, c.outboxLease, token, now, locked);
      var batch := set r | r in rows :: r.id;
      BatchIsClaimable(before.db, batch, locked, c.limit, now, c.outboxLease);
      act := ClaimBatch(w, token, batch, locked);
      Advance(start, Thread(w), before, At(now, ClaimBatch(w, token, batch, locked)));
    }

    /** A row the program was given names the payload the table still has. */
    ghost predicate RowIs(row: ClaimedEvent)
      reads repo
    {
      row.id in repo.outbox && repo.outbox[row.id].payload == row.payload
    }

    /** The schema check and `publisher.publish`. False is an exception, with or without the message sent. */
    method Publish(w: Id, row: ClaimedEvent, answer: Outcome) returns (sent: bool, ghost act: Action)
      requires Valid() && w in workers && workers[w].Dispatching? && row.id in workers[w].todo && RowIs(row)
      modifies this, repo
      ensures Valid() && Follows(old(run), run, Thread(w), [act]) && act.Publish? && w in workers
      ensures var was := old(workers[w]);
              if sent then workers[w].Sent? && workers[w].batch == was.batch && workers[w].todo == was.todo - {row.id}
                           && workers[w].event == row.id
              else workers[w] == Unsent(was.batch, was.todo - {row.id}, row.id)
      ensures act.outcome == if row.eventType == "job.created" && row.version == 1 then answer else NotDone
      ensures sent == act.outcome.Done? && (sent ==> workers[w].msg == act.msg)
      ensures !act.outcome.NotDone? ==>
                && act.msg in queue && queue[act.msg].body.version == 1 && queue[act.msg].body.eventType == "job.created"
                && queue[act.msg].body.job == row.payload.job && queue[act.msg].body.correlation == row.payload.correlation
                && queue[act.msg].place == MainQueue && queue[act.msg].receives == 0
    {
      hide ValidFrom, Exec, Consistent, Follows, Reachable, Inv, JobsGrow, QueueGrows, LogGrows, ResultsGrow, ArtifactsGrow;
      ghost var start := Pause(Thread(w));
      IsReachable();
      ReferencesHold(c, S());
      var before := S();
      var msg := Unused(queue.Keys);
      var now := Clock();
      RowIsOk(repo.Value(), row.id);
      var outcome := if SupportedSchema(row.eventType, row.version) then answer else NotDone;
      act := Action.Publish(w, row.id, msg, outcome);
      if Takes(outcome) {
        var body := NewBody(row.payload.job, row.payload.correlation);
        queue := queue[msg := Message(body, Grant(row.id, workers[w].todo[row.id]), 0, now, MainQueue)];
      }
      sent := outcome.Done?;
      Advance(start, Thread(w), before, At(now, Action.Publish(w, row.id, msg, outcome)));
    }

    /** How many rows this worker has moved to published so far, by marks whose reply arrived. */
    ghost function Heard(w: Id): nat
      requires Valid()
      reads this, repo
    {
      Moved(c, INITIAL, run, w, HEARD)
    }

    /** The transaction itself: it may be lost, or its reply may. */
    method TryMark(e: Id, token: Id, now: Time, outcome: Outcome) returns (moved: bool)
      requires repo.Valid()
      modifies repo
      ensures var was := old(repo.Value());
              && repo.Value() == (if Takes(outcome) then MarkPublished(was, e, token, now) else was)
              && moved == (Takes(outcome) && HoldsRow(was, e, token))
    {
      hide Consistent, HoldsRow, MarkPublished;
      moved := false;
      if Takes(outcome) {
        moved := repo.MarkOutboxPublished(e, token, now);
      }
    }

    /** `repository.mark_outbox_published`: true, false, or an exception. */
    method MarkOutboxPublished(w: Id, outcome: Outcome) returns (moved: bool)
      requires Valid() && w in workers && workers[w].Sent?
      modifies this, repo
      ensures Valid() && Follows(old(run), run, Thread(w), [MarkSent(w, outcome)]) && w in workers
      ensures var was := old(workers[w]);
              workers[w] == if outcome.Done? then Dispatching(was.batch, was.todo) else Unsent(was.batch, was.todo, was.event)
      ensures moved ==> Takes(outcome)
      ensures Heard(w) == old(Heard(w)) + (if moved && outcome.Done? then 1 else 0)
    {
      hide ValidFrom, Exec, Consistent, Follows, Reachable, Inv, Grows, HoldsRow, MarkPublished, Moved;
      ghost var start := Pause(Thread(w));
      MovedMeanwhile(c, start, run, w, [], HEARD);
      var before := S();
      var now := Clock();
      var event, batch := workers[w].event, workers[w].batch;
      moved := TryMark(event, batch, now, outcome);
      UnheldMark(before.db, event, batch, now);
      ghost var done := run;
      Advance(start, Thread(w), before, At(now, MarkSent(w, outcome)));
      MovedStep(c, done, before, At(now, MarkSent(w, outcome)), w, HEARD);
    }

    /** A row nobody holds under that token is left alone. */
    lemma UnheldMark(db: Db, e: Id, token: Id, now: Time)
      ensures !HoldsRow(db, e, token) ==> MarkPublished(db, e, token, now) == db
    {
    }

    /** `repository.mark_outbox_failed`, the call as it returns. */
    method MarkOutboxFailed(w: Id, error: string) returns (ghost act: Action)
      requires Valid() && w in workers && workers[w].Unsent?
      modifies this, repo
      ensures Valid() && Follows(old(run), run, Thread(w), [act]) && act.MarkUnsent? && w in workers
      ensures workers[w] == Dispatching(old(workers[w]).batch, old(workers[w]).todo)
    {
      hide ValidFrom, Exec, Consistent, Follows, Reachable, Inv, Grows;
      ghost var start := Pause(Thread(w));
      var before := S();
      var now := Clock();
      act := MarkUnsent(w, error);
      var moved := repo.MarkOutboxFailed(workers[w].event, workers[w].batch, error, now);
      Advance(start, Thread(w), before, At(now, MarkUnsent(w, error)));
    }

    /** The `except` branch. */
    method HandleUnsent(w: Id, error: string) returns (alive: bool, ghost own: seq<Action>)
      requires Valid() && w in workers && workers[w].Unsent?
      modifies this, repo
      ensures Valid() && Follows(old(run), run, Thread(w), own) && EndDispatch(w) !in own && forall a :: a in own ==> !a.MarkSent?
      ensures steady ==> alive
      ensures alive ==> w in workers && workers[w] == Dispatching(old(workers[w]).batch, old(workers[w]).todo)
      ensures !alive ==> w !in workers
    {
      hide ValidFrom, Exec, Follows;
      ghost var start := run;
      FollowsNothing(run, Thread(w));
      alive, own := Survive(w, start, []);
      if alive {
        ghost var act := MarkOutboxFailed(w, error);
        alive, own := Survive(w, start, [act]);
      }
    }

    /** Rows keep their payload, whatever anybody does. */
    lemma RowsRemain(before: seq<Step>, was: State, rows: seq<ClaimedEvent>, w: Id, own: seq<Action>)
      requires Valid() && ValidFrom(c, INITIAL, before) && was == Exec(c, INITIAL, before)
      requires Follows(before, run, Thread(w), own)
      requires forall r :: r in rows ==> r.id in was.db.outbox && was.db.outbox[r.id].payload == r.payload
      ensures forall r :: r in rows ==> RowIs(r)
    {
      hide ValidFrom, Exec, Own, JobsGrow, QueueGrows, LogGrows, ResultsGrow, ArtifactsGrow;
      PrefixGrows(c, before, run);
    }

    /** The `try` of one turn: publish, then mark. `counted` is what it adds to `dispatched`. */
    method TryDispatch(w: Id, row: ClaimedEvent) returns (alive: bool, counted: nat, ghost own: seq<Action>)
      requires Valid() && w in workers && workers[w].Dispatching? && row.id in workers[w].todo && RowIs(row)
      modifies this, repo
      ensures Valid() && Follows(old(run), run, Thread(w), own) && EndDispatch(w) !in own
      ensures steady ==> alive
      ensures alive <==> w in workers
      ensures var batch, rest := old(workers[w]).batch, old(workers[w]).todo - {row.id};
              alive ==> workers[w] in {Dispatching(batch, rest), Unsent(batch, rest, row.id)}
      ensures counted == Heard(w) - old(Heard(w)) && counted <= 1
    {
      hide ValidFrom, Exec, Follows, Moved;
      ghost var start := run;
      counted := 0;
      FollowsNothing(run, Thread(w));
      alive, own := Survive(w, start, []);
      if !alive {
        MovedMeanwhile(c, start, run, w, own, HEARD);
        return;
      }
      var answer := Answer();
      var sent, publish := Publish(w, row, answer);
      alive, own := Survive(w, start, [publish]);
      MovedMeanwhile(c, start, run, w, own, HEARD);
      if alive && sent {
        ghost var mid := run;
        var outcome := Answer();
        var moved := MarkOutboxPublished(w, outcome);
        Chain(start, mid, run, Thread(w), own, [MarkSent(w, outcome)]);
        own := own + [MarkSent(w, outcome)];
        counted := if moved && outcome.Done? then 1 else 0;
      }
    }

    /** One turn of the loop. */
    method DispatchOne(w: Id, row: ClaimedEvent, ghost rows: seq<ClaimedEvent>, error: string)
      returns (alive: bool, counted: nat, ghost own: seq<Action>)
      requires Valid() && w in workers && workers[w].Dispatching? && row.id in workers[w].todo
      requires row in rows && forall r :: r in rows ==> RowIs(r)
      modifies this, repo
      ensures Valid() && Follows(old(run), run, Thread(w), own) && EndDispatch(w) !in own
      ensures steady ==> alive
      ensures forall r :: r in rows ==> RowIs(r)
      ensures alive ==> w in workers && workers[w] == Dispatching(old(workers[w]).batch, old(workers[w]).todo - {row.id})
      ensures !alive ==> w !in workers
      ensures counted == Heard(w) - old(Heard(w)) && counted <= 1
    {
      hide ValidFrom, Exec, Follows, Moved;
      ghost var start, was := run, S();
      alive, counted, own := TryDispatch(w, row);
      if alive && workers[w].Unsent? {
        ghost var mid, handler := run, [];
        alive, handler := HandleUnsent(w, error);
        MovedMeanwhile(c, mid, run, w, handler, HEARD);
        Chain(start, mid, run, Thread(w), own, handler);
        own := own + handler;
      }
      RowsRemain(start, was, rows, w, own);
    }

    /** The `for` loop. */
    method DispatchRows(w: Id, rows: seq<ClaimedEvent>, error: string) returns (alive: bool, dispatched: nat, ghost own: seq<Action>)
      requires Valid() && w in workers && workers[w].Dispatching?
      requires workers[w].todo.Keys == IdsOf(rows) && forall r :: r in rows ==> RowIs(r)
      requires forall i, k :: 0 <= i < k < |rows| ==> rows[i].id != rows[k].id
      modifies this, repo
      ensures Valid() && Follows(old(run), run, Thread(w), own) && EndDispatch(w) !in own
      ensures steady ==> alive
      ensures if alive then w in workers && workers[w].Dispatching? && workers[w].todo == map[] else w !in workers
      ensures dispatched == Heard(w) - old(Heard(w)) && dispatched <= |rows|
    {
      hide ValidFrom, Exec, Follows, Moved, RowIs, IdsOf;
      ghost var start := run;
      FollowsNothing(run, Thread(w));
      alive, dispatched, own := true, 0, [];
      for i := 0 to |rows|
        invariant Valid() && alive && w in workers && workers[w].Dispatching?
        invariant workers[w].todo.Keys == IdsOf(rows[i..])
        invariant forall r :: r in rows ==> RowIs(r)
        invariant Follows(start, run, Thread(w), own) && EndDispatch(w) !in own
        invariant dispatched == Heard(w) - old(Heard(w)) && dispatched <= i
      {
        IdsAfter(rows, i);
        ghost var mid := run;
        var counted;
        ghost var turn;
        alive, counted, turn := DispatchOne(w, rows[i], rows, error);
        Chain(start, mid, run, Thread(w), own, turn);
        own := own + turn;
        dispatched := dispatched + counted;
        if !alive {
          return;
        }
      }
      NoIdsLeft(rows);
    }

    lemma NoIdsLeft(rows: seq<ClaimedEvent>)
      ensures IdsOf(rows[|rows|..]) == {}
    {
    }

    /**
     `dispatched` is exactly the number of rows this call moved to published by marks whose reply arrived. So the rows it
     moved are those and the ones moved by lost-reply marks, and the count is right if and only if no such mark took effect.
     */
    method DispatchOutbox(w: Id, error: string) returns (alive: bool, dispatched: nat, ghost own: seq<Action>)
      requires Valid() && w in workers && workers[w].LoopTop?
      modifies this, repo
      ensures Valid() && Follows(old(run), run, Thread(w), own) && multiset(own)[EndDispatch(w)] == if alive then 1 else 0
      ensures steady ==> alive
      ensures if alive then w in workers && workers[w].ReadyToReceive? else w !in workers
      ensures dispatched <= c.limit
      ensures MovedSince(c, old(run), run, w, ANY) == dispatched + MovedSince(c, old(run), run, w, UNHEARD)
      ensures dispatched == MovedSince(c, old(run), run, w, ANY) <==>
              forall i :: !MovedUnheard(c, Exec(c, INITIAL, old(run)), run[|old(run)|..], w, i)
    {
      hide ValidFrom, Exec, Moved, RowIs, IdsOf, MovedUnheard, Own;
      alive, dispatched, own := DispatchBatch(w, error);
      ExactUnlessUnheard(c, old(run), run, w);
    }

    /** Claim a batch, then the loop. */
    method DispatchBatch(w: Id, error: string) returns (alive: bool, dispatched: nat, ghost own: seq<Action>)
      requires Valid() && w in workers && workers[w].LoopTop?
      modifies this, repo
      ensures Valid() && Follows(old(run), run, Thread(w), own) && multiset(own)[EndDispatch(w)] == if alive then 1 else 0
      ensures steady ==> alive
      ensures if alive then w in workers && workers[w].ReadyToReceive? else w !in workers
      ensures dispatched == Heard(w) - old(Heard(w)) && dispatched <= c.limit
    {
      hide ValidFrom, Exec, Follows, Moved, IdsOf;
      dispatched := 0;
      ghost var start := run;
      FollowsNothing(run, Thread(w));
      alive, own := Survive(w, start, []);
      if !alive {
        MovedMeanwhile(c, start, run, w, own, HEARD);
        return;
      }
      var rows, token, claim := ClaimOutboxEvents(w);
      alive, own := Survive(w, start, [claim]);
      MovedMeanwhile(c, start, run, w, own, HEARD);
      if !alive {
        return;
      }
      ghost var mid, more := run, [];
      alive, dispatched, more := DispatchRows(w, rows, error);
      Chain(start, mid, run, Thread(w), own, more);
      own := own + more;
      if alive {
        mid := run;
        more := [EndDispatch(w)];
        EndTurn(w);
        MovedMeanwhile(c, mid, run, w, more, HEARD);
        Chain(start, mid, run, Thread(w), own, more);
        own := own + more;
      }
    }

    /** The loop has run out of rows. */
    method EndTurn(w: Id)
      requires Valid() && w in workers && workers[w].Dispatching? && workers[w].todo == map[]
      modifies this, repo
      ensures Valid() && Follows(old(run), run, Thread(w), [EndDispatch(w)])
      ensures w in workers && workers[w].ReadyToReceive?
    {
      hide ValidFrom, Exec, Consistent, Follows, Reachable, Inv, Grows;
      ghost var start := Pause(Thread(w));
      var now := Clock();
      Advance(start, Thread(w), S(), At(now, EndDispatch(w)));
    }

    /* ---- the worker's loop ---- */

    /** `while not shutdown_requested`: `turns` turns begin before the request is seen, and each ends as it would have anyway. */
    method RunWorker(w: Id, turns: nat, error: string) returns (alive: bool, ghost own: seq<Action>)
      requires Valid() && w in workers && workers[w].LoopTop?
      modifies this, repo
      ensures Valid() && Follows(old(run), run, Thread(w), own)
      ensures steady ==> alive
      ensures if alive then w in workers && workers[w].LoopTop? && multiset(own)[EndDispatch(w)] == turns else w !in workers
    {
      hide ValidFrom, Exec, Follows, Moved, IsCompleted, MovedSince, MovedUnheard;
      ghost var start := run;
      FollowsNothing(run, Thread(w));
      alive, own := true, [];
      for turn := 0 to turns
        invariant Valid() && alive && Follows(start, run, Thread(w), own)
        invariant w in workers && workers[w].LoopTop? && multiset(own)[EndDispatch(w)] == turn
      {
        ghost var mid, done := run, [];
        var dispatched;
        alive, dispatched, done := DispatchOutbox(w, error);
        Chain(start, mid, run, Thread(w), own, done);
        own := own + done;
        if alive {
          alive, own := Survive(w, start, own);
        }
        if !alive {
          return;
        }
        mid := run;
        var offer: Option<Offer> := *;
        var end;
        ghost var asked;
        end, done, asked := ConsumeOneMessage(w, offer, error);
        Chain(start, mid, run, Thread(w), own, done);
        own := own + done;
        if end.Died? {
          return false, own;
        }
      }
    }

    /* ---- VisibilityHeartbeat._run ---- */

    /** `self._stop.wait`: the stop event is set, or the wait times out and the thread wakes. */
    method AwaitStop(t: Id) returns (silence: Silence, ghost own: seq<Action>)
      requires Valid() && t in beats && beats[t].at.Waiting?
      modifies this, repo
      ensures Valid() && Follows(old(run), run, Heart(t), own)
      ensures if silence.StillBeating? then t in beats && beats[t] == old(beats[t]).(at := Awake) && !beats[t].stop && |own| == 1
              else t !in beats && (silence.Stopped? || silence.ProcessEnded?)
      ensures silence.Stopped? ==> own == [EndBeat(t)]
      ensures silence.StillBeating? ==> own == [Wake(t)]
    {
      hide ValidFrom, Exec, Consistent, Follows, Reachable, Inv, Grows;
      ghost var start := Pause(Heart(t));
      var now := Clock();
      if t !in beats {
        silence, own := ProcessEnded, [];
      } else if beats[t].stop {
        silence, own := Stopped, [EndBeat(t)];
        Advance(start, Heart(t), S(), At(now, EndBeat(t)));
      } else {
        silence, own := StillBeating, [Wake(t)];
        Advance(start, Heart(t), S(), At(now, Wake(t)));
      }
    }

    /** An exception in the renewal, which is not inside the `try`, ends the thread. */
    method MayFall(t: Id) returns (silence: Silence, ghost own: seq<Action>)
      requires Valid() && t in beats && !beats[t].at.Waiting?
      modifies this, repo
      ensures Valid() && Follows(old(run), run, Heart(t), own)
      ensures steady ==> silence.StillBeating?
      ensures silence.StillBeating? ==> own == [] && run == old(run) && S() == old(S())
      ensures !silence.StillBeating? ==> silence.RenewalRaised? && own == [EndBeat(t)] && t !in beats
    {
      hide ValidFrom, Exec, Consistent, Follows, Reachable, Inv, Grows;
      var fine := Works();
      FollowsNothing(run, Heart(t));
      silence, own := StillBeating, [];
      if !fine {
        var now := Clock();
        silence, own := RenewalRaised, [EndBeat(t)];
        Advance(run, Heart(t), S(), At(now, EndBeat(t)));
      }
    }

    /** `repository.renew_job_processing_lease`, the call as it returns. */
    method RenewLeaseCall(t: Id) returns (silence: Silence, ghost own: seq<Action>)
      requires Valid() && t in beats && beats[t].at.Awake?
      modifies this, repo
      ensures Valid() && Follows(old(run), run, Heart(t), own)
      ensures if silence.StillBeating? then
                && t in beats && SameThread(beats[t], old(beats[t])) && beats[t].at.Extending? && own == [Renew(t)]
                && HoldsJob(S().db, beats[t].job, t)
              else t !in beats && (silence.LostOwnership? || silence.ProcessEnded?)
      ensures silence.LostOwnership? ==> own == [Renew(t)] && !HoldsJob(S().db, old(beats[t]).job, t)
    {
      hide ValidFrom, Exec, Consistent, Follows, Reachable, Inv, Grows;
      ghost var start := Pause(Heart(t));
      if t !in beats {
        return ProcessEnded, [];
      }
      own := [Renew(t)];
      var before := S();
      var now := Clock();
      var renewed := repo.RenewJobProcessingLease(beats[t].job, t, now);
      silence := if renewed then StillBeating else LostOwnership;
      Advance(start, Heart(t), before, At(now, Renew(t)));
    }

    /** `consumer.change_visibility`: whether it works or raises, the thread goes on. */
    method ChangeVisibility(t: Id, works: bool) returns (silence: Silence, ghost own: seq<Action>, ghost now: Time)
      requires Valid() && t in beats && beats[t].at.Extending?
      modifies this, repo
      ensures Valid() && Follows(old(run), run, Heart(t), own)
      ensures if silence.StillBeating? then t in beats && SameThread(beats[t], old(beats[t])) && beats[t].at.Waiting? && |own| == 1
              else t !in beats && silence.ProcessEnded?
      ensures silence.StillBeating? ==>
                && own[0].Extend?
                && (own[0].extended <==> works && old(beats[t]).handle.msg in queue && queue[old(beats[t]).handle.msg].place == MainQueue)
      ensures silence.StillBeating? && own[0].extended ==>
                var m := old(beats[t]).handle.msg; m in queue && queue[m].visibleAt == now + c.visibility
    {
      hide ValidFrom, Exec, Consistent, Follows, Reachable, Inv, Grows;
      ghost var start := Pause(Heart(t));
      now := 0;
      if t !in beats {
        return ProcessEnded, [], now;
      }
      var before := S();
      var clock := Clock();
      now := clock;
      var m := beats[t].handle.msg;
      var extended := works && m in queue && queue[m].place.MainQueue?;
      if extended {
        queue := queue[m := queue[m].(visibleAt := clock + c.visibility)];
      }
      own := [Extend(t, extended)];
      silence := StillBeating;
      Advance(start, Heart(t), before, At(clock, Extend(t, extended)));
    }

    /** Renew, then extend: one turn of the loop once the thread is awake. */
    method RenewAndExtend(t: Id) returns (silence: Silence, ghost own: seq<Action>)
      requires Valid() && t in beats && beats[t].at.Awake?
      modifies this, repo
      ensures Valid() && Follows(old(run), run, Heart(t), own)
      ensures steady ==> !silence.RenewalRaised?
      ensures if silence.StillBeating? then t in beats && SameThread(beats[t], old(beats[t])) && beats[t].at.Waiting? && |own| == 2
              else t !in beats && !silence.Stopped?
      ensures silence.LostOwnership? ==> own == [Renew(t)] && !HoldsJob(S().db, old(beats[t]).job, t)
      ensures silence.RenewalRaised? ==> own == [EndBeat(t)] || own == [Renew(t), EndBeat(t)]
    {
      hide ValidFrom, Exec, Follows, HoldsJob;
      ghost var start, more := run, [];
      silence, own := MayFall(t);
      if !silence.StillBeating? {
        return;
      }
      silence, own := RenewLeaseCall(t);
      if !silence.StillBeating? {
        return;
      }
      ghost var mid := run;
      silence, more := MayFall(t);
      Chain(start, mid, run, Heart(t), own, more);
      own := own + more;
      if silence.StillBeating? {
        mid := run;
        ghost var clock;
        var works := Works();
        silence, more, clock := ChangeVisibility(t, works);
        Chain(start, mid, run, Heart(t), own, more);
        own := own + more;
      }
    }

    /** One turn of the loop: wait, renew, extend. */
    method HeartbeatTurn(t: Id) returns (silence: Silence, ghost own: seq<Action>)
      requires Valid() && t in beats && beats[t].at.Waiting?
      modifies this, repo
      ensures Valid() && Follows(old(run), run, Heart(t), own)
      ensures steady ==> !silence.RenewalRaised?
      ensures if silence.StillBeating? then t in beats && SameThread(beats[t], old(beats[t])) && beats[t].at.Waiting? && |own| == 3
              else t !in beats
      ensures silence.Stopped? ==> own == [EndBeat(t)]
      ensures silence.LostOwnership? ==> own == [Wake(t), Renew(t)] && !HoldsJob(S().db, old(beats[t]).job, t)
      ensures silence.RenewalRaised? ==> own == [Wake(t), EndBeat(t)] || own == [Wake(t), Renew(t), EndBeat(t)]
    {
      hide ValidFrom, Exec, Follows, HoldsJob;
      ghost var start, more := run, [];
      silence, own := AwaitStop(t);
      if silence.StillBeating? {
        ghost var mid := run;
        silence, more := RenewAndExtend(t);
        Chain(start, mid, run, Heart(t), own, more);
        own := own + more;
      }
    }

    /**
     At most `wakeups` turns. As long as the thread lives every turn renews once and then asks for one extension. It ends
     for want of ownership only when the token no longer holds the job, and it never ends for a failed extension. A renewal
     that raises, before or after it took effect, ends it in the middle of its turn.
     */
    method RunHeartbeat(t: Id, wakeups: nat) returns (silence: Silence, ghost own: seq<Action>)
      requires Valid() && t in beats && beats[t].at.Waiting?
      modifies this, repo
      ensures Valid() && Follows(old(run), run, Heart(t), own)
      ensures steady ==> !silence.RenewalRaised?
      ensures if silence.StillBeating? then t in beats && beats[t].at.Waiting? && |own| == 3 * wakeups else t !in beats
      ensures silence.Stopped? ==> |own| % 3 == 1 && own[|own| - 1] == EndBeat(t)
      ensures silence.LostOwnership? ==>
                |own| % 3 == 2 && own[|own| - 1] == Renew(t) && !HoldsJob(S().db, old(beats[t]).job, t)
      ensures silence.RenewalRaised? ==>
                && 2 <= |own| && own[|own| - 1] == EndBeat(t) && own[|own| - 2] in {Wake(t), Renew(t)}
                && |own| % 3 == if own[|own| - 2] == Wake(t) then 2 else 0
    {
      hide ValidFrom, Exec, Follows, HoldsJob;
      ghost var start, more := run, [];
      FollowsNothing(run, Heart(t));
      silence, own := StillBeating, [];
      for turn := 0 to wakeups
        invariant Valid() && Follows(start, run, Heart(t), own) && silence.StillBeating?
        invariant t in beats && SameThread(beats[t], old(beats[t])) && beats[t].at.Waiting? && |own| == 3 * turn
      {
        ghost var mid := run;
        silence, more := HeartbeatTurn(t);
        Chain(start, mid, run, Heart(t), own, more);
        own := own + more;
        if !silence.StillBeating? {
          return;
        }
      }
    }
  }
}
