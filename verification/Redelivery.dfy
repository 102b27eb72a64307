/**
 After a holder's crash: how often its message can come back before the job is claimable, and whether the message
 outlasts that under the queue's receive limit.
 */
module Redelivery {
  import opened Basics
  import opened Tables
  import opened Outbox
  import opened Pipeline
  import opened Frames
  import opened Invariant
  import opened Preservation
  import opened Safety
  import opened Recovery

  /** Every receive of the run waits for the visibility timeout. */
  predicate NoDuplicates(run: seq<Step>) {
    forall i :: 0 <= i < |run| ==> run[i].act.Receive? ==> !run[i].act.duplicate
  }

  predicate AllSmooth(run: seq<Step>) {
    forall i :: 0 <= i < |run| ==> Smooth(run[i].act)
  }

  lemma SmoothNoDuplicates(run: seq<Step>)
    requires AllSmooth(run)
    ensures NoDuplicates(run)
  {
    forall i | 0 <= i < |run| ensures run[i].act.Receive? ==> !run[i].act.duplicate {
      assert Smooth(run[i].act);
    }
  }

  predicate EndsBy(run: seq<Step>, limit: Time) {
    forall i :: 0 <= i < |run| ==> run[i].now <= limit
  }

  /** What one step does to a message's receive count and visibility. */
  lemma MessageTick(c: Config, s: State, now: Time, a: Action, m: Id)
    requires Enabled(c, s, now, a) && m in s.queue && 0 < c.visibility
    requires s.queue[m].visibleAt <= now + c.visibility && (a.Receive? ==> !a.duplicate)
    ensures var t := Next(c, s, now, a);
            && m in t.queue && t.queue[m].visibleAt <= now + c.visibility
            && (t.queue[m].receives == s.queue[m].receives ==> s.queue[m].visibleAt <= t.queue[m].visibleAt)
            && (t.queue[m].receives != s.queue[m].receives ==>
                  && t.queue[m].receives == s.queue[m].receives + 1
                  && s.queue[m].visibleAt <= now && t.queue[m].visibleAt == now + c.visibility)
  {
    if TouchesQueue(a) {
      hide IsBatch, NextClaimBatch, NextMarkSent, NextClaimJob, NextLookUp, NextPut, NextComplete, NextLeave, NextRenew, Die;
    } else {
      hide Next, Enabled;
      QueueStill(c, s, now, a);
    }
  }

  /** k receives take the visibility timeout k - 1 times, from the first moment the message is visible. */
  lemma {:induction false} ReceivesAreSpaced(c: Config, s: State, run: seq<Step>, m: Id, from: Time, limit: Time)
    requires 0 < c.visibility && m in s.queue && s.queue[m].visibleAt <= from + c.visibility
    requires ValidFrom(c, s, run) && Monotone(run, from) && NoDuplicates(run) && EndsBy(run, limit)
    ensures m in Exec(c, s, run).queue && s.queue[m].receives <= Exec(c, s, run).queue[m].receives
    ensures var k := Exec(c, s, run).queue[m].receives - s.queue[m].receives;
            0 < k ==> s.queue[m].visibleAt + c.visibility * (k - 1) <= limit
    decreases |run|
  {
    hide Next, Enabled;
    if run != [] {
      var a, now := run[0].act, run[0].now;
      var t := Next(c, s, now, a);
      MessageTick(c, s, now, a, m);
      ReceivesAreSpaced(c, t, run[1..], m, now, limit);
      var rest := Exec(c, t, run[1..]).queue[m].receives - t.queue[m].receives;
      if 0 < rest && t.queue[m].receives != s.queue[m].receives {
        assert c.visibility * rest == c.visibility * (rest - 1) + c.visibility;
      }
    }
  }

  /**
   The job was last stamped at `sigma`, the message's visibility last set at `sigma - lag`. Until the lease runs out,
   the message is redelivered at most floor((lease + lag) / visibility) times.
   */
  lemma RedeliveryBound(c: Config, s: State, run: seq<Step>, m: Id, sigma: Time, lag: int, from: Time)
    requires 0 < c.visibility && 0 <= c.jobLease + lag
    requires m in s.queue && s.queue[m].visibleAt == sigma - lag + c.visibility && sigma - lag <= from
    requires ValidFrom(c, s, run) && Monotone(run, from) && NoDuplicates(run) && EndsBy(run, sigma + c.jobLease)
    ensures m in Exec(c, s, run).queue
    ensures Exec(c, s, run).queue[m].receives <= s.queue[m].receives + (c.jobLease + lag) / c.visibility
  {
    hide ValidFrom, Exec, Monotone;
    ReceivesAreSpaced(c, s, run, m, from, sigma + c.jobLease);
    var k := Exec(c, s, run).queue[m].receives - s.queue[m].receives;
    if 0 < k {
      assert c.visibility * (k - 1) + c.visibility == c.visibility * k;
      AtMostQuotient(k, c.jobLease + lag, c.visibility);
    }
  }

  lemma AtMostQuotient(k: int, n: int, v: int)
    requires 0 < v && v * k <= n && 0 <= n
    ensures k <= n / v
  {
    var q := n / v;
    assert n == v * q + n % v;
    assert v * (q + 1) == v * q + v;
    Times(v, q + 1, k);
  }

  lemma Times(v: int, a: int, b: int)
    requires 0 < v
    ensures a <= b ==> v * a <= v * b
  {
  }

  /* ---- the schedule that uses every one of those redeliveries ---- */

  /** The message's job is held, fresh until the window's end. */
  predicate Fresh(c: Config, s: State, j: Id, sigma: Time) {
    j in s.db.jobs && s.db.jobs[j].status.Processing? && s.db.jobs[j].startedAt == Some(sigma)
  }

  lemma ReceiveOne(c: Config, s: State, w: Id, m: Id, now: Time) returns (run: seq<Step>, u: State)
    requires w in s.workers && s.workers[w].ReadyToReceive? && Offered(c, s, m, now)
    ensures Path(c, s, run, u, now) && u.db == s.db
    ensures w in u.workers && u.workers == s.workers[w := u.workers[w]]
    ensures u.workers[w].Received? && u.workers[w].job == s.queue[m].body.job
    ensures m in u.queue && u.queue[m] == s.queue[m].(receives := s.queue[m].receives + 1, visibleAt := now + c.visibility)
  {
    hide Path;
    var a := Receive(w, m, false, true);
    PathStep(c, s, a, now);
    run, u := [At(now, a)], NextReceive(c, s, now, w, m, true);
  }

  lemma Refused(c: Config, s: State, w: Id, now: Time, sigma: Time) returns (run: seq<Step>, u: State)
    requires w in s.workers && s.workers[w].Received? && Fresh(c, s, s.workers[w].job, sigma) && now <= sigma + c.jobLease
    ensures Path(c, s, run, u, now) && u.db == s.db && u.queue == s.queue && u.workers == s.workers[w := LoopTop]
  {
    hide Path;
    var token := FreshId(s.log.issued);
    var a := ClaimJob(w, token);
    PathStep(c, s, a, now);
    var t := NextClaimJob(c, s, now, w, token);
    PathStep(c, t, LookUp(w), now);
    u := NextLookUp(t, w);
    PathJoin(c, s, [At(now, a)], t, [At(now, LookUp(w))], u, now);
    run := [At(now, a)] + [At(now, LookUp(w))];
  }

  /** One worker turn that receives the message the moment it is visible, and is turned away. */
  lemma TurnedAwayOnce(c: Config, s: State, w: Id, m: Id, now: Time, sigma: Time) returns (run: seq<Step>, u: State)
    requires Inv(c, s) && w in s.workers && s.workers[w].LoopTop? && 0 < c.maxReceives
    requires Offered(c, s, m, now) && s.queue[m].visibleAt == now
    requires Fresh(c, s, s.queue[m].body.job, sigma) && now <= sigma + c.jobLease
    ensures Path(c, s, run, u, now) && u.db.jobs == s.db.jobs && u.workers == s.workers
    ensures m in u.queue && u.queue[m] == s.queue[m].(receives := s.queue[m].receives + 1, visibleAt := now + c.visibility)
  {
    hide Path, Inv, IsBatch, Announced, DispatchCall;
    var first, t, batch, token := Round(c, s, w, now);
    assert Offered(c, t, m, now);
    var second, v := ReceiveOne(c, t, w, m, now);
    PathJoin(c, s, first, t, second, v, now);
    var third, x := Refused(c, v, w, now, sigma);
    PathJoin(c, s, first + second, v, third, x, now);
    run, u := first + second + third, x;
  }

  lemma PathIsOrderly(c: Config, s: State, run: seq<Step>, u: State, now: Time)
    requires Path(c, s, run, u, now)
    ensures AllSmooth(run) && EndsBy(run, now) && Monotone(run, now)
  {
    hide ValidFrom, Exec;
    InstantMonotone(run, now);
  }

  /** `turns` redeliveries, each turned away, one visibility timeout apart. */
  lemma {:induction false} TurnedAwayRepeatedly(c: Config, s: State, w: Id, m: Id, sigma: Time, turns: nat)
    returns (run: seq<Step>)
    requires Inv(c, s) && w in s.workers && s.workers[w].LoopTop? && 0 < c.visibility
    requires m in s.queue && s.queue[m].place.MainQueue? && s.queue[m].receives + turns <= c.maxReceives
    requires Fresh(c, s, s.queue[m].body.job, sigma)
    requires 0 < turns ==> s.queue[m].visibleAt + c.visibility * (turns - 1) <= sigma + c.jobLease
    ensures ValidFrom(c, s, run) && AllSmooth(run) && EndsBy(run, sigma + c.jobLease)
    ensures Monotone(run, s.queue[m].visibleAt)
    ensures var u := Exec(c, s, run);
            && u.db.jobs == s.db.jobs && u.workers == s.workers
            && m in u.queue && u.queue[m].place.MainQueue? && u.queue[m].receives == s.queue[m].receives + turns
            && u.queue[m].visibleAt == s.queue[m].visibleAt + c.visibility * turns
    decreases turns
  {
    hide Path, Inv, Grows, Fresh, Enabled, Next, AllSmooth, EndsBy;
    if turns == 0 {
      run := [];
      NothingIsOrderly(sigma + c.jobLease);
    } else {
      var now := s.queue[m].visibleAt;
      MessageSupported(c, s, m);
      assert now <= sigma + c.jobLease by { FirstIsEarlier(now, c.visibility, turns - 1, sigma + c.jobLease); }
      assert Offered(c, s, m, now);
      var first, t := TurnedAwayOnce(c, s, w, m, now, sigma);
      assert c.visibility * turns == c.visibility * (turns - 1) + c.visibility;
      PathKeeps(c, s, first, t, now);
      PathIsOrderly(c, s, first, t, now);
      assert Fresh(c, t, t.queue[m].body.job, sigma) by { StillFresh(c, s, t, s.queue[m].body.job, sigma); }
      if 1 < turns {
        assert c.visibility * (turns - 1) == c.visibility * (turns - 2) + c.visibility;
      }
      var more := TurnedAwayRepeatedly(c, t, w, m, sigma, turns - 1);
      PathRuns(c, s, first, t, now);
      ExecAppend(c, s, first, more);
      run := first + more;
      Orderly(first, more, now, now + c.visibility, sigma + c.jobLease);
    }
  }

  lemma NothingIsOrderly(limit: Time)
    ensures AllSmooth([]) && EndsBy([], limit)
  {
  }

  lemma FirstIsEarlier(now: Time, v: int, k: nat, limit: Time)
    requires 0 < v && now + v * k <= limit
    ensures now <= limit
  {
    assert 0 <= v * k;
  }

  lemma StillFresh(c: Config, s: State, t: State, j: Id, sigma: Time)
    requires Fresh(c, s, j, sigma) && t.db.jobs == s.db.jobs
    ensures Fresh(c, t, j, sigma)
  {
  }

  lemma PathRuns(c: Config, s: State, run: seq<Step>, u: State, now: Time)
    requires Path(c, s, run, u, now)
    ensures ValidFrom(c, s, run) && Exec(c, s, run) == u
    ensures forall i :: 0 <= i < |run| ==> run[i].now == now
  {
    hide ValidFrom, Exec;
  }

  lemma Orderly(first: seq<Step>, more: seq<Step>, now: Time, later: Time, limit: Time)
    requires AllSmooth(first) && AllSmooth(more) && EndsBy(first, now) && EndsBy(more, limit) && now <= limit
    requires Monotone(first, now) && Monotone(more, later) && now <= later
    ensures AllSmooth(first + more) && EndsBy(first + more, limit) && Monotone(first + more, now)
  {
    hide Monotone;
    assert forall i :: 0 <= i < |first| ==> first[i].now <= later;
    MonotoneAppend(first, more, now, later);
  }

  /* ---- does the message outlast the lease? ---- */

  /** Some orderly run within the lease uses up the message's receives with the job still held. */
  ghost predicate MayExhaust(c: Config, s: State, m: Id, sigma: Time, from: Time) {
    exists run :: Exhausts(c, s, run, m, sigma, from)
  }

  ghost predicate Exhausts(c: Config, s: State, run: seq<Step>, m: Id, sigma: Time, from: Time) {
    && m in s.queue
    && ValidFrom(c, s, run) && Monotone(run, from) && NoDuplicates(run) && EndsBy(run, sigma + c.jobLease)
    && var u := Exec(c, s, run);
       && m in u.queue && c.maxReceives <= u.queue[m].receives
       && s.queue[m].body.job in u.db.jobs && !IsCompleted(u, s.queue[m].body.job)
  }

  /**
   A dead holder's message can run out of receives before the job becomes claimable if and only if its receives so
   far plus floor((lease + lag) / visibility) reach the queue's limit.
   */
  lemma ExhaustedIff(c: Config, s: State, m: Id, sigma: Time, lag: int, from: Time)
    requires Reachable(c, s) && 0 < c.visibility && 0 <= c.jobLease + lag
    requires m in s.queue && s.queue[m].place.MainQueue? && Fresh(c, s, s.queue[m].body.job, sigma)
    requires s.queue[m].visibleAt == sigma - lag + c.visibility && sigma - lag <= from <= s.queue[m].visibleAt
    ensures MayExhaust(c, s, m, sigma, from) <==>
            c.maxReceives <= s.queue[m].receives + (c.jobLease + lag) / c.visibility
  {
    hide Inv, Reachable, ValidFrom, Exec, Monotone, NoDuplicates, EndsBy;
    if c.maxReceives <= s.queue[m].receives + (c.jobLease + lag) / c.visibility {
      var run := ExhaustingRun(c, s, m, sigma, lag, from);
      assert Exhausts(c, s, run, m, sigma, from);
    }
    if MayExhaust(c, s, m, sigma, from) {
      var run :| Exhausts(c, s, run, m, sigma, from);
      RedeliveryBound(c, s, run, m, sigma, lag, from);
    }
  }

  lemma ExhaustingRun(c: Config, s: State, m: Id, sigma: Time, lag: int, from: Time) returns (run: seq<Step>)
    requires Reachable(c, s) && 0 < c.visibility && 0 <= c.jobLease + lag
    requires m in s.queue && s.queue[m].place.MainQueue? && Fresh(c, s, s.queue[m].body.job, sigma)
    requires s.queue[m].visibleAt == sigma - lag + c.visibility && from <= s.queue[m].visibleAt
    requires c.maxReceives <= s.queue[m].receives + (c.jobLease + lag) / c.visibility
    ensures Exhausts(c, s, run, m, sigma, from) && AllSmooth(run)
    ensures var u := Exec(c, s, run);
            && u.db.jobs == s.db.jobs && u.queue[m].receives == c.maxReceives
            && forall w :: w in u.workers ==> u.workers[w].LoopTop? || (w in s.workers && u.workers[w] == s.workers[w])
  {
    hide Inv, Reachable, Path, NoDuplicates, AllSmooth, EndsBy, Enabled, Next;
    ReachableInv(c, s);
    WithinLimit(c, s, m);
    var turns := c.maxReceives - s.queue[m].receives;
    var now := s.queue[m].visibleAt;
    if turns == 0 {
      run := [];
      NothingIsOrderly(sigma + c.jobLease);
    } else {
      assert c.visibility * (turns - 1) + c.visibility <= c.jobLease + lag by {
        QuotientTimes(turns, c.jobLease + lag, c.visibility);
      }
      FirstIsEarlier(now, c.visibility, turns - 1, sigma + c.jobLease);
      var first, t, w := NewWorker(c, s, now);
      PathRuns(c, s, first, t, now);
      PathIsOrderly(c, s, first, t, now);
      var more := TurnedAwayRepeatedly(c, t, w, m, sigma, turns);
      ExecAppend(c, s, first, more);
      Orderly(first, more, now, now, sigma + c.jobLease);
      run := first + more;
      StartsEarlier(run, now, from);
    }
    SmoothNoDuplicates(run);
  }

  lemma StartsEarlier(run: seq<Step>, now: Time, from: Time)
    requires Monotone(run, now) && from <= now
    ensures Monotone(run, from)
  {
  }

  lemma WithinLimit(c: Config, s: State, m: Id)
    requires Inv(c, s) && m in s.queue
    ensures s.queue[m].receives <= c.maxReceives
  {
    hide Inv, Consistent, AllApart, JobsOk, ClaimsOk, OutboxOk, GrantsOk, DeliveriesOk, ArtifactsOk, RecordsOk, WorkersOk, BeatsOk;
    Parts(c, s);
    assert MessageOk(c, s, m);
  }

  lemma QuotientTimes(k: int, n: int, v: int)
    requires 0 < v && k <= n / v && 0 <= n
    ensures v * (k - 1) + v <= n
  {
    assert n == v * (n / v) + n % v;
    assert v * k <= v * (n / v);
    assert v * (k - 1) + v == v * k;
  }

  /* ---- the deployed values ---- */

  /** Lease 120, visibility timeout 60, at most 3 receives. */
  predicate Deployed(c: Config) {
    c.jobLease == 120 && c.visibility == 60 && c.maxReceives == 3
  }

  /**
   With the deployed values at most 2 redeliveries are turned away; but they and the crashed holder's own receive are
   already the 3 that the queue allows.
   */
  lemma DeployedCrash(c: Config, s: State, m: Id, sigma: Time, lag: int, from: Time)
    requires Deployed(c) && Reachable(c, s) && 0 <= lag < 60
    requires m in s.queue && s.queue[m].place.MainQueue? && Fresh(c, s, s.queue[m].body.job, sigma)
    requires s.queue[m].visibleAt == sigma - lag + c.visibility && sigma - lag <= from <= s.queue[m].visibleAt
    ensures forall run :: ValidFrom(c, s, run) && Monotone(run, from) && NoDuplicates(run) && EndsBy(run, sigma + c.jobLease) ==>
              m in Exec(c, s, run).queue && Exec(c, s, run).queue[m].receives <= s.queue[m].receives + 2
    ensures MayExhaust(c, s, m, sigma, from) <==> 1 <= s.queue[m].receives
  {
    hide ValidFrom, Exec, Monotone, NoDuplicates, EndsBy, Reachable, MayExhaust;
    assert (c.jobLease + lag) / c.visibility == 2;
    ExhaustedIff(c, s, m, sigma, lag, from);
    forall run | ValidFrom(c, s, run) && Monotone(run, from) && NoDuplicates(run) && EndsBy(run, sigma + c.jobLease)
      ensures m in Exec(c, s, run).queue && Exec(c, s, run).queue[m].receives <= s.queue[m].receives + 2
    {
      RedeliveryBound(c, s, run, m, sigma, lag, from);
    }
  }
}
