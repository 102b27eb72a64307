/** Leases: the validated intervals, and exclusivity of a holder that renews in time. */
module Leases {
  import opened Basics
  import opened Tables
  import opened Pipeline
  import opened Frames
  import opened Invariant
  import opened Preservation
  import opened Safety

  /* ---- settings ---- */

  datatype Intervals = Intervals(jobLease: int, outboxLease: int, visibility: int, heartbeat: int)

  datatype Verdict = Accepted | NotPositive | HeartbeatNotBelowVisibility | LeaseNotAboveHeartbeat

  /** The field constraints and then the validator, in the order they run. */
  function ValidateRuntimeIntervals(i: Intervals): Verdict {
    if i.jobLease <= 0 || i.outboxLease <= 0 || i.visibility <= 0 || i.heartbeat <= 0 then NotPositive
    else if i.heartbeat >= i.visibility then HeartbeatNotBelowVisibility
    else if i.jobLease <= i.heartbeat then LeaseNotAboveHeartbeat
    else Accepted
  }

  /** A heartbeat turn may be `delay` late. */
  predicate Slack(i: Intervals, delay: int) {
    0 < delay && i.heartbeat + delay <= i.jobLease && i.heartbeat + delay <= i.visibility
  }

  /**
   Accepted settings are exactly the positive ones in which a heartbeat turn can be late by some positive amount
   and still come before both the lease and the visibility timeout run out.
   */
  lemma AcceptedIffSlack(i: Intervals)
    ensures ValidateRuntimeIntervals(i).Accepted? <==>
            0 < i.heartbeat && 0 < i.outboxLease && exists delay :: Slack(i, delay)
  {
    if ValidateRuntimeIntervals(i).Accepted? {
      assert Slack(i, 1);
    }
  }

  /* ---- exclusivity over a run ---- */

  /** No clock reading of the run is later than `lease` after the latest stamp by heartbeat `t`. */
  predicate InTime(run: seq<Step>, t: Id, deadline: Time, lease: int)
    decreases |run|
  {
    run == [] ||
    (run[0].now <= deadline &&
     InTime(run[1..], t, if run[0].act == Renew(t) then run[0].now + lease else deadline, lease))
  }

  /** The holder itself completes or fails the job. */
  predicate Settles(s: State, a: Action, t: Id) {
    && (a.Complete? || a.Fail?)
    && a.w in s.workers && (s.workers[a.w].Stored? || s.workers[a.w].Failing?)
    && s.workers[a.w].claimed.token == t
  }

  predicate NeverSettles(c: Config, s: State, run: seq<Step>, t: Id)
    requires ValidFrom(c, s, run)
    decreases |run|
  {
    run == [] || (!Settles(s, run[0].act, t) && NeverSettles(c, Next(c, s, run[0].now, run[0].act), run[1..], t))
  }

  predicate HeldSince(s: State, j: Id, t: Id, stamp: Time, attempts: nat) {
    HoldsJob(s.db, j, t) && s.db.jobs[j].startedAt == Some(stamp) && s.db.jobs[j].attempts == attempts
  }

  lemma ClaimWithinLease(c: Config, s: State, now: Time, w: Id, token: Id, j: Id, t: Id, stamp: Time, attempts: nat)
    requires w in s.workers && s.workers[w].Received? && HeldSince(s, j, t, stamp, attempts) && now <= stamp + c.jobLease
    ensures HeldSince(NextClaimJob(c, s, now, w, token), j, t, stamp, attempts)
  {
  }

  lemma RenewalsOfHolder(s: State, now: Time, b: Id, j: Id, t: Id, stamp: Time, attempts: nat)
    requires b in s.beats && HeldSince(s, j, t, stamp, attempts) && (b == t ==> s.beats[b].job == j)
    ensures HeldSince(NextRenew(s, now, b), j, t, if b == t then now else stamp, attempts)
  {
  }

  lemma OthersCompleting(s: State, now: Time, w: Id, outcome: Outcome, j: Id, t: Id, stamp: Time, attempts: nat)
    requires w in s.workers && s.workers[w].Stored? && s.workers[w].claimed.token != t && HeldSince(s, j, t, stamp, attempts)
    ensures HeldSince(NextComplete(s, now, w, outcome), j, t, stamp, attempts)
  {
  }

  lemma OthersFailing(s: State, u: State, now: Time, w: Id, error: string, j: Id, t: Id, stamp: Time, attempts: nat)
    requires w in s.workers && s.workers[w].Failing? && s.workers[w].claimed.token != t && HeldSince(s, j, t, stamp, attempts)
    requires u.db == FailJob(s.db, s.workers[w].claimed.job, s.workers[w].claimed.token, error, now)
    ensures HeldSince(u, j, t, stamp, attempts)
  {
  }

  /** Within the lease, one step leaves the job with its holder; its own renewal moves the stamp. */
  lemma HeldStep(c: Config, s: State, now: Time, a: Action, j: Id, t: Id, stamp: Time, attempts: nat)
    requires Inv(c, s) && Enabled(c, s, now, a) && HeldSince(s, j, t, stamp, attempts)
    requires now <= stamp + c.jobLease && !Settles(s, a, t)
    ensures HeldSince(Next(c, s, now, a), j, t, if a == Renew(t) then now else stamp, attempts)
  {
    hide Inv, Next, Enabled, HeldSince, NextClaimJob, NextRenew, NextComplete, FailJob;
    if TouchesJobs(a) {
      JobStepIs(c, s, now, a);
      match a
      case Create(_, _, _, _, _) => CreatedElsewhere(c, s, now, a, j, t, stamp, attempts);
      case Renew(b) =>
        HeldHere(s, j, t, stamp, attempts);
        if b == t {
          HolderBeat(c, s, j, t);
        }
        RenewalsOfHolder(s, now, b, j, t, stamp, attempts);
      case ClaimJob(w, token) => ClaimWithinLease(c, s, now, w, token, j, t, stamp, attempts);
      case Complete(w, outcome) => OthersCompleting(s, now, w, outcome, j, t, stamp, attempts);
      case Fail(w, error) => OthersFailing(s, Next(c, s, now, a), now, w, error, j, t, stamp, attempts);
    } else {
      JobsStill(c, s, now, a);
      SameJobsHeld(s, Next(c, s, now, a), j, t, stamp, attempts);
    }
  }

  lemma HeldHere(s: State, j: Id, t: Id, stamp: Time, attempts: nat)
    requires HeldSince(s, j, t, stamp, attempts)
    ensures HoldsJob(s.db, j, t)
  {
  }

  lemma SameJobsHeld(s: State, u: State, j: Id, t: Id, stamp: Time, attempts: nat)
    requires HeldSince(s, j, t, stamp, attempts) && u.db.jobs == s.db.jobs
    ensures HeldSince(u, j, t, stamp, attempts)
  {
  }

  lemma CreatedElsewhere(c: Config, s: State, now: Time, a: Action, j: Id, t: Id, stamp: Time, attempts: nat)
    requires Inv(c, s) && Enabled(c, s, now, a) && a.Create? && HeldSince(s, j, t, stamp, attempts)
    ensures HeldSince(Next(c, s, now, a), j, t, stamp, attempts)
  {
    hide Inv, Next, Enabled, NewBody;
    JobStepIs(c, s, now, a);
    FreshIds(c, s, a.job);
  }

  lemma HolderBeat(c: Config, s: State, j: Id, t: Id)
    requires Inv(c, s) && HoldsJob(s.db, j, t) && t in s.beats
    ensures s.beats[t].job == j
  {
    hide Inv, Consistent, AllApart, ClaimsOk, OutboxOk, QueueOk, GrantsOk, DeliveriesOk, ArtifactsOk, RecordsOk, WorkersOk, TokensOf;
    Parts(c, s);
    assert BeatOk(s, t) && JobOk(s, j);
  }

  lemma {:induction false} HeldThroughout(c: Config, s: State, run: seq<Step>, j: Id, t: Id, stamp: Time, attempts: nat)
    returns (last: Time)
    requires Inv(c, s) && HeldSince(s, j, t, stamp, attempts)
    requires ValidFrom(c, s, run) && NeverSettles(c, s, run, t)
    requires InTime(run, t, stamp + c.jobLease, c.jobLease)
    ensures HeldSince(Exec(c, s, run), j, t, last, attempts)
    decreases |run|
  {
    hide Inv, Enabled, Next, HeldSince, Settles, Grows;
    if run == [] {
      last := stamp;
    } else {
      var a, now := run[0].act, run[0].now;
      HeldStep(c, s, now, a, j, t, stamp, attempts);
      StepKeeps(c, s, now, a);
      last := HeldThroughout(c, Next(c, s, now, a), run[1..], j, t, if a == Renew(t) then now else stamp, attempts);
    }
  }

  /** How many claims of the job succeed in a run. */
  function ClaimsWon(c: Config, s: State, run: seq<Step>, j: Id): nat
    requires ValidFrom(c, s, run)
    decreases |run|
  {
    if run == [] then 0 else
    (if Wins(c, s, run[0], j) then 1 else 0) + ClaimsWon(c, Next(c, s, run[0].now, run[0].act), run[1..], j)
  }

  predicate Wins(c: Config, s: State, step: Step, j: Id) {
    && step.act.ClaimJob? && step.act.w in s.workers && s.workers[step.act.w].Received?
    && s.workers[step.act.w].job == j && CanClaim(s.db, j, step.now, c.jobLease)
  }

  lemma WinCounts(c: Config, s: State, step: Step, j: Id)
    requires Enabled(c, s, step.now, step.act) && Wins(c, s, step, j)
    ensures var t := Next(c, s, step.now, step.act); j in t.db.jobs && s.db.jobs[j].attempts < t.db.jobs[j].attempts
  {
  }

  lemma {:induction false} ClaimsRaiseAttempts(c: Config, s: State, run: seq<Step>, j: Id)
    requires Inv(c, s) && ValidFrom(c, s, run) && j in s.db.jobs
    ensures var u := Exec(c, s, run); j in u.db.jobs && s.db.jobs[j].attempts + ClaimsWon(c, s, run, j) <= u.db.jobs[j].attempts
    decreases |run|
  {
    hide Inv, Enabled, Next, Wins, OutboxGrows, QueueGrows, LogGrows, ArtifactsGrow, ResultsGrow;
    if run != [] {
      StepKeeps(c, s, run[0].now, run[0].act);
      if Wins(c, s, run[0], j) {
        WinCounts(c, s, run[0], j);
      }
      ClaimsRaiseAttempts(c, Next(c, s, run[0].now, run[0].act), run[1..], j);
    }
  }

  /** While its heartbeat renews in time and it does not settle the job, the holder keeps it and every claim is refused. */
  lemma TimedExclusivity(c: Config, s: State, run: seq<Step>, j: Id, t: Id, stamp: Time, attempts: nat)
    requires Reachable(c, s) && HeldSince(s, j, t, stamp, attempts)
    requires ValidFrom(c, s, run) && NeverSettles(c, s, run, t)
    requires InTime(run, t, stamp + c.jobLease, c.jobLease)
    ensures HoldsJob(Exec(c, s, run).db, j, t)
    ensures ClaimsWon(c, s, run, j) == 0
  {
    hide Inv, ValidFrom, Exec, Reachable, NeverSettles, InTime, ClaimsWon;
    ReachableInv(c, s);
    var last := HeldThroughout(c, s, run, j, t, stamp, attempts);
    ClaimsRaiseAttempts(c, s, run, j);
  }

  /** A heartbeat whose every turn takes at most `turn` is in time for any lease of at least that length. */
  lemma {:induction false} TurnsWithinLease(run: seq<Step>, t: Id, stamp: Time, deadline: Time, turn: int, lease: int)
    requires InTime(run, t, deadline, turn) && turn <= lease && deadline <= stamp + lease
    ensures InTime(run, t, stamp + lease, lease)
    decreases |run|
  {
    if run != [] {
      if run[0].act == Renew(t) {
        TurnsWithinLease(run[1..], t, run[0].now, run[0].now + turn, turn, lease);
      } else {
        TurnsWithinLease(run[1..], t, stamp, deadline, turn, lease);
      }
    }
  }

  /** Accepted settings leave every heartbeat turn a positive delay within which the holder cannot lose the job. */
  lemma AcceptedKeepsHolder(c: Config, i: Intervals, s: State, run: seq<Step>, j: Id, t: Id, stamp: Time, attempts: nat, delay: int)
    requires ValidateRuntimeIntervals(i).Accepted? && c.jobLease == i.jobLease
    requires Reachable(c, s) && HeldSince(s, j, t, stamp, attempts)
    requires ValidFrom(c, s, run) && NeverSettles(c, s, run, t)
    requires delay <= i.jobLease - i.heartbeat
    requires InTime(run, t, stamp + i.heartbeat + delay, i.heartbeat + delay)
    ensures HoldsJob(Exec(c, s, run).db, j, t) && ClaimsWon(c, s, run, j) == 0
  {
    hide Inv, ValidFrom, Exec, Reachable, NeverSettles, ClaimsWon;
    TurnsWithinLease(run, t, stamp, stamp + i.heartbeat + delay, i.heartbeat + delay, c.jobLease);
    TimedExclusivity(c, s, run, j, t, stamp, attempts);
  }

  /* ---- the outbox lease ---- */

  /** The dispatcher holding the row under `t` marks it, as sent or as failed. */
  predicate SettlesRow(s: State, a: Action, e: Id, t: Id) {
    && (a.MarkSent? || a.MarkUnsent?)
    && a.w in s.workers && (s.workers[a.w].Sent? || s.workers[a.w].Unsent?)
    && s.workers[a.w].event == e && s.workers[a.w].batch == t
  }

  predicate NeverSettlesRow(c: Config, s: State, run: seq<Step>, e: Id, t: Id)
    requires ValidFrom(c, s, run)
    decreases |run|
  {
    run == [] || (!SettlesRow(s, run[0].act, e, t) && NeverSettlesRow(c, Next(c, s, run[0].now, run[0].act), run[1..], e, t))
  }

  predicate LockedAt(s: State, e: Id, t: Id, stamp: Time) {
    HoldsRow(s.db, e, t) && s.db.outbox[e].lockedAt == Some(stamp)
  }

  lemma FreshRowNotTaken(c: Config, s: State, now: Time, a: Action, e: Id, t: Id, stamp: Time)
    requires Enabled(c, s, now, a) && LockedAt(s, e, t, stamp) && now <= stamp + c.outboxLease
    ensures a.ClaimBatch? ==> e !in a.batch
  {
    if a.ClaimBatch? {
      BatchIsClaimable(s.db, a.batch, a.skipped, c.limit, now, c.outboxLease);
    }
  }

  /** Within the lease, one step of anybody but its own dispatcher leaves a claimed row as it is. */
  lemma LockedStep(c: Config, s: State, now: Time, a: Action, e: Id, t: Id, stamp: Time)
    requires Inv(c, s) && Enabled(c, s, now, a) && LockedAt(s, e, t, stamp)
    requires now <= stamp + c.outboxLease && !SettlesRow(s, a, e, t)
    ensures var u := Next(c, s, now, a); e in u.db.outbox && u.db.outbox[e] == s.db.outbox[e]
  {
    hide Inv, IsBatch;
    FreshRowNotTaken(c, s, now, a, e, t, stamp);
    if a.Create? {
      FreshIds(c, s, a.event);
    } else if !TouchesOutbox(a) {
      hide Enabled, Next;
      OutboxStill(c, s, now, a);
    }
  }

  /**
   Until its dispatcher marks it or the lease runs out, a claimed row stays exactly as claimed, and no batch that anyone
   claims contains it: batches that are at work at the same time are disjoint.
   */
  lemma {:induction false} BatchExclusivity(c: Config, s: State, run: seq<Step>, e: Id, t: Id, stamp: Time)
    requires Inv(c, s) && LockedAt(s, e, t, stamp)
    requires ValidFrom(c, s, run) && NeverSettlesRow(c, s, run, e, t)
    requires forall i :: 0 <= i < |run| ==> run[i].now <= stamp + c.outboxLease
    ensures e in Exec(c, s, run).db.outbox && Exec(c, s, run).db.outbox[e] == s.db.outbox[e]
    ensures forall i :: 0 <= i < |run| && run[i].act.ClaimBatch? ==> e !in run[i].act.batch
    decreases |run|
  {
    hide Inv, Enabled, Next, SettlesRow, Grows;
    if run != [] {
      var a, now := run[0].act, run[0].now;
      LockedStep(c, s, now, a, e, t, stamp);
      FreshRowNotTaken(c, s, now, a, e, t, stamp);
      StepKeeps(c, s, now, a);
      BatchExclusivity(c, Next(c, s, now, a), run[1..], e, t, stamp);
      forall i | 0 <= i < |run| && run[i].act.ClaimBatch? ensures e !in run[i].act.batch {
        assert 0 < i ==> run[i] == run[1..][i - 1];
      }
    }
  }

  /** From any reachable state. */
  lemma BatchesStayDisjoint(c: Config, s: State, run: seq<Step>, e: Id, t: Id, stamp: Time)
    requires Reachable(c, s) && LockedAt(s, e, t, stamp)
    requires ValidFrom(c, s, run) && NeverSettlesRow(c, s, run, e, t)
    requires forall i :: 0 <= i < |run| ==> run[i].now <= stamp + c.outboxLease
    ensures LockedAt(Exec(c, s, run), e, t, stamp)
    ensures forall i :: 0 <= i < |run| && run[i].act.ClaimBatch? ==> e !in run[i].act.batch
  {
    hide Inv, ValidFrom, Exec, Reachable, NeverSettlesRow;
    ReachableInv(c, s);
    BatchExclusivity(c, s, run, e, t, stamp);
  }
}
