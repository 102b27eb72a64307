/** The heartbeat thread: when it ends, and how well it must keep pace for its holder to keep the job. */
module Heartbeats {
  import opened Basics
  import opened Tables
  import opened Pipeline
  import opened Frames
  import opened Invariant
  import opened Preservation
  import opened Safety
  import opened Leases
  import opened Agents

  /* ---- when a heartbeat ends ---- */

  /** The ways a heartbeat thread ends: its process dies, it is told to stop or its renewal raises, or its renewal is refused. */
  predicate Ends(s: State, a: Action, b: Id)
    requires b in s.beats
  {
    || a == Crash(s.beats[b].worker)
    || a == EndBeat(b)
    || (a == Renew(b) && !HoldsJob(s.db, s.beats[b].job, b))
  }

  lemma LookUpKeepsBeats(c: Config, s: State, now: Time, w: Id)
    requires Reachable(c, s) && Enabled(c, s, now, LookUp(w))
    ensures Next(c, s, now, LookUp(w)).beats == s.beats
  {
    hide Reachable;
    RejectionsUnreachable(c, s, now, LookUp(w));
  }

  lemma ConsumersKeepBeats(c: Config, s: State, now: Time, a: Action, b: Id)
    requires Reachable(c, s) && Enabled(c, s, now, a) && Consumes(a) && b in s.beats
    ensures b in Next(c, s, now, a).beats
  {
    hide Reachable, Next, Enabled, MarkProcessing, CompleteJob, CanClaim, HoldsJob;
    if a.LookUp? {
      LookUpKeepsBeats(c, s, now, a.w);
    } else {
      ConsumeStepIs(c, s, now, a);
    }
  }

  lemma RestKeepBeats(c: Config, s: State, now: Time, a: Action, b: Id)
    requires Enabled(c, s, now, a) && !Consumes(a) && b in s.beats
    ensures b !in Next(c, s, now, a).beats <==> Ends(s, a, b)
    ensures b !in Next(c, s, now, a).beats ==> Next(c, s, now, a).db == s.db
  {
    hide IsBatch, CanClaim, HoldsRow, HoldsJob, ClaimEvents, MarkPublished, MarkFailed, CreateJob, FailJob;
    hide NextReceive, NextClaimJob, NextLookUp, NextDelete, NextPut, NextComplete, RenewLease;
    if a == Renew(b) && !HoldsJob(s.db, s.beats[b].job, b) {
      RefusedRenewal(s.db, s.beats[b].job, b, now);
    }
  }

  lemma RefusedRenewal(db: Db, j: Id, t: Id, now: Time)
    requires !HoldsJob(db, j, t)
    ensures RenewLease(db, j, t, now) == db
  {
  }

  /**
   A heartbeat ends in exactly those ways, and none of them changes a table. So it ends while its token still holds the job
   if and only if its process dies or it ends of itself; and that, when nobody told it to stop, is a renewal that raised.
   */
  lemma EndsHoldingIff(c: Config, s: State, now: Time, a: Action, b: Id)
    requires Reachable(c, s) && Enabled(c, s, now, a) && b in s.beats
    ensures b !in Next(c, s, now, a).beats <==> Ends(s, a, b)
    ensures var t, j := Next(c, s, now, a), s.beats[b].job;
            (b !in t.beats && HoldsJob(t.db, j, b)) <==>
            (HoldsJob(s.db, j, b) && (a == Crash(s.beats[b].worker) || a == EndBeat(b)))
    ensures a == EndBeat(b) && !s.beats[b].stop ==> s.beats[b].at.Awake? || s.beats[b].at.Extending?
  {
    hide Reachable, HoldsJob, Next;
    if Consumes(a) {
      hide Enabled;
      ConsumersKeepBeats(c, s, now, a, b);
    } else {
      assert a == EndBeat(b) && !s.beats[b].stop ==> !s.beats[b].at.Waiting?;
      hide Enabled;
      RestKeepBeats(c, s, now, a, b);
    }
  }

  /* ---- keeping pace ---- */

  // The longest a wait, a renewal call and an extension call may take.
  datatype Pace = Pace(wait: int, renewal: int, extension: int)

  function Budget(p: Pace, at: BeatPoint): int {
    match at
    case Waiting => p.wait
    case Awake => p.renewal
    case Extending => p.extension
  }

  /** What of the turn is left after this point, up to the next renewal's stamp. */
  function Left(p: Pace, at: BeatPoint): int {
    match at
    case Waiting => p.wait + p.renewal
    case Awake => p.renewal
    case Extending => p.extension + p.wait + p.renewal
  }

  predicate MovesBeat(a: Action, t: Id) {
    (a.Wake? || a.Renew? || a.Extend?) && a.beat == t
  }

  /** The thread of `t` lives throughout, and no reading of the run is past the budget of the point it is at since `since`. */
  predicate Paced(c: Config, s: State, run: seq<Step>, t: Id, p: Pace, since: Time)
    requires ValidFrom(c, s, run)
    decreases |run|
  {
    run == [] ||
    (t in s.beats && run[0].now <= since + Budget(p, s.beats[t].at) &&
     Paced(c, Next(c, s, run[0].now, run[0].act), run[1..], t, p, if MovesBeat(run[0].act, t) then run[0].now else since))
  }

  /** The loop goes round: wait, renew, extend. */
  lemma PointMoves(c: Config, s: State, now: Time, a: Action, t: Id)
    requires Inv(c, s) && Enabled(c, s, now, a) && t in s.beats && t in Next(c, s, now, a).beats
    ensures var at, next := s.beats[t].at, Next(c, s, now, a).beats[t].at;
            if !MovesBeat(a, t) then next == at
            else if a.Wake? then at.Waiting? && next.Awake?
            else if a.Renew? then at.Awake? && next.Extending?
            else at.Extending? && next.Waiting?
  {
    if By(a, Heart(t)) {
      hide Inv, IsBatch, RenewLease, HoldsJob, SupportedSchema;
    } else {
      hide Inv, Next, Enabled;
      HeartUndisturbed(c, s, now, a, t);
    }
  }

  /** A heartbeat that keeps its pace renews within one turn of each stamp. */
  lemma {:induction false} PacedInTime(c: Config, s: State, run: seq<Step>, t: Id, p: Pace, since: Time, deadline: Time)
    requires Inv(c, s) && ValidFrom(c, s, run) && Paced(c, s, run, t, p, since)
    requires 0 <= p.wait && 0 <= p.renewal && 0 <= p.extension
    requires t in s.beats ==> since + Left(p, s.beats[t].at) <= deadline
    ensures InTime(run, t, deadline, p.extension + p.wait + p.renewal)
    decreases |run|
  {
    hide Inv, Enabled, Next, Grows;
    if run != [] {
      var a, now := run[0].act, run[0].now;
      var u := Next(c, s, now, a);
      StepKeeps(c, s, now, a);
      if t in u.beats {
        PointMoves(c, s, now, a, t);
      }
      PacedInTime(c, u, run[1..], t, p, if MovesBeat(a, t) then now else since,
                  if a == Renew(t) then now + p.extension + p.wait + p.renewal else deadline);
    }
  }

  /**
   Under accepted settings a heartbeat that waits for its interval, and whose two calls take no longer together than the
   slack the settings leave, keeps the job for its holder, and every claim of it is refused.
   */
  lemma HeartbeatKeepsHolder(c: Config, i: Intervals, s: State, run: seq<Step>, j: Id, t: Id, stamp: Time, attempts: nat, p: Pace,
                             since: Time)
    requires ValidateRuntimeIntervals(i).Accepted? && c.jobLease == i.jobLease && p.wait == i.heartbeat
    requires 0 <= p.renewal && 0 <= p.extension && p.renewal + p.extension <= i.jobLease - i.heartbeat
    requires Reachable(c, s) && HeldSince(s, j, t, stamp, attempts)
    requires t in s.beats && s.beats[t].at.Waiting? && since <= stamp + p.extension
    requires ValidFrom(c, s, run) && NeverSettles(c, s, run, t) && Paced(c, s, run, t, p, since)
    ensures HoldsJob(Exec(c, s, run).db, j, t) && ClaimsWon(c, s, run, j) == 0
  {
    hide Inv, ValidFrom, Exec, Reachable, NeverSettles, ClaimsWon, Paced, HeldSince, HoldsJob;
    ReachableInv(c, s);
    var turn := p.extension + p.wait + p.renewal;
    PacedInTime(c, s, run, t, p, since, stamp + turn);
    AcceptedKeepsHolder(c, i, s, run, j, t, stamp, attempts, p.renewal + p.extension);
  }

  /* ---- hiding the message ---- */

  /** A successful extension hides the heartbeat's message for the visibility timeout from now, and does nothing else to the queue. */
  lemma ExtensionHides(c: Config, s: State, now: Time, b: Id, extended: bool)
    requires Enabled(c, s, now, Extend(b, extended))
    ensures b in s.beats
    ensures var m, t := s.beats[b].handle.msg, Next(c, s, now, Extend(b, extended));
            && (extended ==> m in s.queue && t.queue == s.queue[m := s.queue[m].(visibleAt := now + c.visibility)])
            && (!extended ==> t.queue == s.queue)
            && b in t.beats && t.beats[b].at == Waiting
  {
  }

  /** Every step of the run comes before the end of the hiding, which each successful extension by `b` puts off. */
  predicate Shielded(run: seq<Step>, b: Id, until: Time, visibility: int)
    decreases |run|
  {
    run == [] ||
    (run[0].now < until &&
     Shielded(run[1..], b, if run[0].act == Extend(b, true) then run[0].now + visibility else until, visibility))
  }

  predicate Hidden(s: State, m: Id, until: Time) {
    m in s.queue && until <= s.queue[m].visibleAt
  }

  lemma HiddenStep(c: Config, s: State, now: Time, a: Action, b: Id, m: Id, until: Time)
    requires Inv(c, s) && Enabled(c, s, now, a) && b in s.log.claims && s.log.claims[b].handle.msg == m
    requires Hidden(s, m, until) && now < until <= now + c.visibility
    ensures a.Receive? && a.msg == m ==> a.duplicate
    ensures Hidden(Next(c, s, now, a), m, if a == Extend(b, true) then now + c.visibility else until)
  {
    hide Inv;
    if a.Extend? {
      ExtendsItsMessage(c, s, a.beat);
      ExtensionHides(c, s, now, a.beat, a.extended);
    } else if !TouchesQueue(a) {
      hide Next, Enabled;
      QueueStill(c, s, now, a);
    } else {
      hide IsBatch, NextClaimBatch, NextMarkSent, NextClaimJob, NextLookUp, NextPut, NextComplete, NextLeave, NextRenew, Die;
    }
  }

  lemma ExtendsItsMessage(c: Config, s: State, b: Id)
    requires Inv(c, s) && b in s.beats
    ensures b in s.log.claims && s.log.claims[b].handle == s.beats[b].handle
  {
    hide Consistent, JobsOk, ClaimsOk, AllClaimsApart, OutboxOk, QueueOk, AllMessagesApart, GrantsOk, DeliveriesOk;
    hide ArtifactsOk, AllArtifactsApart, RecordsOk, WorkersOk;
    assert BeatOk(s, b);
  }

  lemma {:induction false} HiddenThroughout(c: Config, s: State, run: seq<Step>, b: Id, m: Id, until: Time, from: Time)
    requires Inv(c, s) && ValidFrom(c, s, run) && Monotone(run, from) && 0 <= c.visibility
    requires b in s.log.claims && s.log.claims[b].handle.msg == m
    requires Hidden(s, m, until) && until <= from + c.visibility && Shielded(run, b, until, c.visibility)
    ensures forall i :: 0 <= i < |run| && run[i].act.Receive? && run[i].act.msg == m ==> run[i].act.duplicate
    decreases |run|
  {
    hide Inv, Enabled, Next, Hidden, JobsGrow, OutboxGrows, QueueGrows, ArtifactsGrow, ResultsGrow;
    if run != [] {
      var a, now := run[0].act, run[0].now;
      HiddenStep(c, s, now, a, b, m, until);
      StepKeeps(c, s, now, a);
      HiddenThroughout(c, Next(c, s, now, a), run[1..], b, m, if a == Extend(b, true) then now + c.visibility else until, now);
      forall i | 0 <= i < |run| && run[i].act.Receive? && run[i].act.msg == m ensures run[i].act.duplicate {
        assert 0 < i ==> run[i] == run[1..][i - 1];
      }
    }
  }

  /**
   While a heartbeat's successful extensions come less than a visibility timeout apart, its message, hidden when the run
   starts, is not redelivered: whoever receives it receives a duplicate.
   */
  lemma ExtensionsHideMessage(c: Config, s: State, run: seq<Step>, b: Id, m: Id, from: Time)
    requires Reachable(c, s) && ValidFrom(c, s, run) && Monotone(run, from) && 0 <= c.visibility
    requires b in s.beats && s.beats[b].handle.msg == m && m in s.queue && s.queue[m].visibleAt <= from + c.visibility
    requires Shielded(run, b, s.queue[m].visibleAt, c.visibility)
    ensures forall i :: 0 <= i < |run| && run[i].act.Receive? && run[i].act.msg == m ==> run[i].act.duplicate
  {
    hide Inv, Reachable, ValidFrom, Shielded;
    ReachableInv(c, s);
    ExtendsItsMessage(c, s, b);
    HiddenThroughout(c, s, run, b, m, s.queue[m].visibleAt, from);
  }

  /** What of the turn is left after this point, up to the next extension. */
  function ToExtension(p: Pace, at: BeatPoint): int {
    match at
    case Waiting => p.wait + p.renewal + p.extension
    case Awake => p.renewal + p.extension
    case Extending => p.extension
  }

  /** Every extension by `b` works. */
  predicate AllExtend(run: seq<Step>, b: Id) {
    forall i :: 0 <= i < |run| && run[i].act.Extend? && run[i].act.beat == b ==> run[i].act.extended
  }

  lemma {:induction false} PacedShields(c: Config, s: State, run: seq<Step>, t: Id, p: Pace, since: Time, until: Time)
    requires Inv(c, s) && ValidFrom(c, s, run) && Paced(c, s, run, t, p, since) && AllExtend(run, t)
    requires 0 <= p.wait && 0 <= p.renewal && 0 <= p.extension && p.wait + p.renewal + p.extension < c.visibility
    requires t in s.beats ==> since + ToExtension(p, s.beats[t].at) < until
    ensures Shielded(run, t, until, c.visibility)
    decreases |run|
  {
    hide Inv, Enabled, Next, Grows;
    if run != [] {
      var a, now := run[0].act, run[0].now;
      var u := Next(c, s, now, a);
      StepKeeps(c, s, now, a);
      if t in u.beats {
        PointMoves(c, s, now, a, t);
      }
      assert AllExtend(run[1..], t);
      PacedShields(c, u, run[1..], t, p, if MovesBeat(a, t) then now else since,
                   if a == Extend(t, true) then now + c.visibility else until);
    }
  }

  /**
   So a heartbeat whose wait and two calls together stay below the visibility timeout, as accepted settings allow, and whose
   extensions work, keeps its message from being redelivered.
   */
  lemma HeartbeatHidesMessage(c: Config, s: State, run: seq<Step>, t: Id, m: Id, p: Pace, since: Time, from: Time)
    requires Reachable(c, s) && ValidFrom(c, s, run) && Monotone(run, from) && Paced(c, s, run, t, p, since) && AllExtend(run, t)
    requires 0 <= p.wait && 0 <= p.renewal && 0 <= p.extension && p.wait + p.renewal + p.extension < c.visibility
    requires t in s.beats && s.beats[t].handle.msg == m && m in s.queue
    requires since + ToExtension(p, s.beats[t].at) < s.queue[m].visibleAt <= from + c.visibility
    ensures forall i :: 0 <= i < |run| && run[i].act.Receive? && run[i].act.msg == m ==> run[i].act.duplicate
  {
    hide Inv, Reachable, ValidFrom, Paced, AllExtend, Shielded;
    ReachableInv(c, s);
    PacedShields(c, s, run, t, p, since, s.queue[m].visibleAt);
    ExtensionsHideMessage(c, s, run, t, m, from);
  }
}
