/** What a run of the whole system shows of one agent: a worker thread or a heartbeat thread. */
module Agents {
  import opened Basics
  import opened Tables
  import opened Pipeline
  import opened Frames
  import opened Invariant
  import opened Preservation
  import opened Safety
  import opened Abandonment

  datatype Agent = Thread(worker: Id) | Heart(token: Id)

  predicate By(a: Action, who: Agent) {
    match who
    case Thread(w) => w in Mover(a)
    case Heart(t) => (a.Wake? || a.Renew? || a.Extend? || a.EndBeat?) && a.beat == t
  }

  /** The steps of one agent, in order. */
  function Own(run: seq<Step>, who: Agent): seq<Action> {
    if run == [] then [] else (if By(run[0].act, who) then [run[0].act] else []) + Own(run[1..], who)
  }

  lemma {:induction false} OwnAppend(run: seq<Step>, more: seq<Step>, who: Agent)
    ensures Own(run + more, who) == Own(run, who) + Own(more, who)
  {
    if run == [] {
      assert run + more == more;
    } else {
      assert (run + more)[0] == run[0] && (run + more)[1..] == run[1..] + more;
      OwnAppend(run[1..], more, who);
    }
  }

  /** `after` continues `before`, and what the agent did meanwhile is `own`. */
  ghost predicate Follows(before: seq<Step>, after: seq<Step>, who: Agent, own: seq<Action>) {
    before <= after && Own(after[|before|..], who) == own
  }

  lemma FollowsNothing(run: seq<Step>, who: Agent)
    ensures Follows(run, run, who, [])
  {
    assert run[|run|..] == [];
  }

  lemma Chain(a: seq<Step>, b: seq<Step>, d: seq<Step>, who: Agent, xs: seq<Action>, ys: seq<Action>)
    requires Follows(a, b, who, xs) && Follows(b, d, who, ys)
    ensures Follows(a, d, who, xs + ys)
  {
    assert d[|a|..] == b[|a|..] + d[|b|..];
    OwnAppend(b[|a|..], d[|b|..], who);
  }

  /** The others' steps first. */
  lemma After(a: seq<Step>, b: seq<Step>, d: seq<Step>, who: Agent, ys: seq<Action>)
    requires Follows(a, b, who, []) && Follows(b, d, who, ys)
    ensures Follows(a, d, who, ys)
  {
    hide Follows;
    Chain(a, b, d, who, [], ys);
    assert [] + ys == ys;
  }

  lemma OneOwn(run: seq<Step>, step: Step, who: Agent)
    ensures Follows(run, run + [step], who, if By(step.act, who) then [step.act] else [])
  {
    assert (run + [step])[|run|..] == [step];
    assert [step][1..] == [];
    assert Own([step][1..], who) == [];
  }

  /* ---- what the others leave alone ---- */

  /** The agent is where it was; a heartbeat may have been told to stop, or have died with its process. */
  ghost predicate Undisturbed(s: State, t: State, who: Agent) {
    match who
    case Thread(w) => w in s.workers && w in t.workers && t.workers[w] == s.workers[w]
    case Heart(b) =>
      b in s.beats && (b in t.beats ==> t.beats[b] == s.beats[b] || t.beats[b] == s.beats[b].(stop := true))
  }

  ghost predicate Exists(s: State, who: Agent) {
    match who
    case Thread(w) => w in s.workers
    case Heart(b) => b in s.beats
  }

  lemma HeartUndisturbed(c: Config, s: State, now: Time, a: Action, b: Id)
    requires Inv(c, s) && Enabled(c, s, now, a) && b in s.beats && !By(a, Heart(b))
    ensures Undisturbed(s, Next(c, s, now, a), Heart(b))
  {
    hide Inv, IsBatch, CanClaim, HoldsJob, HoldsRow, ClaimEvents, MarkPublished, MarkFailed, MarkProcessing, CompleteJob, FailJob;
    hide NextClaimBatch, NextPublish, NextMarkSent, NextReceive, NextPut, NextComplete, NextDelete;
    if a.ClaimJob? {
      HeartNamesClaim(c, s, b);
      FreshIds(c, s, a.token);
    } else if Dispatches(a) || a.Receive? || a.Put? || a.Complete? || a.Delete? {
      SameBeatsElsewhere(c, s, now, a);
    }
  }

  lemma HeartNamesClaim(c: Config, s: State, b: Id)
    requires Inv(c, s) && b in s.beats
    ensures b in s.log.claims && s.log.claims[b].job == s.beats[b].job
  {
    hide Consistent, JobsOk, ClaimsOk, AllClaimsApart, OutboxOk, QueueOk, AllMessagesApart, GrantsOk, DeliveriesOk;
    hide ArtifactsOk, AllArtifactsApart, RecordsOk, WorkersOk;
    assert BeatOk(s, b);
  }

  lemma SameBeatsElsewhere(c: Config, s: State, now: Time, a: Action)
    requires Enabled(c, s, now, a) && (Dispatches(a) || a.Receive? || a.Put? || a.Complete? || a.Delete?)
    ensures Next(c, s, now, a).beats == s.beats
  {
    hide IsBatch, CanClaim, HoldsJob, HoldsRow, ClaimEvents, MarkPublished, MarkFailed, MarkProcessing, CompleteJob, FailJob;
  }

  lemma StaysGoneStep(c: Config, s: State, now: Time, a: Action, b: Id)
    requires Inv(c, s) && Enabled(c, s, now, a) && b in s.log.claims && b !in s.beats
    ensures b !in Next(c, s, now, a).beats
  {
    hide Inv, IsBatch, CanClaim, HoldsJob, HoldsRow, ClaimEvents, MarkPublished, MarkFailed, MarkProcessing, CompleteJob, FailJob;
    hide NextClaimBatch, NextPublish, NextMarkSent, NextReceive, NextPut, NextComplete, NextDelete;
    if a.ClaimJob? {
      FreshIds(c, s, a.token);
    } else if Dispatches(a) || a.Receive? || a.Put? || a.Complete? || a.Delete? {
      SameBeatsElsewhere(c, s, now, a);
    }
  }

  lemma {:induction false} StaysGone(c: Config, s: State, run: seq<Step>, b: Id)
    requires Inv(c, s) && ValidFrom(c, s, run) && b in s.log.claims && b !in s.beats
    ensures b !in Exec(c, s, run).beats
    decreases |run|
  {
    hide Next, Enabled, Inv, JobsGrow, OutboxGrows, QueueGrows, ArtifactsGrow, ResultsGrow;
    if run != [] {
      StepKeeps(c, s, run[0].now, run[0].act);
      StaysGoneStep(c, s, run[0].now, run[0].act, b);
      StaysGone(c, Next(c, s, run[0].now, run[0].act), run[1..], b);
    }
  }

  lemma {:induction false} OthersLeave(c: Config, s: State, run: seq<Step>, who: Agent)
    requires ValidFrom(c, s, run) && Exists(s, who) && Own(run, who) == []
    requires Inv(c, s)
    ensures Undisturbed(s, Exec(c, s, run), who)
    decreases |run|
  {
    hide Next, Enabled, Inv, Grows;
    if run != [] {
      var t := Next(c, s, run[0].now, run[0].act);
      StepKeeps(c, s, run[0].now, run[0].act);
      if who.Thread? {
        OnlyMover(c, s, run[0].now, run[0].act, t, who.worker);
      } else {
        HeartUndisturbed(c, s, run[0].now, run[0].act, who.token);
      }
      if Exists(t, who) {
        OthersLeave(c, t, run[1..], who);
      } else {
        HeartNamesClaim(c, s, who.token);
        ClaimsKept(c, s, t);
        StaysGone(c, t, run[1..], who.token);
      }
    }
  }

  lemma ClaimsKept(c: Config, s: State, t: State)
    requires Grows(s, t)
    ensures forall b :: b in s.log.claims ==> b in t.log.claims
  {
  }

  /* ---- rows a dispatcher moved to published ---- */

  /** The step is a mark of `w` that takes effect. */
  predicate MovesRow(s: State, a: Action, w: Id) {
    && a.MarkSent? && a.w == w && w in s.workers && s.workers[w].Sent?
    && Takes(a.outcome) && HoldsRow(s.db, s.workers[w].event, s.workers[w].batch)
  }

  /** Those steps, and no others, publish a row; each publishes one. */
  lemma OnlyMarksPublish(c: Config, s: State, now: Time, a: Action, e: Id)
    requires Enabled(c, s, now, a) && e in s.db.outbox && !s.db.outbox[e].status.OutPublished?
    ensures var t := Next(c, s, now, a);
            e in t.db.outbox && t.db.outbox[e].status.OutPublished? <==>
            a.MarkSent? && MovesRow(s, a, a.w) && s.workers[a.w].event == e
  {
    hide IsBatch, CanClaim, HoldsJob, NextReceive, NextClaimJob, NextLookUp, NextDelete, NextPut, NextComplete, NextLeave, NextRenew;
    hide NextExtend, FailJob, Die;
    if !TouchesOutbox(a) {
      OutboxStill(c, s, now, a);
    }
  }

  // Marks whose reply arrived, and marks whose reply was lost.
  const HEARD: set<Outcome> := {Done}
  const UNHEARD: set<Outcome> := {DoneNoReply}
  const ANY: set<Outcome> := {Done, DoneNoReply}

  predicate MovesWith(s: State, a: Action, w: Id, outcomes: set<Outcome>) {
    MovesRow(s, a, w) && a.outcome in outcomes
  }

  /** How many rows `w` moved to published in a run, by marks with one of these outcomes. */
  function Moved(c: Config, s: State, run: seq<Step>, w: Id, outcomes: set<Outcome>): nat
    requires ValidFrom(c, s, run)
    decreases |run|
  {
    if run == [] then 0 else
    (if MovesWith(s, run[0].act, w, outcomes) then 1 else 0) + Moved(c, Next(c, s, run[0].now, run[0].act), run[1..], w, outcomes)
  }

  /** Every row moved was moved by a mark that was heard or by one that was not. */
  lemma {:induction false} MovedSplits(c: Config, s: State, run: seq<Step>, w: Id)
    requires ValidFrom(c, s, run)
    ensures Moved(c, s, run, w, ANY) == Moved(c, s, run, w, HEARD) + Moved(c, s, run, w, UNHEARD)
    decreases |run|
  {
    hide Next, Enabled, MovesRow;
    if run != [] {
      MovedSplits(c, Next(c, s, run[0].now, run[0].act), run[1..], w);
    }
  }

  /** Step `i` of the run is a mark of `w` that moved its row and whose reply was lost. */
  ghost predicate MovedUnheard(c: Config, s: State, run: seq<Step>, w: Id, i: int) {
    && 0 <= i < |run| && ValidFrom(c, s, run[..i])
    && MovesWith(Exec(c, s, run[..i]), run[i].act, w, UNHEARD)
  }

  lemma {:induction false} UnheardCount(c: Config, s: State, run: seq<Step>, w: Id)
    requires ValidFrom(c, s, run)
    ensures Moved(c, s, run, w, UNHEARD) == 0 <==> forall i :: !MovedUnheard(c, s, run, w, i)
    decreases |run|
  {
    hide Next, Enabled, MovesRow;
    if run != [] {
      var t, rest := Next(c, s, run[0].now, run[0].act), run[1..];
      UnheardCount(c, t, rest, w);
      assert run[..0] == [];
      assert MovedUnheard(c, s, run, w, 0) <==> MovesWith(s, run[0].act, w, UNHEARD);
      forall i | 0 < i ensures MovedUnheard(c, s, run, w, i) <==> MovedUnheard(c, t, rest, w, i - 1) {
        UnheardLater(c, s, run, w, i);
      }
      assert forall i :: MovedUnheard(c, t, rest, w, i) ==> MovedUnheard(c, s, run, w, i + 1);
    }
  }

  lemma UnheardLater(c: Config, s: State, run: seq<Step>, w: Id, i: int)
    requires run != [] && Enabled(c, s, run[0].now, run[0].act) && 0 < i
    ensures MovedUnheard(c, s, run, w, i) <==>
            MovedUnheard(c, Next(c, s, run[0].now, run[0].act), run[1..], w, i - 1)
  {
    hide Next, Enabled, MovesWith;
    if i < |run| {
      assert run[..i][0] == run[0] && run[..i][1..] == run[1..][..i - 1];
    }
  }

  lemma {:induction false} MovedAppend(c: Config, s: State, run: seq<Step>, more: seq<Step>, w: Id, outcomes: set<Outcome>)
    requires ValidFrom(c, s, run) && ValidFrom(c, Exec(c, s, run), more)
    ensures ValidFrom(c, s, run + more)
    ensures Moved(c, s, run + more, w, outcomes) == Moved(c, s, run, w, outcomes) + Moved(c, Exec(c, s, run), more, w, outcomes)
    decreases |run|
  {
    hide Next, Enabled, MovesWith;
    ExecAppend(c, s, run, more);
    if run == [] {
      assert run + more == more;
    } else {
      assert (run + more)[0] == run[0] && (run + more)[1..] == run[1..] + more;
      MovedAppend(c, Next(c, s, run[0].now, run[0].act), run[1..], more, w, outcomes);
    }
  }

  lemma {:induction false} MovedNothing(c: Config, s: State, run: seq<Step>, w: Id, outcomes: set<Outcome>)
    requires ValidFrom(c, s, run) && forall a :: a in Own(run, Thread(w)) ==> !a.MarkSent?
    ensures Moved(c, s, run, w, outcomes) == 0
    decreases |run|
  {
    hide Next, Enabled;
    if run != [] {
      assert By(run[0].act, Thread(w)) ==> run[0].act in Own(run, Thread(w));
      assert forall a :: a in Own(run[1..], Thread(w)) ==> a in Own(run, Thread(w));
      MovedNothing(c, Next(c, s, run[0].now, run[0].act), run[1..], w, outcomes);
    }
  }

  /** What `w` moved while `before` went on to `after`. */
  ghost function MovedSince(c: Config, before: seq<Step>, after: seq<Step>, w: Id, outcomes: set<Outcome>): int
    requires ValidFrom(c, INITIAL, before) && ValidFrom(c, INITIAL, after)
  {
    Moved(c, INITIAL, after, w, outcomes) - Moved(c, INITIAL, before, w, outcomes)
  }

  lemma MovedSinceIs(c: Config, before: seq<Step>, after: seq<Step>, w: Id, outcomes: set<Outcome>)
    requires ValidFrom(c, INITIAL, after) && before <= after
    ensures ValidFrom(c, INITIAL, before) && ValidFrom(c, Exec(c, INITIAL, before), after[|before|..])
    ensures MovedSince(c, before, after, w, outcomes) == Moved(c, Exec(c, INITIAL, before), after[|before|..], w, outcomes)
  {
    hide ValidFrom, Exec, Moved;
    ExecSplit(c, INITIAL, after, |before|);
    var more := after[|before|..];
    assert after[..|before|] == before && before + more == after;
    MovedAppend(c, INITIAL, before, more, w, outcomes);
  }

  /** Unless one of the agent's own steps is a mark, it moves nothing. */
  lemma MovedMeanwhile(c: Config, before: seq<Step>, after: seq<Step>, w: Id, own: seq<Action>, outcomes: set<Outcome>)
    requires ValidFrom(c, INITIAL, after) && Follows(before, after, Thread(w), own)
    requires forall a :: a in own ==> !a.MarkSent?
    ensures ValidFrom(c, INITIAL, before) && MovedSince(c, before, after, w, outcomes) == 0
  {
    hide ValidFrom, Exec, Moved, Own, MovedSince;
    MovedSinceIs(c, before, after, w, outcomes);
    MovedNothing(c, Exec(c, INITIAL, before), after[|before|..], w, outcomes);
  }

  lemma MovedStep(c: Config, done: seq<Step>, s: State, step: Step, w: Id, outcomes: set<Outcome>)
    requires ValidFrom(c, INITIAL, done) && s == Exec(c, INITIAL, done) && Enabled(c, s, step.now, step.act)
    ensures ValidFrom(c, INITIAL, done + [step])
    ensures MovedSince(c, done, done + [step], w, outcomes) == if MovesWith(s, step.act, w, outcomes) then 1 else 0
  {
    hide Next, Enabled, MovesWith;
    SingleStep(c, s, step);
    MovedAppend(c, INITIAL, done, [step], w, outcomes);
    assert [step][1..] == [];
    assert Moved(c, Next(c, s, step.now, step.act), [step][1..], w, outcomes) == 0;
  }

  /** A count of the heard marks misses exactly the rows moved by the others: it is right if and only if there are none. */
  lemma ExactUnlessUnheard(c: Config, before: seq<Step>, after: seq<Step>, w: Id)
    requires ValidFrom(c, INITIAL, after) && before <= after
    ensures ValidFrom(c, INITIAL, before)
    ensures MovedSince(c, before, after, w, ANY) ==
            MovedSince(c, before, after, w, HEARD) + MovedSince(c, before, after, w, UNHEARD)
    ensures MovedSince(c, before, after, w, HEARD) == MovedSince(c, before, after, w, ANY) <==>
            forall i :: !MovedUnheard(c, Exec(c, INITIAL, before), after[|before|..], w, i)
  {
    hide ValidFrom, Exec, Moved, MovedSince, MovedUnheard;
    MovedSinceIs(c, before, after, w, HEARD);
    MovedSinceIs(c, before, after, w, UNHEARD);
    MovedSinceIs(c, before, after, w, ANY);
    MovedSplits(c, Exec(c, INITIAL, before), after[|before|..], w);
    UnheardCount(c, Exec(c, INITIAL, before), after[|before|..], w);
  }

  /** What a run has made is still there after it goes on. */
  lemma PrefixGrows(c: Config, before: seq<Step>, after: seq<Step>)
    requires ValidFrom(c, INITIAL, after) && before <= after
    ensures ValidFrom(c, INITIAL, before)
    ensures Grows(Exec(c, INITIAL, before), Exec(c, INITIAL, after))
  {
    hide ValidFrom, Exec, Inv, Grows;
    ExecSplit(c, INITIAL, after, |before|);
    assert after[..|before|] == before;
    InitialInv(c);
    RunKeeps(c, INITIAL, before);
    RunKeeps(c, Exec(c, INITIAL, before), after[|before|..]);
  }
}
