/** Two runs from empty tables: a dispatch that under-reports, and a heartbeat that ends while its worker holds the job. */
module Witnesses {
  import opened Basics
  import opened Tables
  import opened Outbox
  import opened Pipeline
  import opened Invariant
  import opened Preservation
  import opened Safety
  import opened Recovery
  import opened Abandonment
  import opened Redelivery
  import opened Agents
  import opened Stranding

  /* ---- a dispatch that under-reports ---- */

  /** A run of `w` alone that moved `heard` rows by marks it heard of and `unheard` by others. */
  ghost predicate Dispatch(c: Config, s: State, run: seq<Step>, u: State, w: Id, heard: nat, unheard: nat) {
    && ValidFrom(c, s, run) && Exec(c, s, run) == u
    && (forall i :: 0 <= i < |run| ==> By(run[i].act, Thread(w)) && !run[i].act.Crash?)
    && Moved(c, s, run, w, HEARD) == heard && Moved(c, s, run, w, UNHEARD) == unheard
  }

  lemma DispatchStep(c: Config, s: State, now: Time, a: Action, w: Id)
    requires Enabled(c, s, now, a) && By(a, Thread(w)) && !a.Crash?
    ensures Dispatch(c, s, [At(now, a)], Next(c, s, now, a), w, if MovesWith(s, a, w, HEARD) then 1 else 0,
                     if MovesWith(s, a, w, UNHEARD) then 1 else 0)
  {
    hide Next, Enabled, MovesWith, By;
    SingleStep(c, s, At(now, a));
    var run, t := [At(now, a)], Next(c, s, now, a);
    assert run[1..] == [];
    assert Moved(c, t, run[1..], w, HEARD) == 0 && Moved(c, t, run[1..], w, UNHEARD) == 0;
  }

  lemma DispatchJoin(c: Config, s: State, run: seq<Step>, t: State, more: seq<Step>, u: State, w: Id, a: nat, b: nat, x: nat, y: nat)
    requires Dispatch(c, s, run, t, w, a, b) && Dispatch(c, t, more, u, w, x, y)
    ensures Dispatch(c, s, run + more, u, w, a + x, b + y)
  {
    hide ValidFrom, Exec, Moved, By;
    ExecAppend(c, s, run, more);
    MovedAppend(c, s, run, more, w, HEARD);
    MovedAppend(c, s, run, more, w, UNHEARD);
  }

  lemma ClaimsTheRow(c: Config, s: State, w: Id, e: Id, token: Id)
    requires w in s.workers && s.workers[w].LoopTop? && token !in s.log.issued && 0 < c.limit
    requires s.db.outbox.Keys == {e} && s.db.outbox[e].status.OutPending? && s.db.outbox[e].attempts == 0
    ensures Enabled(c, s, 0, ClaimBatch(w, token, {e}, {}))
    ensures Next(c, s, 0, ClaimBatch(w, token, {e}, {})) == NextClaimBatch(s, 0, w, token, {e})
    ensures var t := NextClaimBatch(s, 0, w, token, {e});
            && w in t.workers && t.workers[w] == Dispatching(token, map[e := 1])
            && e in t.db.outbox && HoldsRow(t.db, e, token) && t.db.outbox[e].payload == s.db.outbox[e].payload
            && t.db.outbox[e].eventType == s.db.outbox[e].eventType && t.db.outbox[e].version == s.db.outbox[e].version
  {
    TakesTheRow(s, w, e, token);
    hide NextClaimBatch;
    assert ClaimableRows(s.db, 0, c.outboxLease) - {} == {e};
  }

  lemma TakesTheRow(s: State, w: Id, e: Id, token: Id)
    requires s.db.outbox.Keys == {e} && s.db.outbox[e].attempts == 0
    ensures var t := NextClaimBatch(s, 0, w, token, {e});
            && w in t.workers && t.workers[w] == Dispatching(token, map[e := 1])
            && e in t.db.outbox && HoldsRow(t.db, e, token) && t.db.outbox[e].payload == s.db.outbox[e].payload
            && t.db.outbox[e].eventType == s.db.outbox[e].eventType && t.db.outbox[e].version == s.db.outbox[e].version
  {
  }

  lemma SendsTheRow(c: Config, s: State, w: Id, e: Id, token: Id, msg: Id)
    requires w in s.workers && s.workers[w] == Dispatching(token, map[e := 1]) && msg !in s.queue
    requires e in s.db.outbox && HoldsRow(s.db, e, token)
    requires SupportedSchema(s.db.outbox[e].eventType, s.db.outbox[e].version)
    ensures Enabled(c, s, 0, Action.Publish(w, e, msg, Done))
    ensures var t := Next(c, s, 0, Action.Publish(w, e, msg, Done));
            w in t.workers && t.workers[w] == Sent(token, map[], e, msg) && t.db == s.db
  {
    assert map[e := 1] - {e} == map[];
  }

  lemma MarkUnheard(c: Config, s: State, w: Id, e: Id, token: Id, msg: Id)
    requires w in s.workers && s.workers[w] == Sent(token, map[], e, msg) && HoldsRow(s.db, e, token)
    ensures Enabled(c, s, 0, MarkSent(w, DoneNoReply))
    ensures MovesWith(s, MarkSent(w, DoneNoReply), w, UNHEARD) && !MovesWith(s, MarkSent(w, DoneNoReply), w, HEARD)
    ensures var t := Next(c, s, 0, MarkSent(w, DoneNoReply));
            w in t.workers && t.workers[w] == Unsent(token, map[], e) && e in t.db.outbox && t.db.outbox[e].status.OutPublished?
  {
  }

  lemma EndsTheCall(c: Config, s: State, w: Id, e: Id, token: Id) returns (run: seq<Step>, u: State)
    requires w in s.workers && s.workers[w] == Unsent(token, map[], e)
    requires e in s.db.outbox && s.db.outbox[e].status.OutPublished?
    ensures Dispatch(c, s, run, u, w, 0, 0)
    ensures w in u.workers && u.workers[w].ReadyToReceive? && e in u.db.outbox && u.db.outbox[e].status.OutPublished?
  {
    hide Dispatch;
    var a, b := MarkUnsent(w, ""), EndDispatch(w);
    DispatchStep(c, s, 0, a, w);
    var t := Next(c, s, 0, a);
    DispatchStep(c, t, 0, b, w);
    u := Next(c, t, 0, b);
    DispatchJoin(c, s, [At(0, a)], t, [At(0, b)], u, w, 0, 0, 0, 0);
    run := [At(0, a)] + [At(0, b)];
  }

  lemma PendingRow(c: Config) returns (run: seq<Step>, s: State, w: Id, e: Id)
    ensures Path(c, INITIAL, run, s, 0) && Inv(c, s)
    ensures w in s.workers && s.workers[w].LoopTop?
    ensures s.db.outbox.Keys == {e} && s.db.outbox[e].status.OutPending? && s.db.outbox[e].attempts == 0
    ensures SupportedSchema(s.db.outbox[e].eventType, s.db.outbox[e].version)
  {
    hide Path, Inv, Grows;
    var first, t, j;
    first, t, j, e := CreateFirst(c);
    InitialInv(c);
    PathKeeps(c, INITIAL, first, t, 0);
    RowSupported(c, t, e);
    var more;
    more, s, w := NewWorker(c, t, 0);
    PathJoin(c, INITIAL, first, t, more, s, 0);
    run := first + more;
  }

  /** A call that claims one row, sends it and moves it to published, and whose loop counts nothing. */
  lemma CanUnderReport(c: Config) returns (before: seq<Step>, call: seq<Step>, w: Id, e: Id)
    requires 0 < c.limit
    ensures ValidFrom(c, INITIAL, before) && w in Exec(c, INITIAL, before).workers
    ensures var s := Exec(c, INITIAL, before);
            && s.workers[w].LoopTop? && e in s.db.outbox && !s.db.outbox[e].status.OutPublished?
            && ValidFrom(c, s, call)
            && (forall i :: 0 <= i < |call| ==> By(call[i].act, Thread(w)) && !call[i].act.Crash?)
            && Moved(c, s, call, w, HEARD) == 0 && Moved(c, s, call, w, UNHEARD) == 1
            && var u := Exec(c, s, call);
               w in u.workers && u.workers[w].ReadyToReceive? && e in u.db.outbox && u.db.outbox[e].status.OutPublished?
  {
    var s;
    before, s, w, e := PendingRow(c);
    hide ValidFrom, Exec, Moved, By, Enabled, Next, Inv, HoldsRow;
    var token := FreshId(s.log.issued);
    var a1 := ClaimBatch(w, token, {e}, {});
    ClaimsTheRow(c, s, w, e, token);
    assert By(a1, Thread(w)) by { IsOwn(a1, w); }
    DispatchStep(c, s, 0, a1, w);
    var s1 := Next(c, s, 0, a1);
    var msg := FreshId(s1.queue.Keys);
    var a2 := Action.Publish(w, e, msg, Done);
    SendsTheRow(c, s1, w, e, token, msg);
    assert By(a2, Thread(w)) by { IsOwn(a2, w); }
    DispatchStep(c, s1, 0, a2, w);
    var s2 := Next(c, s1, 0, a2);
    DispatchJoin(c, s, [At(0, a1)], s1, [At(0, a2)], s2, w, 0, 0, 0, 0);
    var a3 := MarkSent(w, DoneNoReply);
    MarkUnheard(c, s2, w, e, token, msg);
    assert By(a3, Thread(w)) by { IsOwn(a3, w); }
    DispatchStep(c, s2, 0, a3, w);
    var s3 := Next(c, s2, 0, a3);
    DispatchJoin(c, s, [At(0, a1)] + [At(0, a2)], s2, [At(0, a3)], s3, w, 0, 0, 0, 1);
    var last, u := EndsTheCall(c, s3, w, e, token);
    call := [At(0, a1)] + [At(0, a2)] + [At(0, a3)] + last;
    DispatchJoin(c, s, [At(0, a1)] + [At(0, a2)] + [At(0, a3)], s3, last, u, w, 0, 1, 0, 0);
  }

  lemma IsOwn(a: Action, w: Id)
    requires (a.ClaimBatch? || a.Publish? || a.MarkSent?) && a.w == w
    ensures By(a, Thread(w))
  {
  }

  /* ---- a heartbeat that ends ---- */

  lemma WakesAndFalls(c: Config, s: State, w: Id, j: Id) returns (run: seq<Step>)
    requires AtWork(s, w, j) && HeartWaits(s, w)
    ensures ValidFrom(c, s, run) && AtWork(Exec(c, s, run), w, j)
    ensures s.workers[w].claimed.token !in Exec(c, s, run).beats && Exec(c, s, run).db == s.db
    ensures forall i :: 0 <= i < |run| ==> run[i].now == 0
    ensures |run| == 2 && run[1].act == EndBeat(s.workers[w].claimed.token)
  {
    var t := s.workers[w].claimed.token;
    SingleStep(c, s, At(0, Wake(t)));
    var u := Next(c, s, 0, Wake(t));
    SingleStep(c, u, At(0, EndBeat(t)));
    ExecAppend(c, s, [At(0, Wake(t))], [At(0, EndBeat(t))]);
    run := [At(0, Wake(t))] + [At(0, EndBeat(t))];
  }

  /** One exception in one renewal, and a worker is left at work on a job it holds, with no heartbeat and no stop requested. */
  lemma HeartbeatCanVanish(c: Config) returns (before: seq<Step>, after: seq<Step>, w: Id, j: Id)
    requires 0 < c.maxReceives && 0 < c.limit
    ensures AllSmooth(before) && ValidFrom(c, INITIAL, before)
    ensures HeartWaits(Exec(c, INITIAL, before), w) && AtWork(Exec(c, INITIAL, before), w, j)
    ensures ValidFrom(c, Exec(c, INITIAL, before), after) && |after| == 2
    ensures var token, u := Exec(c, INITIAL, before).workers[w].claimed.token, Exec(c, Exec(c, INITIAL, before), after);
            after[1].act == EndBeat(token) && AtWork(u, w, j) && token !in u.beats
  {
    hide ValidFrom, Exec, AtWork, HeartWaits, AllSmooth;
    var s, m, e;
    before, s, w, m, e, j := ClaimedJobRun(c, 0);
    after := WakesAndFalls(c, s, w, j);
  }
}
