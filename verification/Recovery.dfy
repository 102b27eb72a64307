/**
 Recoverability: from every reachable state, an uncompleted job that something still carries has a finite, failure-free
 continuation ending in its completion; and one that nothing carries is never completed by any continuation.
 */
module Recovery {
  import opened Basics
  import opened Tables
  import opened Outbox
  import opened Pipeline
  import opened Invariant
  import opened Preservation
  import opened Safety

  /* ---- failure-free paths at one instant ---- */

  /**
   No crash, no exception, no lost reply, no refused call, no duplicate delivery, no row locked elsewhere, and no heartbeat
   that ends. (Marking a row unsent is the handler of an exception that came before.)
   */
  predicate Smooth(a: Action) {
    match a
    case Crash(_) => false
    case Fail(_, _) => false
    case EndBeat(_) => false
    case ClaimBatch(_, _, _, skipped) => skipped == {}
    case Publish(_, _, _, outcome) => outcome.Done?
    case MarkSent(_, outcome) => outcome.Done?
    case Receive(_, _, duplicate, replied) => !duplicate && replied
    case Delete(_, removed, acked) => removed && acked
    case Put(_, _, outcome) => outcome.Done?
    case Complete(_, outcome) => outcome.Done?
    case Extend(_, extended) => extended
    case _ => true
  }

  ghost predicate Path(c: Config, s: State, run: seq<Step>, u: State, now: Time) {
    && ValidFrom(c, s, run)
    && Exec(c, s, run) == u
    && forall i :: 0 <= i < |run| ==> run[i].now == now && Smooth(run[i].act)
  }

  lemma PathNone(c: Config, s: State, now: Time)
    ensures Path(c, s, [], s, now)
  {
  }

  lemma PathStep(c: Config, s: State, a: Action, now: Time)
    requires Enabled(c, s, now, a) && Smooth(a)
    ensures Path(c, s, [At(now, a)], Next(c, s, now, a), now)
  {
    hide Enabled, Next, Smooth;
    var t := Next(c, s, now, a);
    var run := [At(now, a)];
    assert run[1..] == [];
    assert ValidFrom(c, t, run[1..]) && Exec(c, t, run[1..]) == t;
  }

  lemma PathJoin(c: Config, s: State, run: seq<Step>, t: State, more: seq<Step>, u: State, now: Time)
    requires Path(c, s, run, t, now) && Path(c, t, more, u, now)
    ensures Path(c, s, run + more, u, now)
  {
    hide ValidFrom, Exec, Smooth;
    ExecAppend(c, s, run, more);
  }

  lemma PathKeeps(c: Config, s: State, run: seq<Step>, u: State, now: Time)
    requires Path(c, s, run, u, now) && Inv(c, s)
    ensures Inv(c, u) && Grows(s, u)
  {
    hide Inv, Grows, ValidFrom, Exec, Smooth;
    RunKeeps(c, s, run);
  }

  lemma {:induction false} InstantMonotone(run: seq<Step>, now: Time)
    requires forall i :: 0 <= i < |run| ==> run[i].now == now
    ensures Monotone(run, now)
    decreases |run|
  {
    if run != [] {
      InstantMonotone(run[1..], now);
    }
  }

  lemma {:induction false} FreshId(ids: set<Id>) returns (id: Id)
    ensures id !in ids
    ensures forall i :: i in ids ==> i < id
    decreases ids
  {
    if ids == {} {
      id := 0;
    } else {
      var x :| x in ids;
      var y := FreshId(ids - {x});
      id := if x < y then y else x + 1;
      assert forall i :: i in ids ==> i == x || i in ids - {x};
    }
  }

  /* ---- from a claim to a completion ---- */

  lemma StoredCompletes(c: Config, s: State, w: Id, now: Time) returns (run: seq<Step>, u: State)
    requires w in s.workers && s.workers[w].Stored?
    requires HoldsJob(s.db, s.workers[w].claimed.job, s.workers[w].claimed.token)
    ensures Path(c, s, run, u, now) && IsCompleted(u, s.workers[w].claimed.job)
  {
    hide Path;
    PathStep(c, s, Complete(w, Done), now);
    run, u := [At(now, Complete(w, Done))], NextComplete(s, now, w, Done);
  }

  lemma WorkingCompletes(c: Config, s: State, w: Id, now: Time) returns (run: seq<Step>, u: State)
    requires w in s.workers && s.workers[w].Working?
    requires HoldsJob(s.db, s.workers[w].claimed.job, s.workers[w].claimed.token)
    ensures Path(c, s, run, u, now) && IsCompleted(u, s.workers[w].claimed.job)
  {
    hide Path;
    var report := FreshId(s.log.issued);
    var a := Put(w, report, Done);
    PathStep(c, s, a, now);
    var t := NextPut(s, w, report, Done);
    var more, v := StoredCompletes(c, t, w, now);
    PathJoin(c, s, [At(now, a)], t, more, v, now);
    run, u := [At(now, a)] + more, v;
  }

  lemma ReceivedCompletes(c: Config, s: State, w: Id, now: Time) returns (run: seq<Step>, u: State)
    requires w in s.workers && s.workers[w].Received? && CanClaim(s.db, s.workers[w].job, now, c.jobLease)
    ensures Path(c, s, run, u, now) && IsCompleted(u, s.workers[w].job)
  {
    hide Path;
    var token := FreshId(s.log.issued);
    var a := ClaimJob(w, token);
    PathStep(c, s, a, now);
    var t := NextClaimJob(c, s, now, w, token);
    var more, v := WorkingCompletes(c, t, w, now);
    PathJoin(c, s, [At(now, a)], t, more, v, now);
    run, u := [At(now, a)] + more, v;
  }

  /** The message can be received at `now` without being a duplicate delivery. */
  predicate Offered(c: Config, s: State, m: Id, now: Time) {
    && m in s.queue && s.queue[m].place.MainQueue? && s.queue[m].receives < c.maxReceives && s.queue[m].visibleAt <= now
    && SupportedSchema(s.queue[m].body.eventType, s.queue[m].body.version)
  }

  lemma OfferedCompletes(c: Config, s: State, w: Id, m: Id, now: Time) returns (run: seq<Step>, u: State)
    requires w in s.workers && s.workers[w].ReadyToReceive? && Offered(c, s, m, now)
    requires CanClaim(s.db, s.queue[m].body.job, now, c.jobLease)
    ensures Path(c, s, run, u, now) && IsCompleted(u, s.queue[m].body.job)
  {
    hide Path, CanClaim;
    var a := Receive(w, m, false, true);
    PathStep(c, s, a, now);
    var t := NextReceive(c, s, now, w, m, true);
    var more, v := ReceivedCompletes(c, t, w, now);
    PathJoin(c, s, [At(now, a)], t, more, v, now);
    run, u := [At(now, a)] + more, v;
  }

  /* ---- a failure-free dispatcher call ---- */

  /** What a dispatcher leaves alone. */
  ghost predicate Beside(s: State, u: State) {
    && u.db.jobs == s.db.jobs
    && u.db.outbox.Keys == s.db.outbox.Keys
    && (forall e :: e in s.db.outbox ==> SameEvent(s.db.outbox[e], u.db.outbox[e]))
    && (forall m :: m in s.queue ==> m in u.queue && u.queue[m] == s.queue[m])
  }

  predicate SameEvent(before: OutboxRow, after: OutboxRow) {
    after.eventType == before.eventType && after.version == before.version && after.payload == before.payload
  }

  lemma BesideTransitive(s: State, t: State, u: State)
    requires Beside(s, t) && Beside(t, u)
    ensures Beside(s, u)
  {
  }

  /** A message sent at `now` and not received since. */
  predicate JustSent(c: Config, s: State, m: Id, j: Id, now: Time) {
    Offered(c, s, m, now) && s.queue[m].body.job == j && s.queue[m].receives == 0 && s.queue[m].visibleAt == now
  }

  ghost predicate Announced(c: Config, s: State, j: Id, now: Time) {
    exists m :: JustSent(c, s, m, j, now)
  }

  lemma AnnouncedStill(c: Config, s: State, u: State, j: Id, now: Time)
    requires Announced(c, s, j, now) && Beside(s, u)
    ensures Announced(c, u, j, now)
  {
    var m :| JustSent(c, s, m, j, now);
    assert JustSent(c, u, m, j, now);
  }

  /** Send one row of the batch and mark it. */
  lemma SendOne(c: Config, s: State, w: Id, e: Id, now: Time) returns (run: seq<Step>, u: State)
    requires w in s.workers && s.workers[w].Dispatching? && e in s.workers[w].todo && e in s.db.outbox
    requires SupportedSchema(s.db.outbox[e].eventType, s.db.outbox[e].version) && 0 < c.maxReceives
    ensures Path(c, s, run, u, now) && Beside(s, u)
    ensures u.db == MarkPublished(s.db, e, s.workers[w].batch, now)
    ensures u.workers == s.workers[w := Dispatching(s.workers[w].batch, s.workers[w].todo - {e})]
    ensures Announced(c, u, s.db.outbox[e].payload.job, now)
  {
    hide Path;
    var msg := FreshId(s.queue.Keys);
    var a, b := Publish(w, e, msg, Done), MarkSent(w, Done);
    PathStep(c, s, a, now);
    var t := NextPublish(s, now, w, e, msg, Done);
    PathStep(c, t, b, now);
    u := NextMarkSent(t, now, w, Done);
    PathJoin(c, s, [At(now, a)], t, [At(now, b)], u, now);
    run := [At(now, a)] + [At(now, b)];
    assert u.workers == s.workers[w := Dispatching(s.workers[w].batch, s.workers[w].todo - {e})];
    assert JustSent(c, u, msg, s.db.outbox[e].payload.job, now);
  }

  lemma PublishOneMore(db: Db, e: Id, token: Id, rest: set<Id>, now: Time)
    requires HoldsRow(db, e, token) && e !in rest && rest <= db.outbox.Keys
    requires forall f :: f in rest ==> HoldsRow(db, f, token)
    ensures PublishAll(MarkPublished(db, e, token, now), rest, now) == PublishAll(db, rest + {e}, now)
    ensures forall f :: f in rest ==> HoldsRow(MarkPublished(db, e, token, now), f, token)
  {
    var one, all := PublishAll(MarkPublished(db, e, token, now), rest, now), PublishAll(db, rest + {e}, now);
    assert one.outbox == all.outbox;
  }

  predicate Sendable(db: Db, rows: set<Id>, token: Id) {
    && rows <= db.outbox.Keys
    && (forall e :: e in rows ==> HoldsRow(db, e, token))
    && (forall e :: e in rows ==> SupportedSchema(db.outbox[e].eventType, db.outbox[e].version))
  }

  lemma PublishNone(db: Db, now: Time)
    ensures PublishAll(db, {}, now) == db
  {
    assert PublishAll(db, {}, now).outbox == db.outbox;
  }

  lemma {:induction false} SendAll(c: Config, s: State, w: Id, now: Time) returns (run: seq<Step>, u: State)
    requires w in s.workers && s.workers[w].Dispatching? && Sendable(s.db, s.workers[w].todo.Keys, s.workers[w].batch)
    requires 0 < c.maxReceives
    ensures Path(c, s, run, u, now) && Beside(s, u)
    ensures u.db == PublishAll(s.db, s.workers[w].todo.Keys, now)
    ensures u.workers == s.workers[w := Dispatching(s.workers[w].batch, map[])]
    ensures forall e :: e in s.workers[w].todo ==> Announced(c, u, s.db.outbox[e].payload.job, now)
    decreases s.workers[w].todo.Keys
  {
    hide Path, Announced, PublishAll, JustSent;
    var todo, token := s.workers[w].todo, s.workers[w].batch;
    if todo.Keys == {} {
      run, u := [], s;
      PathNone(c, s, now);
      assert todo == map[];
      PublishNone(s.db, now);
    } else {
      var e :| e in todo;
      var rest := todo.Keys - {e};
      var first, t := SendOne(c, s, w, e, now);
      assert rest + {e} == todo.Keys;
      PublishOneMore(s.db, e, token, rest, now);
      assert t.workers[w].todo.Keys == rest;
      var more, v := SendAll(c, t, w, now);
      PathJoin(c, s, first, t, more, v, now);
      BesideTransitive(s, t, v);
      run, u := first + more, v;
      forall f | f in todo ensures Announced(c, u, s.db.outbox[f].payload.job, now) {
        if f == e {
          AnnouncedStill(c, t, v, s.db.outbox[e].payload.job, now);
        } else {
          assert f in t.workers[w].todo;
        }
      }
    }
  }

  lemma ClaimFirst(c: Config, s: State, w: Id, now: Time) returns (run: seq<Step>, t: State, batch: set<Id>, token: Id)
    requires Inv(c, s) && w in s.workers && s.workers[w].LoopTop?
    ensures IsBatch(s.db, batch, {}, c.limit, now, c.outboxLease) && batch <= s.db.outbox.Keys
    ensures Path(c, s, run, t, now) && Beside(s, t)
    ensures t.db == ClaimEvents(s.db, batch, token, now) && Sendable(t.db, batch, token)
    ensures w in t.workers && t.workers[w].Dispatching? && t.workers[w].batch == token && t.workers[w].todo.Keys == batch
    ensures t.workers == s.workers[w := t.workers[w]]
  {
    hide Path, Inv, IsBatch, Sendable;
    batch := BatchExists(s.db, {}, c.limit, now, c.outboxLease);
    token := FreshId(s.log.issued);
    BatchIsClaimable(s.db, batch, {}, c.limit, now, c.outboxLease);
    var a := ClaimBatch(w, token, batch, {});
    PathStep(c, s, a, now);
    run, t := [At(now, a)], NextClaimBatch(s, now, w, token, batch);
    BatchSendable(c, s, batch, token, now);
  }

  lemma EndRound(c: Config, s: State, w: Id, now: Time) returns (run: seq<Step>, u: State)
    requires w in s.workers && s.workers[w].Dispatching? && s.workers[w].todo == map[]
    ensures Path(c, s, run, u, now) && Beside(s, u) && u == SetWorker(s, w, ReadyToReceive)
  {
    hide Path;
    PathStep(c, s, EndDispatch(w), now);
    run, u := [At(now, EndDispatch(w))], SetWorker(s, w, ReadyToReceive);
  }

  /** A whole failure-free call of `dispatch_outbox`: exactly the selected rows are published, and their jobs announced. */
  lemma Round(c: Config, s: State, w: Id, now: Time) returns (run: seq<Step>, u: State, batch: set<Id>, token: Id)
    requires Inv(c, s) && w in s.workers && s.workers[w].LoopTop? && 0 < c.maxReceives
    ensures IsBatch(s.db, batch, {}, c.limit, now, c.outboxLease)
    ensures Path(c, s, run, u, now) && Beside(s, u)
    ensures u.db == DispatchCall(s.db, batch, token, now)
    ensures u.workers == s.workers[w := ReadyToReceive]
    ensures forall e :: e in batch ==> e in s.db.outbox && Announced(c, u, s.db.outbox[e].payload.job, now)
  {
    hide Path, Announced, Inv, IsBatch, Sendable, ClaimEvents, PublishAll;
    var first, more, last, t, v;
    first, t, batch, token := ClaimFirst(c, s, w, now);
    more, v := SendAll(c, t, w, now);
    last, u := EndRound(c, v, w, now);
    BesideTransitive(s, t, v);
    BesideTransitive(s, v, u);
    PathJoin(c, s, first, t, more, v, now);
    PathJoin(c, s, first + more, v, last, u, now);
    run := first + more + last;
    forall e | e in batch ensures Announced(c, u, s.db.outbox[e].payload.job, now) {
      AnnouncedStill(c, v, u, s.db.outbox[e].payload.job, now);
    }
  }

  lemma BatchSendable(c: Config, s: State, batch: set<Id>, token: Id, now: Time)
    requires Inv(c, s) && batch <= s.db.outbox.Keys
    ensures Sendable(ClaimEvents(s.db, batch, token, now), batch, token)
  {
    hide Inv, AllApart, EventsMatchJobs, ResultsAgree, MetadataAgrees, CompletionsAudited, CreationsAudited;
    Parts(c, s);
  }

  /* ---- draining older rows until one's own is sent ---- */

  /** Every unpublished row can be claimed at `now`: no claim of it is still fresh. */
  predicate Ripe(db: Db, now: Time, lease: int) {
    forall e :: e in db.outbox && !db.outbox[e].status.OutPublished? ==> RowClaimable(db.outbox[e], now, lease)
  }

  lemma RoundProgress(db: Db, batch: set<Id>, token: Id, e: Id, limit: nat, now: Time, lease: int)
    requires IsBatch(db, batch, {}, limit, now, lease) && Ripe(db, now, lease) && 0 < limit
    requires e in db.outbox && !db.outbox[e].status.OutPublished? && e !in batch
    ensures var after := DispatchCall(db, batch, token, now);
            && Ripe(after, now, lease)
            && e in after.outbox && after.outbox[e] == db.outbox[e]
            && |ClaimableRows(after, now, lease)| < |ClaimableRows(db, now, lease)|
  {
    CallTakes(db, batch, token, limit, now, lease);
    assert e in ClaimableRows(db, now, lease);
  }

  lemma Idle(c: Config, s: State, w: Id, now: Time) returns (run: seq<Step>, u: State)
    requires w in s.workers && s.workers[w].ReadyToReceive?
    ensures Path(c, s, run, u, now) && Beside(s, u) && u == SetWorker(s, w, LoopTop)
  {
    hide Path;
    PathStep(c, s, ReceiveNothing(w), now);
    run, u := [At(now, ReceiveNothing(w))], SetWorker(s, w, LoopTop);
  }

  lemma {:induction false} Drain(c: Config, s: State, w: Id, e: Id, now: Time) returns (run: seq<Step>, u: State)
    requires Inv(c, s) && w in s.workers && s.workers[w].LoopTop? && 0 < c.maxReceives && 0 < c.limit
    requires e in s.db.outbox && !s.db.outbox[e].status.OutPublished? && Ripe(s.db, now, c.outboxLease)
    ensures Path(c, s, run, u, now) && Beside(s, u)
    ensures w in u.workers && u.workers[w].ReadyToReceive?
    ensures Announced(c, u, s.db.outbox[e].payload.job, now)
    decreases |ClaimableRows(s.db, now, c.outboxLease)|
  {
    hide Path, Announced, Inv, Grows, IsBatch, Ripe, DispatchCall;
    var first, t, batch, token := Round(c, s, w, now);
    if e in batch {
      run, u := first, t;
    } else {
      RoundProgress(s.db, batch, token, e, c.limit, now, c.outboxLease);
      var second, v := Idle(c, t, w, now);
      PathJoin(c, s, first, t, second, v, now);
      PathKeeps(c, s, first + second, v, now);
      BesideTransitive(s, t, v);
      var more, x := Drain(c, v, w, e, now);
      PathJoin(c, s, first + second, v, more, x, now);
      BesideTransitive(s, v, x);
      run, u := first + second + more, x;
    }
  }

  /* ---- every way a job can be carried ---- */

  lemma NewWorker(c: Config, s: State, now: Time) returns (run: seq<Step>, u: State, w: Id)
    requires Inv(c, s)
    ensures Path(c, s, run, u, now) && Beside(s, u) && Inv(c, u)
    ensures w !in s.workers && u == SetWorker(s, w, LoopTop)
  {
    hide Path, Inv;
    w := FreshId(s.workers.Keys);
    PathStep(c, s, Start(w), now);
    run, u := [At(now, Start(w))], SetWorker(s, w, LoopTop);
    PathKeeps(c, s, run, u, now);
  }

  lemma MessageCompletes(c: Config, s: State, m: Id, now: Time) returns (run: seq<Step>, u: State)
    requires Inv(c, s) && Offered(c, s, m, now) && CanClaim(s.db, s.queue[m].body.job, now, c.jobLease)
    ensures Path(c, s, run, u, now) && IsCompleted(u, s.queue[m].body.job)
  {
    hide Path, Inv, JobClaimable, IsBatch, DispatchCall;
    var first, t, w := NewWorker(c, s, now);
    var second, v, batch, token := Round(c, t, w, now);
    PathJoin(c, s, first, t, second, v, now);
    assert Offered(c, v, m, now);
    var third, x := OfferedCompletes(c, v, w, m, now);
    PathJoin(c, s, first + second, v, third, x, now);
    run, u := first + second + third, x;
  }

  lemma UnpublishedCompletes(c: Config, s: State, j: Id, e: Id, now: Time) returns (run: seq<Step>, u: State)
    requires Inv(c, s) && CanClaim(s.db, j, now, c.jobLease) && 0 < c.maxReceives && 0 < c.limit
    requires e in s.db.outbox && s.db.outbox[e].payload.job == j && !s.db.outbox[e].status.OutPublished?
    requires Ripe(s.db, now, c.outboxLease)
    ensures Path(c, s, run, u, now) && IsCompleted(u, j)
  {
    hide Path, Inv, JobClaimable, Ripe;
    var first, t, w := NewWorker(c, s, now);
    var second, v := Drain(c, t, w, e, now);
    PathJoin(c, s, first, t, second, v, now);
    var m :| JustSent(c, v, m, j, now);
    var third, x := OfferedCompletes(c, v, w, m, now);
    PathJoin(c, s, first + second, v, third, x, now);
    run, u := first + second + third, x;
  }

  /** The rows a dispatcher has claimed and not yet sent. */
  function Unfinished(worker: Worker): map<Id, nat> {
    if worker.Dispatching? || worker.Sent? || worker.Unsent? then worker.todo else map[]
  }

  predicate WillSend(s: State, w: Id, e: Id, j: Id) {
    w in s.workers && e in Unfinished(s.workers[w]) && e in s.db.outbox && s.db.outbox[e].payload.job == j
  }

  predicate WillClaim(s: State, w: Id, j: Id) {
    w in s.workers && s.workers[w].Received? && s.workers[w].job == j
  }

  predicate WillComplete(s: State, w: Id, j: Id) {
    && w in s.workers && (s.workers[w].Working? || s.workers[w].Stored?)
    && s.workers[w].claimed.job == j && HoldsJob(s.db, j, s.workers[w].claimed.token)
  }

  predicate Deliverable(c: Config, s: State, m: Id, j: Id) {
    m in s.queue && s.queue[m].body.job == j && s.queue[m].place.MainQueue? && s.queue[m].receives < c.maxReceives
  }

  predicate Unpublished(s: State, e: Id, j: Id) {
    e in s.db.outbox && s.db.outbox[e].payload.job == j && !s.db.outbox[e].status.OutPublished?
  }

  /** Something still carries the job: a row, a claim of a row, a message, a delivery, or the job's own claim. */
  ghost predicate Carried(c: Config, s: State, j: Id) {
    || (exists e :: Unpublished(s, e, j))
    || (exists m :: Deliverable(c, s, m, j))
    || (exists w, e :: WillSend(s, w, e, j))
    || (exists w :: WillClaim(s, w, j))
    || (exists w :: WillComplete(s, w, j))
  }

  lemma WillSendCompletes(c: Config, s: State, w: Id, e: Id, j: Id, now: Time) returns (run: seq<Step>, u: State)
    requires Inv(c, s) && WillSend(s, w, e, j) && CanClaim(s.db, j, now, c.jobLease) && 0 < c.maxReceives
    ensures Path(c, s, run, u, now) && IsCompleted(u, j)
  {
    hide Path, Inv, Grows, JobClaimable, Announced;
    var before, t := [], s;
    PathNone(c, s, now);
    if s.workers[w].Sent? {
      PathStep(c, s, MarkSent(w, Done), now);
      before, t := [At(now, MarkSent(w, Done))], NextMarkSent(s, now, w, Done);
    } else if s.workers[w].Unsent? {
      PathStep(c, s, MarkUnsent(w, ""), now);
      before, t := [At(now, MarkUnsent(w, ""))], Next(c, s, now, MarkUnsent(w, ""));
    }
    assert t.db.jobs == s.db.jobs && WillSend(t, w, e, j) && t.workers[w].Dispatching?;
    PathKeeps(c, s, before, t, now);
    RowSupported(c, t, e);
    var first, v := SendOne(c, t, w, e, now);
    PathJoin(c, s, before, t, first, v, now);
    PathKeeps(c, s, before + first, v, now);
    var m := AnnouncedMessage(c, v, j, now);
    var second, x := MessageCompletes(c, v, m, now);
    PathJoin(c, s, before + first, v, second, x, now);
    run, u := before + first + second, x;
  }

  lemma AnnouncedMessage(c: Config, s: State, j: Id, now: Time) returns (m: Id)
    requires Announced(c, s, j, now)
    ensures JustSent(c, s, m, j, now)
  {
    m :| JustSent(c, s, m, j, now);
  }

  lemma RowSupported(c: Config, s: State, e: Id)
    requires Inv(c, s) && e in s.db.outbox
    ensures SupportedSchema(s.db.outbox[e].eventType, s.db.outbox[e].version)
  {
    hide Inv, AllApart, EventsMatchJobs, ResultsAgree, MetadataAgrees, CompletionsAudited, CreationsAudited;
    Parts(c, s);
    assert OutboxRowOk(s.db.outbox[e]);
  }

  /* ---- waiting long enough ---- */

  lemma {:induction false} UpperBound(times: set<Time>) returns (b: Time)
    ensures forall t :: t in times ==> t <= b
    decreases times
  {
    if x :| x in times {
      b := UpperBound(times - {x});
      b := if x < b then b else x;
      assert forall t :: t in times ==> t == x || t in times - {x};
    } else {
      b := 0;
    }
  }

  /** All leases of claims have run out and all messages are visible again. */
  predicate LateEnough(c: Config, s: State, j: Id, now: Time) {
    && (j in s.db.jobs && s.db.jobs[j].startedAt.Some? ==> s.db.jobs[j].startedAt.value + c.jobLease < now)
    && (forall e :: e in s.db.outbox && s.db.outbox[e].lockedAt.Some? ==> s.db.outbox[e].lockedAt.value + c.outboxLease < now)
    && (forall m :: m in s.queue ==> s.queue[m].visibleAt <= now)
  }

  lemma LateEnoughComes(c: Config, s: State, j: Id, from: Time) returns (now: Time)
    requires j in s.db.jobs
    ensures from <= now && LateEnough(c, s, j, now)
  {
    var locks := set e | e in s.db.outbox && s.db.outbox[e].lockedAt.Some? :: s.db.outbox[e].lockedAt.value;
    var shown := set m | m in s.queue :: s.queue[m].visibleAt;
    var l := UpperBound(locks);
    var v := UpperBound(shown);
    var job := s.db.jobs[j];
    var started := if job.startedAt.Some? then job.startedAt.value else from;
    var bounds := {from, l + c.outboxLease + 1, v, started + c.jobLease + 1};
    now := UpperBound(bounds);
    assert from in bounds && l + c.outboxLease + 1 in bounds && v in bounds && started + c.jobLease + 1 in bounds;
    forall e | e in s.db.outbox && s.db.outbox[e].lockedAt.Some? ensures s.db.outbox[e].lockedAt.value + c.outboxLease < now {
      assert s.db.outbox[e].lockedAt.value in locks;
    }
    forall m | m in s.queue ensures s.queue[m].visibleAt <= now {
      assert s.queue[m].visibleAt in shown;
    }
  }

  lemma LateClaims(c: Config, s: State, j: Id, now: Time)
    requires RowsOk(s.db) && j in s.db.jobs && !IsCompleted(s, j) && LateEnough(c, s, j, now)
    ensures CanClaim(s.db, j, now, c.jobLease) && Ripe(s.db, now, c.outboxLease)
  {
    assert JobRowOk(s.db.jobs[j]);
    forall e | e in s.db.outbox && !s.db.outbox[e].status.OutPublished?
      ensures RowClaimable(s.db.outbox[e], now, c.outboxLease)
    {
      assert OutboxRowOk(s.db.outbox[e]);
    }
  }

  lemma MessageSupported(c: Config, s: State, m: Id)
    requires Inv(c, s) && m in s.queue
    ensures SupportedSchema(s.queue[m].body.eventType, s.queue[m].body.version)
  {
    hide Inv, AllApart, Consistent;
    Parts(c, s);
    assert MessageOk(c, s, m);
  }

  /**
   A carried job is completed by a failure-free continuation at any instant more than the lease after the job's stamp, more
   than the outbox lease after every lock, and not before any message is visible.
   */
  lemma CarriedCompletesAt(c: Config, s: State, j: Id, now: Time) returns (run: seq<Step>, u: State)
    requires Reachable(c, s) && j in s.db.jobs && !IsCompleted(s, j) && Carried(c, s, j)
    requires 0 < c.maxReceives && 0 < c.limit
    requires s.db.jobs[j].startedAt.Some? ==> s.db.jobs[j].startedAt.value + c.jobLease < now
    requires forall e :: e in s.db.outbox && s.db.outbox[e].lockedAt.Some? ==> s.db.outbox[e].lockedAt.value + c.outboxLease < now
    requires forall m :: m in s.queue ==> s.queue[m].visibleAt <= now
    ensures Path(c, s, run, u, now) && IsCompleted(u, j)
  {
    assert LateEnough(c, s, j, now);
    hide Path, Inv, Reachable, CanClaim, Ripe, LateEnough, Carried;
    ReachableInv(c, s);
    RowsAreOk(c, s);
    LateClaims(c, s, j, now);
    run, u := CompletesNow(c, s, j, now);
  }

  lemma CompletesNow(c: Config, s: State, j: Id, now: Time) returns (run: seq<Step>, u: State)
    requires Inv(c, s) && j in s.db.jobs && Carried(c, s, j) && 0 < c.maxReceives && 0 < c.limit
    requires CanClaim(s.db, j, now, c.jobLease) && Ripe(s.db, now, c.outboxLease)
    requires forall m :: m in s.queue ==> s.queue[m].visibleAt <= now
    ensures Path(c, s, run, u, now) && IsCompleted(u, j)
  {
    hide Path, Inv, CanClaim, Ripe;
    if e :| Unpublished(s, e, j) {
      run, u := UnpublishedCompletes(c, s, j, e, now);
    } else if m :| Deliverable(c, s, m, j) {
      MessageSupported(c, s, m);
      assert Offered(c, s, m, now);
      run, u := MessageCompletes(c, s, m, now);
    } else if w, e :| WillSend(s, w, e, j) {
      run, u := WillSendCompletes(c, s, w, e, j, now);
    } else if w :| WillClaim(s, w, j) {
      run, u := ReceivedCompletes(c, s, w, now);
    } else {
      var w :| WillComplete(s, w, j);
      if s.workers[w].Working? {
        run, u := WorkingCompletes(c, s, w, now);
      } else {
        run, u := StoredCompletes(c, s, w, now);
      }
    }
  }

  /** So it is completed by some failure-free continuation, starting at any later time. */
  lemma CarriedCompletes(c: Config, s: State, j: Id, from: Time) returns (run: seq<Step>, u: State, now: Time)
    requires Reachable(c, s) && j in s.db.jobs && !IsCompleted(s, j) && Carried(c, s, j)
    requires 0 < c.maxReceives && 0 < c.limit
    ensures from <= now && Path(c, s, run, u, now) && IsCompleted(u, j)
  {
    hide Path, Reachable, Carried;
    now := LateEnoughComes(c, s, j, from);
    run, u := CarriedCompletesAt(c, s, j, now);
  }

  lemma RowsAreOk(c: Config, s: State)
    requires Inv(c, s)
    ensures RowsOk(s.db)
  {
    hide Inv, RowsOk, AllApart, EventsMatchJobs, ResultsAgree, MetadataAgrees, CompletionsAudited, CreationsAudited;
    Parts(c, s);
  }
}
