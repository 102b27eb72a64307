/**
 The whole job pipeline as one step system: the API, any number of worker processes (each
 alternating between the outbox dispatcher and the queue consumer), their heartbeat threads,
 the at-least-once queue and its dead-letter queue.

 A step is an atomic transaction or service call of one agent, stamped with the clock reading
 that call sees. A call inside a `try` has three outcomes: done, done with the reply lost, not
 done. A call outside every `try` that raises kills its process; that is the call (if it took
 effect) followed by `Crash`, which may happen between any two steps anyway.
 */
module Pipeline {
  import opened Basics
  import opened Tables

  datatype Config = Config(jobLease: int, outboxLease: int, visibility: int, maxReceives: nat, limit: nat)

  /* ---- the queue ---- */

  datatype Place = MainQueue | DeadLetter | Deleted

  // The claim of an outbox row that allowed one send: the row and its attempt number.
  datatype Grant = Grant(event: Id, attempt: nat)

  // Deleted messages stay in the table, so receives of a job can be counted over a whole run.
  datatype Message = Message(body: Body, origin: Grant, receives: nat, visibleAt: Time, place: Place)

  datatype Handle = Handle(msg: Id, receipt: nat)

  /* ---- agents ---- */

  // How the `with VisibilityHeartbeat` block was left.
  datatype Exit = Returned | LostClaim | Raised

  // What one worker thread is about to do.
  datatype Worker =
    | LoopTop
    | Dispatching(batch: Id, todo: map<Id, nat>)
    | Sent(batch: Id, todo: map<Id, nat>, event: Id, msg: Id)
    | Unsent(batch: Id, todo: map<Id, nat>, event: Id)
    | ReadyToReceive
    | Received(handle: Handle, job: Id)
    | TurnedAway(handle: Handle, job: Id)
    | DeletingDuplicate(handle: Handle, job: Id)
    | Working(handle: Handle, claimed: ClaimedJob)
    | Stored(handle: Handle, claimed: ClaimedJob, key: Key)
    | Unwinding(handle: Handle, claimed: ClaimedJob, exit: Exit)
    | Deleting(handle: Handle, claimed: ClaimedJob)
    | Failing(handle: Handle, claimed: ClaimedJob)

  datatype BeatPoint = Waiting | Awake | Extending

  // A heartbeat thread; it is named by the processing token it renews.
  datatype Beat = Beat(worker: Id, job: Id, handle: Handle, stop: bool, at: BeatPoint)

  // A stored report: who wrote it and the three values in its rows besides the job id.
  datatype Artifact = Artifact(token: Id, jobType: string, attempt: nat)

  datatype Claim = Claim(job: Id, attempt: nat, handle: Handle, worker: Id)

  // What has happened, kept only to state properties of whole runs.
  datatype Log = Log(
    issued: set<Id>, claims: map<Id, Claim>, deliveries: map<Handle, Id>, grants: map<Grant, Id>,
    publishedBy: map<Id, Id>)

  datatype State = State(
    db: Db, queue: map<Id, Message>, artifacts: map<Key, Artifact>, workers: map<Id, Worker>,
    beats: map<Id, Beat>, log: Log)

  const INITIAL := State(EMPTY_DB, map[], map[], map[], map[], Log({}, map[], map[], map[], map[]))

  /* ---- steps ---- */

  datatype Action =
    | Create(job: Id, event: Id, jobType: string, payload: string, correlation: Option<string>)
    | Start(w: Id)
    | Crash(w: Id)
    | ClaimBatch(w: Id, token: Id, batch: set<Id>, skipped: set<Id>)
    | Publish(w: Id, event: Id, msg: Id, outcome: Outcome)
    | MarkSent(w: Id, outcome: Outcome)
    | MarkUnsent(w: Id, error: string)
    | EndDispatch(w: Id)
    | ReceiveNothing(w: Id)
    | Receive(w: Id, msg: Id, duplicate: bool, replied: bool)
    | Redrive(msg: Id)
    | ClaimJob(w: Id, token: Id)
    | LookUp(w: Id)
    | Delete(w: Id, removed: bool, acked: bool)
    | Put(w: Id, report: Id, outcome: Outcome)
    | Complete(w: Id, outcome: Outcome)
    | Leave(w: Id)
    | Fail(w: Id, error: string)
    | Wake(beat: Id)
    | Renew(beat: Id)
    | Extend(beat: Id, extended: bool)
    | EndBeat(beat: Id)

  datatype Step = At(now: Time, act: Action)

  predicate Takes(outcome: Outcome) {
    !outcome.NotDone?
  }

  function HandleOf(worker: Worker): Handle
    requires worker.DeletingDuplicate? || worker.Deleting?
  {
    worker.handle
  }

  predicate Enabled(c: Config, s: State, now: Time, a: Action) {
    match a
    case Create(j, e, _, _, _) => j !in s.log.issued && e !in s.log.issued && j != e
    case Start(w) => w !in s.workers
    case Crash(w) => w in s.workers
    case ClaimBatch(w, token, batch, skipped) =>
      && w in s.workers && s.workers[w].LoopTop?
      && token !in s.log.issued
      && IsBatch(s.db, batch, skipped, c.limit, now, c.outboxLease)
    case Publish(w, e, msg, outcome) =>
      && w in s.workers && s.workers[w].Dispatching?
      && e in s.workers[w].todo && e in s.db.outbox
      && msg !in s.queue
    case MarkSent(w, outcome) => w in s.workers && s.workers[w].Sent?
    case MarkUnsent(w, _) => w in s.workers && s.workers[w].Unsent?
    case EndDispatch(w) => w in s.workers && s.workers[w].Dispatching? && s.workers[w].todo == map[]
    case ReceiveNothing(w) => w in s.workers && s.workers[w].ReadyToReceive?
    case Receive(w, m, duplicate, replied) =>
      && w in s.workers && s.workers[w].ReadyToReceive?
      && m in s.queue && s.queue[m].place.MainQueue? && s.queue[m].receives < c.maxReceives
      && (duplicate || s.queue[m].visibleAt <= now)
    case Redrive(m) =>
      m in s.queue && s.queue[m].place.MainQueue? && c.maxReceives <= s.queue[m].receives && s.queue[m].visibleAt <= now
    case ClaimJob(w, token) => w in s.workers && s.workers[w].Received? && token !in s.log.issued
    case LookUp(w) => w in s.workers && s.workers[w].TurnedAway?
    case Delete(w, removed, acked) =>
      && w in s.workers && (s.workers[w].DeletingDuplicate? || s.workers[w].Deleting?)
      && (s.workers[w].DeletingDuplicate? ==> acked)
      && var h := HandleOf(s.workers[w]);
         && h.msg in s.queue
         && (removed ==> s.queue[h.msg].place.MainQueue?)
         // A request with an outdated receipt handle may succeed without removing the message.
         && (acked && !removed ==> !s.queue[h.msg].place.MainQueue? || h.receipt != s.queue[h.msg].receives)
    case Put(w, report, _) => w in s.workers && s.workers[w].Working? && report !in s.log.issued
    case Complete(w, _) => w in s.workers && s.workers[w].Stored?
    case Leave(w) => w in s.workers && s.workers[w].Unwinding?
    case Fail(w, _) => w in s.workers && s.workers[w].Failing?
    case Wake(t) => t in s.beats && s.beats[t].at.Waiting? && !s.beats[t].stop
    case Renew(t) => t in s.beats && s.beats[t].at.Awake?
    case Extend(t, extended) =>
      && t in s.beats && s.beats[t].at.Extending?
      && (extended ==> s.beats[t].handle.msg in s.queue && s.queue[s.beats[t].handle.msg].place.MainQueue?)
    // A heartbeat ends when told to stop, or when its renewal raises.
    case EndBeat(t) => t in s.beats && (s.beats[t].at.Waiting? ==> s.beats[t].stop)
  }

  function SetWorker(s: State, w: Id, worker: Worker): State {
    s.(workers := s.workers[w := worker])
  }

  function Issue(s: State, id: Id): State {
    s.(log := s.log.(issued := s.log.issued + {id}))
  }

  function Next(c: Config, s: State, now: Time, a: Action): State
    requires Enabled(c, s, now, a)
  {
    match a
    case Create(j, e, jobType, payload, correlation) =>
      Issue(Issue(s.(db := CreateJob(s.db, j, e, jobType, payload, correlation, now)), j), e)
    case Start(w) => SetWorker(s, w, LoopTop)
    case Crash(w) => Die(s, w)
    case ClaimBatch(w, token, batch, _) => NextClaimBatch(s, now, w, token, batch)
    case Publish(w, e, msg, outcome) => NextPublish(s, now, w, e, msg, outcome)
    case MarkSent(w, outcome) => NextMarkSent(s, now, w, outcome)
    case MarkUnsent(w, error) =>
      var worker := s.workers[w];
      SetWorker(s.(db := MarkFailed(s.db, worker.event, worker.batch, error, now)), w, Dispatching(worker.batch, worker.todo))
    case EndDispatch(w) => SetWorker(s, w, ReadyToReceive)
    case ReceiveNothing(w) => SetWorker(s, w, LoopTop)
    case Receive(w, m, _, replied) => NextReceive(c, s, now, w, m, replied)
    case Redrive(m) => s.(queue := s.queue[m := s.queue[m].(place := DeadLetter)])
    case ClaimJob(w, token) => NextClaimJob(c, s, now, w, token)
    case LookUp(w) => NextLookUp(s, w)
    case Delete(w, removed, acked) => NextDelete(s, w, removed, acked)
    case Put(w, report, outcome) => NextPut(s, w, report, outcome)
    case Complete(w, outcome) => NextComplete(s, now, w, outcome)
    case Leave(w) => NextLeave(s, w)
    case Fail(w, error) =>
      var claimed := s.workers[w].claimed;
      SetWorker(s.(db := FailJob(s.db, claimed.job, claimed.token, error, now)), w, LoopTop)
    case Wake(t) => s.(beats := s.beats[t := s.beats[t].(at := Awake)])
    case Renew(t) => NextRenew(s, now, t)
    case Extend(t, extended) => NextExtend(c, s, now, t, extended)
    case EndBeat(t) => s.(beats := s.beats - {t})
  }

  /** The process ends, and its daemon heartbeat threads with it. */
  function Die(s: State, w: Id): State {
    s.(workers := s.workers - {w}, beats := map t | t in s.beats && s.beats[t].worker != w :: s.beats[t])
  }

  function BatchGrants(db: Db, batch: set<Id>): set<Grant>
    requires batch <= db.outbox.Keys
  {
    set e | e in batch :: Grant(e, db.outbox[e].attempts)
  }

  function NextClaimBatch(s: State, now: Time, w: Id, token: Id, batch: set<Id>): State
    requires batch <= s.db.outbox.Keys
  {
    var after := ClaimEvents(s.db, batch, token, now);
    var claimed := map e | e in batch :: after.outbox[e].attempts;
    var granted := map g | g in BatchGrants(after, batch) :: w;
    SetWorker(Issue(s.(db := after, log := s.log.(grants := s.log.grants + granted)), token), w, Dispatching(token, claimed))
  }

  function NextPublish(s: State, now: Time, w: Id, e: Id, msg: Id, outcome: Outcome): State
    requires w in s.workers && s.workers[w].Dispatching? && e in s.workers[w].todo && e in s.db.outbox
  {
    var worker := s.workers[w];
    var row := s.db.outbox[e];
    var rest := worker.todo - {e};
    if !SupportedSchema(row.eventType, row.version) || !Takes(outcome) then
      SetWorker(s, w, Unsent(worker.batch, rest, e))
    else
      var body := NewBody(row.payload.job, row.payload.correlation);
      var sent := s.(queue := s.queue[msg := Message(body, Grant(e, worker.todo[e]), 0, now, MainQueue)]);
      SetWorker(sent, w, if outcome.Done? then Sent(worker.batch, rest, e, msg) else Unsent(worker.batch, rest, e))
  }

  function NextMarkSent(s: State, now: Time, w: Id, outcome: Outcome): State
    requires w in s.workers && s.workers[w].Sent?
  {
    var worker := s.workers[w];
    var marked :=
      if Takes(outcome) && HoldsRow(s.db, worker.event, worker.batch) then
        s.(db := MarkPublished(s.db, worker.event, worker.batch, now),
           log := s.log.(publishedBy := s.log.publishedBy[worker.event := worker.msg]))
      else s;
    SetWorker(marked, w, if outcome.Done? then Dispatching(worker.batch, worker.todo)
                         else Unsent(worker.batch, worker.todo, worker.event))
  }

  function NextReceive(c: Config, s: State, now: Time, w: Id, m: Id, replied: bool): State
    requires m in s.queue
  {
    var message := s.queue[m];
    var handle := Handle(m, message.receives + 1);
    var taken := s.(queue := s.queue[m := message.(receives := message.receives + 1, visibleAt := now + c.visibility)]);
    if replied && SupportedSchema(message.body.eventType, message.body.version) then
      SetWorker(taken.(log := s.log.(deliveries := s.log.deliveries[handle := w])), w, Received(handle, message.body.job))
    else
      SetWorker(taken, w, LoopTop)
  }

  function NextClaimJob(c: Config, s: State, now: Time, w: Id, token: Id): State
    requires w in s.workers && s.workers[w].Received?
  {
    var h, j := s.workers[w].handle, s.workers[w].job;
    if CanClaim(s.db, j, now, c.jobLease) then
      var after := MarkProcessing(s.db, j, token, now, c.jobLease);
      var claimed := ClaimedJob(j, after.jobs[j].jobType, after.jobs[j].attempts, token);
      var claim := Claim(j, claimed.attempt, h, w);
      SetWorker(Issue(s.(db := after, beats := s.beats[token := Beat(w, j, h, false, Waiting)],
                         log := s.log.(claims := s.log.claims[token := claim])), token),
                w, Working(h, claimed))
    else
      SetWorker(Issue(s, token), w, TurnedAway(h, j))
  }

  function NextLookUp(s: State, w: Id): State
    requires w in s.workers && s.workers[w].TurnedAway?
  {
    var h, j := s.workers[w].handle, s.workers[w].job;
    if j !in s.db.jobs then Die(s, w)  // NotFoundError is raised outside every try
    else if s.db.jobs[j].status.Completed? then SetWorker(s, w, DeletingDuplicate(h, j))
    else SetWorker(s, w, LoopTop)
  }

  function NextDelete(s: State, w: Id, removed: bool, acked: bool): State
    requires w in s.workers && (s.workers[w].DeletingDuplicate? || s.workers[w].Deleting?)
    requires HandleOf(s.workers[w]).msg in s.queue
    requires s.workers[w].DeletingDuplicate? ==> acked
  {
    var m := HandleOf(s.workers[w]).msg;
    var after := if removed then s.(queue := s.queue[m := s.queue[m].(place := Deleted)]) else s;
    SetWorker(after, w, if acked then LoopTop else Failing(s.workers[w].handle, s.workers[w].claimed))
  }

  function NextPut(s: State, w: Id, report: Id, outcome: Outcome): State
    requires w in s.workers && s.workers[w].Working?
  {
    var h, claimed := s.workers[w].handle, s.workers[w].claimed;
    var key := Key(claimed.job, report);
    var after :=
      if Takes(outcome) then s.(artifacts := s.artifacts[key := Artifact(claimed.token, claimed.jobType, claimed.attempt)])
      else s;
    SetWorker(Issue(after, report), w, if outcome.Done? then Stored(h, claimed, key) else Unwinding(h, claimed, Raised))
  }

  function NextComplete(s: State, now: Time, w: Id, outcome: Outcome): State
    requires w in s.workers && s.workers[w].Stored?
  {
    var h, claimed, key := s.workers[w].handle, s.workers[w].claimed, s.workers[w].key;
    var after :=
      if Takes(outcome) then s.(db := CompleteJob(s.db, claimed.job, claimed.token, Report(key, 3), key, "text/csv", now))
      else s;
    var exit :=
      if !outcome.Done? then Raised
      else if HoldsJob(s.db, claimed.job, claimed.token) then Returned
      else LostClaim;
    SetWorker(after, w, Unwinding(h, claimed, exit))
  }

  function NextLeave(s: State, w: Id): State
    requires w in s.workers && s.workers[w].Unwinding?
  {
    var h, claimed := s.workers[w].handle, s.workers[w].claimed;
    var after :=
      if claimed.token in s.beats then
        s.(beats := s.beats[claimed.token := s.beats[claimed.token].(stop := true)])
      else s;
    SetWorker(after, w,
              match s.workers[w].exit
              case Returned => Deleting(h, claimed)
              case LostClaim => LoopTop
              case Raised => Failing(h, claimed))
  }

  function NextRenew(s: State, now: Time, t: Id): State
    requires t in s.beats
  {
    var beat := s.beats[t];
    s.(db := RenewLease(s.db, beat.job, t, now),
       beats := if HoldsJob(s.db, beat.job, t) then s.beats[t := beat.(at := Extending)] else s.beats - {t})
  }

  function NextExtend(c: Config, s: State, now: Time, t: Id, extended: bool): State
    requires t in s.beats && (extended ==> s.beats[t].handle.msg in s.queue)
  {
    var beat := s.beats[t];
    var after :=
      if extended then
        s.(queue := s.queue[beat.handle.msg := s.queue[beat.handle.msg].(visibleAt := now + c.visibility)])
      else s;
    after.(beats := s.beats[t := beat.(at := Waiting)])
  }

  /* ---- runs ---- */

  predicate ValidFrom(c: Config, s: State, run: seq<Step>)
    decreases |run|
  {
    run == [] ||
    (Enabled(c, s, run[0].now, run[0].act) && ValidFrom(c, Next(c, s, run[0].now, run[0].act), run[1..]))
  }

  function Exec(c: Config, s: State, run: seq<Step>): State
    requires ValidFrom(c, s, run)
    decreases |run|
  {
    if run == [] then s else Exec(c, Next(c, s, run[0].now, run[0].act), run[1..])
  }

  /** Clock readings never go back, and none is before `from`. */
  predicate Monotone(run: seq<Step>, from: Time)
    decreases |run|
  {
    run == [] || (from <= run[0].now && Monotone(run[1..], run[0].now))
  }

  lemma SingleStep(c: Config, s: State, step: Step)
    requires Enabled(c, s, step.now, step.act)
    ensures ValidFrom(c, s, [step]) && Exec(c, s, [step]) == Next(c, s, step.now, step.act)
    ensures Monotone([step], step.now)
  {
    hide Enabled, Next;
    assert [step][1..] == [];
    var t := Next(c, s, step.now, step.act);
    assert ValidFrom(c, t, [step][1..]) && Exec(c, t, [step][1..]) == t && Monotone([step][1..], step.now);
  }

  lemma {:induction false} ExecAppend(c: Config, s: State, run: seq<Step>, more: seq<Step>)
    requires ValidFrom(c, s, run)
    requires ValidFrom(c, Exec(c, s, run), more)
    ensures ValidFrom(c, s, run + more)
    ensures Exec(c, s, run + more) == Exec(c, Exec(c, s, run), more)
    decreases |run|
  {
    if run == [] {
      assert run + more == more;
    } else {
      var first := run[0];
      assert (run + more)[0] == first && (run + more)[1..] == run[1..] + more;
      ExecAppend(c, Next(c, s, first.now, first.act), run[1..], more);
    }
  }

  lemma {:induction false} ExecSplit(c: Config, s: State, run: seq<Step>, i: nat)
    requires ValidFrom(c, s, run) && i <= |run|
    ensures ValidFrom(c, s, run[..i])
    ensures ValidFrom(c, Exec(c, s, run[..i]), run[i..])
    ensures Exec(c, s, run) == Exec(c, Exec(c, s, run[..i]), run[i..])
    decreases |run|
  {
    if i == 0 {
      assert run[..0] == [] && run[0..] == run;
    } else {
      var first := run[0];
      assert run[..i][0] == first && run[..i][1..] == run[1..][..i - 1] && run[1..][i - 1..] == run[i..];
      ExecSplit(c, Next(c, s, first.now, first.act), run[1..], i - 1);
    }
  }

  lemma {:induction false} MonotoneAppend(run: seq<Step>, more: seq<Step>, from: Time, mid: Time)
    requires Monotone(run, from) && Monotone(more, mid) && from <= mid
    requires forall i :: 0 <= i < |run| ==> run[i].now <= mid
    ensures Monotone(run + more, from)
    decreases |run|
  {
    if run == [] {
      assert run + more == more;
    } else {
      assert (run + more)[0] == run[0] && (run + more)[1..] == run[1..] + more;
      MonotoneAppend(run[1..], more, run[0].now, mid);
    }
  }
}
