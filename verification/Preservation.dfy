/** Every enabled step keeps the invariant and takes nothing back. */
module Preservation {
  import opened Basics
  import opened Tables
  import opened Pipeline
  import opened Invariant

  ghost predicate AllApart(s: State) {
    AllClaimsApart(s.log.claims) && AllMessagesApart(s.queue) && AllArtifactsApart(s.artifacts)
  }

  /** The conjuncts of the invariant, by name, for proofs that keep the rest hidden. */
  lemma Parts(c: Config, s: State)
    requires Inv(c, s)
    ensures Consistent(s.db) && AllApart(s)
    ensures JobsOk(s) && ClaimsOk(s) && OutboxOk(s) && QueueOk(c, s) && GrantsOk(s) && DeliveriesOk(s) && ArtifactsOk(s)
    ensures RecordsOk(s) && WorkersOk(s) && BeatsOk(s)
  {
    hide RowsOk, EventsMatchJobs, ResultsAgree, MetadataAgrees, CompletionsAudited, CreationsAudited;
    hide AllClaimsApart, AllMessagesApart, AllArtifactsApart;
    hide JobsOk, ClaimsOk, OutboxOk, QueueOk, GrantsOk, DeliveriesOk, ArtifactsOk, RecordsOk, WorkersOk, BeatsOk;
  }

  /* ---- the frame argument, once for all steps ---- */

  ghost predicate TablesMove(s: State, t: State, jobs: set<Id>) {
    JobsMove(s, t, jobs) && ClaimsMove(s, t) && RecordsMove(s, t) && JobsGrow(s, t) && ResultsGrow(s, t)
  }

  ghost predicate OutboxMove(s: State, t: State, rows: set<Id>) {
    RowsMove(s, t, rows) && GrantsMove(s, t) && OutboxGrows(s, t)
  }

  ghost predicate QueueMove(c: Config, s: State, t: State, messages: set<Id>) {
    MessagesMove(c, s, t, messages) && DeliveriesMove(s, t) && QueueGrows(s, t)
  }

  ghost predicate StoreMove(s: State, t: State) {
    ArtifactsMove(s, t) && ArtifactsGrow(s, t)
  }

  lemma Keeps(c: Config, s: State, t: State, jobs: set<Id>, rows: set<Id>, messages: set<Id>, mover: set<Id>)
    requires Inv(c, s) && Consistent(t.db) && AllApart(t)
    requires TablesMove(s, t, jobs) && OutboxMove(s, t, rows) && QueueMove(c, s, t, messages) && StoreMove(s, t)
    requires LogGrows(s, t) && WorkersMove(s, t, mover) && BeatsMove(s, t)
    ensures Inv(c, t) && Grows(s, t)
  {
    hide RowsOk, EventsMatchJobs, MetadataAgrees, CompletionsAudited, CreationsAudited;
    hide JobsOk, ClaimsOk, OutboxOk, QueueOk, GrantsOk, DeliveriesOk, ArtifactsOk, RecordsOk, WorkersOk, BeatsOk;
    hide AllClaimsApart, AllMessagesApart, AllArtifactsApart;
    hide JobsGrow, ResultsGrow, OutboxGrows, QueueGrows, LogGrows, ArtifactsGrow;
    hide JobsMove, ClaimsMove, RowsMove, MessagesMove, GrantsMove, DeliveriesMove, ArtifactsMove, RecordsMove, WorkersMove, BeatsMove;
    JobsStep(s, t, jobs);
    ClaimsStep(s, t);
    OutboxStep(s, t, rows);
    QueueStep(c, s, t, messages);
    GrantsStep(s, t);
    DeliveriesStep(s, t);
    ArtifactsStep(s, t);
    RecordsStep(s, t);
    BeatsStep(s, t);
    WorkersStep(s, t, mover);
  }

  /* ---- parts that a step leaves alone ---- */

  lemma SameTables(s: State, t: State)
    requires t.db.jobs == s.db.jobs && t.db.results == s.db.results && t.log.claims == s.log.claims
    ensures TablesMove(s, t, {})
  {
  }

  lemma SameOutbox(s: State, t: State)
    requires t.db.outbox == s.db.outbox && t.log.publishedBy == s.log.publishedBy && t.log.grants == s.log.grants
    ensures OutboxMove(s, t, {})
  {
  }

  lemma SameQueue(c: Config, s: State, t: State)
    requires t.queue == s.queue && t.log.deliveries == s.log.deliveries
    ensures QueueMove(c, s, t, {})
  {
  }

  lemma SameStore(s: State, t: State)
    requires t.artifacts == s.artifacts
    ensures StoreMove(s, t)
  {
  }

  /** Nothing new at all, so only the mover need be looked at. */
  lemma QuietMove(s: State, t: State, mover: set<Id>)
    requires t.log.claims == s.log.claims && t.artifacts == s.artifacts && t.queue.Keys == s.queue.Keys
    requires forall w :: w in t.workers && w !in mover ==> w in s.workers && t.workers[w] == s.workers[w]
    requires forall w :: w in mover && w in t.workers ==> WorkerOk(t, w)
    ensures WorkersMove(s, t, mover)
  {
  }

  ghost predicate AgentsMoved(s: State, t: State, mover: set<Id>) {
    && t == s.(workers := t.workers, beats := t.beats, log := s.log.(issued := t.log.issued))
    && s.log.issued <= t.log.issued
    && (forall w :: w in t.workers && w !in mover ==> w in s.workers && t.workers[w] == s.workers[w])
    && (forall w :: w in mover && w in t.workers ==> WorkerOk(t, w))
    && BeatsMove(s, t)
  }

  lemma AgentsOnly(c: Config, s: State, t: State, mover: set<Id>)
    requires Inv(c, s) && AgentsMoved(s, t, mover)
    ensures Inv(c, t) && Grows(s, t)
  {
    hide Inv, Grows, Consistent, AllApart;
    hide JobsOk, ClaimsOk, OutboxOk, QueueOk, GrantsOk, DeliveriesOk, ArtifactsOk, RecordsOk, WorkersOk, BeatsOk;
    hide TablesMove, OutboxMove, QueueMove, StoreMove, WorkersMove, BeatsMove, WorkerOk;
    Parts(c, s);
    assert AllApart(t) by { ApartSame(s, t); }
    SameTables(s, t);
    SameOutbox(s, t);
    SameQueue(c, s, t);
    SameStore(s, t);
    QuietMove(s, t, mover);
    Keeps(c, s, t, {}, {}, {}, mover);
  }

  lemma ApartParts(s: State)
    requires AllApart(s)
    ensures AllClaimsApart(s.log.claims) && AllMessagesApart(s.queue) && AllArtifactsApart(s.artifacts)
  {
    hide AllClaimsApart, AllMessagesApart, AllArtifactsApart;
  }

  lemma ApartOf(s: State)
    requires AllClaimsApart(s.log.claims) && AllMessagesApart(s.queue) && AllArtifactsApart(s.artifacts)
    ensures AllApart(s)
  {
    hide AllClaimsApart, AllMessagesApart, AllArtifactsApart;
  }

  lemma ApartSame(s: State, t: State)
    requires AllApart(s) && t.log.claims == s.log.claims && t.queue == s.queue && t.artifacts == s.artifacts
    ensures AllApart(t)
  {
    hide AllClaimsApart, AllMessagesApart, AllArtifactsApart;
  }

  /* ---- create_job ---- */

  lemma FreshIds(c: Config, s: State, id: Id)
    requires Inv(c, s) && id !in s.log.issued
    ensures id !in s.db.jobs && id !in s.db.outbox && id !in s.log.claims
    ensures TokensOf(s.log.claims, id) == {}
  {
    hide RowsOk, EventsMatchJobs, MetadataAgrees, CompletionsAudited, CreationsAudited;
    hide AllClaimsApart, AllMessagesApart, AllArtifactsApart;
    assert id in s.db.jobs ==> JobOk(s, id);
    assert id in s.db.outbox ==> RowOk(s, id);
    assert id in s.log.claims ==> ClaimOk(s, id);
    forall t | t in s.log.claims ensures s.log.claims[t].job != id {
      assert ClaimOk(s, t);
      assert JobOk(s, s.log.claims[t].job);
    }
  }

  lemma CreateMoves(c: Config, s: State, now: Time, a: Action)
    requires a.Create? && Enabled(c, s, now, a)
    requires a.job !in s.db.jobs && a.event !in s.db.outbox && TokensOf(s.log.claims, a.job) == {}
    ensures TablesMove(s, Next(c, s, now, a), {a.job}) && OutboxMove(s, Next(c, s, now, a), {a.event})
  {
    CreateMovesTables(c, s, now, a);
    CreateMovesOutbox(c, s, now, a);
    hide *;
  }

  lemma CreateMovesTables(c: Config, s: State, now: Time, a: Action)
    requires a.Create? && Enabled(c, s, now, a)
    requires a.job !in s.db.jobs && a.event !in s.db.outbox && TokensOf(s.log.claims, a.job) == {}
    ensures TablesMove(s, Next(c, s, now, a), {a.job})
  {
  }

  lemma CreateMovesOutbox(c: Config, s: State, now: Time, a: Action)
    requires a.Create? && Enabled(c, s, now, a)
    requires a.job !in s.db.jobs && a.event !in s.db.outbox
    ensures OutboxMove(s, Next(c, s, now, a), {a.event})
  {
    hide TokensOf;
  }

  lemma CreateStep(c: Config, s: State, now: Time, a: Action)
    requires Inv(c, s) && a.Create? && Enabled(c, s, now, a)
    ensures Inv(c, Next(c, s, now, a)) && Grows(s, Next(c, s, now, a))
  {
    hide Inv, Grows, Consistent, AllApart;
    hide JobsOk, ClaimsOk, OutboxOk, QueueOk, GrantsOk, DeliveriesOk, ArtifactsOk, RecordsOk, WorkersOk, BeatsOk;
    hide TablesMove, OutboxMove, QueueMove, StoreMove, WorkersMove, TokensOf;
    Parts(c, s);
    FreshIds(c, s, a.job);
    FreshIds(c, s, a.event);
    CreateMoves(c, s, now, a);
    CreateKeeps(s.db, a.job, a.event, a.jobType, a.payload, a.correlation, now);
    var t := Next(c, s, now, a);
    ApartSame(s, t);
    SameQueue(c, s, t);
    SameStore(s, t);
    QuietMove(s, t, {});
    Keeps(c, s, t, {a.job}, {a.event}, {}, {});
  }

  /* ---- steps that touch no table and no message ---- */

  lemma IdleStep(c: Config, s: State, w: Id, worker: Worker)
    requires Inv(c, s) && (worker.LoopTop? || worker.ReadyToReceive?)
    ensures Inv(c, SetWorker(s, w, worker)) && Grows(s, SetWorker(s, w, worker))
  {
    hide Inv, Grows;
    AgentsOnly(c, s, SetWorker(s, w, worker), {w});
  }

  lemma CrashStep(c: Config, s: State, w: Id)
    requires Inv(c, s)
    ensures Inv(c, Die(s, w)) && Grows(s, Die(s, w))
  {
    hide Inv, Grows;
    AgentsOnly(c, s, Die(s, w), {});
  }

  lemma BeatStep(c: Config, s: State, b: Id, at: BeatPoint)
    requires Inv(c, s) && b in s.beats
    ensures var t := s.(beats := s.beats[b := s.beats[b].(at := at)]); Inv(c, t) && Grows(s, t)
    ensures var t := s.(beats := s.beats - {b}); Inv(c, t) && Grows(s, t)
  {
    hide Inv, Grows;
    AgentsOnly(c, s, s.(beats := s.beats[b := s.beats[b].(at := at)]), {});
    AgentsOnly(c, s, s.(beats := s.beats - {b}), {});
  }

  lemma LeaveStep(c: Config, s: State, w: Id)
    requires Inv(c, s) && w in s.workers && s.workers[w].Unwinding?
    ensures Inv(c, NextLeave(s, w)) && Grows(s, NextLeave(s, w))
  {
    hide Inv, Grows, Consistent, AllApart, JobsOk, ClaimsOk, OutboxOk, QueueOk, GrantsOk, DeliveriesOk, ArtifactsOk, RecordsOk, BeatsOk;
    hide NotYetClaimed, NotYetStored, TodoOk;
    Parts(c, s);
    assert WorkerOk(s, w);
    AgentsOnly(c, s, NextLeave(s, w), {w});
  }

  lemma LookUpStep(c: Config, s: State, w: Id)
    requires Inv(c, s) && w in s.workers && s.workers[w].TurnedAway?
    ensures Inv(c, NextLookUp(s, w)) && Grows(s, NextLookUp(s, w))
  {
    hide Inv, Grows, Consistent, AllApart, JobsOk, ClaimsOk, OutboxOk, QueueOk, GrantsOk, DeliveriesOk, ArtifactsOk, RecordsOk, BeatsOk;
    hide NotYetClaimed, NotYetStored, TodoOk;
    Parts(c, s);
    assert WorkerOk(s, w);
    AgentsOnly(c, s, NextLookUp(s, w), if s.workers[w].job in s.db.jobs then {w} else {});
  }

  lemma RefusedStep(c: Config, s: State, now: Time, w: Id, token: Id)
    requires Inv(c, s) && w in s.workers && s.workers[w].Received? && !CanClaim(s.db, s.workers[w].job, now, c.jobLease)
    ensures Inv(c, NextClaimJob(c, s, now, w, token)) && Grows(s, NextClaimJob(c, s, now, w, token))
  {
    hide Inv, Grows, Consistent, AllApart, JobsOk, ClaimsOk, OutboxOk, QueueOk, GrantsOk, DeliveriesOk, ArtifactsOk, RecordsOk, BeatsOk;
    hide NotYetClaimed, NotYetStored, TodoOk, CanClaim;
    Parts(c, s);
    assert WorkerOk(s, w);
    AgentsOnly(c, s, NextClaimJob(c, s, now, w, token), {w});
  }

  /* ---- job rows ---- */

  /** A row that gives up its token, or keeps it, with the claims untouched. */
  lemma JobRowMoves(s: State, t: State, j: Id)
    requires JobOk(s, j) && !s.db.jobs[j].status.Completed?
    requires t.log == s.log && t.db.results == s.db.results
    requires j in t.db.jobs && t.db.jobs == s.db.jobs[j := t.db.jobs[j]]
    requires t.db.jobs[j].attempts == s.db.jobs[j].attempts && JobGrows(s.db.jobs[j], t.db.jobs[j])
    requires t.db.jobs[j].token.Some? ==> t.db.jobs[j].token == s.db.jobs[j].token
    ensures TablesMove(s, t, {j})
  {
  }

  /** Steps that change one uncompleted job row and an agent. */
  lemma JobRowStep(c: Config, s: State, t: State, j: Id, mover: set<Id>)
    requires Inv(c, s) && Consistent(t.db)
    requires j in s.db.jobs && !s.db.jobs[j].status.Completed? && j in t.db.jobs
    requires t == s.(db := s.db.(jobs := s.db.jobs[j := t.db.jobs[j]]), workers := t.workers, beats := t.beats)
    requires t.db.jobs[j].attempts == s.db.jobs[j].attempts && JobGrows(s.db.jobs[j], t.db.jobs[j])
    requires t.db.jobs[j].token.Some? ==> t.db.jobs[j].token == s.db.jobs[j].token
    requires forall w :: w in t.workers && w !in mover ==> w in s.workers && t.workers[w] == s.workers[w]
    requires forall w :: w in mover && w in t.workers ==> WorkerOk(t, w)
    requires BeatsMove(s, t)
    ensures Inv(c, t) && Grows(s, t)
  {
    hide Inv, Grows, Consistent, AllApart;
    hide ClaimsOk, OutboxOk, QueueOk, GrantsOk, DeliveriesOk, ArtifactsOk, RecordsOk, WorkersOk, BeatsOk;
    hide TablesMove, OutboxMove, QueueMove, StoreMove, WorkersMove, BeatsMove, WorkerOk, TokensOf;
    Parts(c, s);
    assert JobOk(s, j);
    JobRowMoves(s, t, j);
    ApartSame(s, t);
    SameOutbox(s, t);
    SameQueue(c, s, t);
    SameStore(s, t);
    QuietMove(s, t, mover);
    Keeps(c, s, t, {j}, {}, {}, mover);
  }

  lemma FailStep(c: Config, s: State, now: Time, w: Id, error: string)
    requires Inv(c, s) && w in s.workers && s.workers[w].Failing?
    ensures var claimed := s.workers[w].claimed;
            var t := SetWorker(s.(db := FailJob(s.db, claimed.job, claimed.token, error, now)), w, LoopTop);
            Inv(c, t) && Grows(s, t)
  {
    hide Inv, Grows, Consistent, AllApart;
    hide JobsOk, ClaimsOk, OutboxOk, QueueOk, GrantsOk, DeliveriesOk, ArtifactsOk, RecordsOk, WorkersOk, BeatsOk;
    var claimed := s.workers[w].claimed;
    var t := SetWorker(s.(db := FailJob(s.db, claimed.job, claimed.token, error, now)), w, LoopTop);
    Parts(c, s);
    FailKeeps(s.db, claimed.job, claimed.token, error, now);
    if HoldsJob(s.db, claimed.job, claimed.token) {
      JobRowStep(c, s, t, claimed.job, {w});
    } else {
      IdleStep(c, s, w, LoopTop);
    }
  }

  lemma RenewStep(c: Config, s: State, now: Time, b: Id)
    requires Inv(c, s) && b in s.beats
    ensures Inv(c, NextRenew(s, now, b)) && Grows(s, NextRenew(s, now, b))
  {
    hide Inv, Grows, Consistent, AllApart;
    hide JobsOk, ClaimsOk, OutboxOk, QueueOk, GrantsOk, DeliveriesOk, ArtifactsOk, RecordsOk, WorkersOk, BeatsOk;
    var j := s.beats[b].job;
    var t := NextRenew(s, now, b);
    Parts(c, s);
    RenewKeeps(s.db, j, b, now);
    if HoldsJob(s.db, j, b) {
      JobRowStep(c, s, t, j, {});
    } else {
      BeatStep(c, s, b, Waiting);
    }
  }

  /* ---- outbox rows ---- */

  /** Claimed rows get the next attempt number, which no grant has yet. */
  lemma BatchMoves(s: State, now: Time, w: Id, token: Id, batch: set<Id>)
    requires batch <= s.db.outbox.Keys && GrantsOk(s)
    requires forall e :: e in batch ==> RowOk(s, e) && !s.db.outbox[e].status.OutPublished?
    ensures var t := NextClaimBatch(s, now, w, token, batch); OutboxMove(s, t, batch) && LogGrows(s, t)
  {
    var t := NextClaimBatch(s, now, w, token, batch);
    forall g | g in s.log.grants ensures g in t.log.grants && t.log.grants[g] == s.log.grants[g] {
      assert GrantOk(s, g);
    }
  }

  lemma BatchTodo(c: Config, s: State, now: Time, w: Id, token: Id, batch: set<Id>)
    requires batch <= s.db.outbox.Keys && GrantsOk(s) && QueueOk(c, s)
    ensures var t := NextClaimBatch(s, now, w, token, batch); WorkerOk(t, w)
  {
    var t := NextClaimBatch(s, now, w, token, batch);
    var todo := t.workers[w].todo;
    forall e | e in todo ensures MayStillSend(t, w, e, todo[e]) {
      var g := Grant(e, todo[e]);
      assert g in BatchGrants(t.db, batch);
      forall m | m in t.queue ensures t.queue[m].origin != g {
        assert MessageOk(c, s, m);
        assert GrantOk(s, s.queue[m].origin);
      }
    }
  }

  lemma ClaimBatchStep(c: Config, s: State, now: Time, w: Id, token: Id, batch: set<Id>, skipped: set<Id>)
    requires Inv(c, s) && IsBatch(s.db, batch, skipped, c.limit, now, c.outboxLease)
    ensures Inv(c, NextClaimBatch(s, now, w, token, batch)) && Grows(s, NextClaimBatch(s, now, w, token, batch))
  {
    hide Inv, Grows, Consistent, AllApart;
    hide JobsOk, ClaimsOk, QueueOk, GrantsOk, DeliveriesOk, ArtifactsOk, RecordsOk, WorkersOk, BeatsOk;
    hide TablesMove, OutboxMove, QueueMove, StoreMove, WorkersMove, BeatsMove;
    hide WorkerOk, RowOk, IsBatch;
    BatchIsClaimable(s.db, batch, skipped, c.limit, now, c.outboxLease);
    var t := NextClaimBatch(s, now, w, token, batch);
    Parts(c, s);
    BatchMoves(s, now, w, token, batch);
    BatchTodo(c, s, now, w, token, batch);
    ClaimEventsKeeps(s.db, batch, token, now);
    ApartSame(s, t);
    SameTables(s, t);
    SameQueue(c, s, t);
    SameStore(s, t);
    QuietMove(s, t, {w});
    assert BeatsMove(s, t) by { SameBeats(s, t); }
    Keeps(c, s, t, {}, batch, {}, {w});
  }

  lemma SameBeats(s: State, t: State)
    requires t.beats == s.beats
    ensures BeatsMove(s, t)
  {
  }

  /** A row that gives up its claim, published only by a dispatcher that sent its message. */
  lemma OutboxRowMoves(s: State, t: State, e: Id)
    requires RowOk(s, e) && !s.db.outbox[e].status.OutPublished?
    requires t.log == s.log.(publishedBy := t.log.publishedBy) && t.queue == s.queue
    requires e in t.db.outbox && t.db.outbox == s.db.outbox[e := t.db.outbox[e]]
    requires t.db.outbox[e].payload == s.db.outbox[e].payload && t.db.outbox[e].attempts == s.db.outbox[e].attempts
    requires t.db.outbox[e].claimToken.None? && t.db.outbox[e].createdAt == s.db.outbox[e].createdAt
    requires forall f :: f in s.log.publishedBy && f != e ==> f in t.log.publishedBy && t.log.publishedBy[f] == s.log.publishedBy[f]
    requires t.db.outbox[e].status.OutPublished? ==>
               && e in t.log.publishedBy && t.log.publishedBy[e] in s.queue
               && s.queue[t.log.publishedBy[e]].origin.event == e
    ensures OutboxMove(s, t, {e}) && LogGrows(s, t)
  {
  }

  lemma OutboxRowStep(c: Config, s: State, t: State, e: Id, w: Id)
    requires Inv(c, s) && Consistent(t.db)
    requires e in s.db.outbox && !s.db.outbox[e].status.OutPublished? && e in t.db.outbox
    requires t == s.(db := s.db.(outbox := s.db.outbox[e := t.db.outbox[e]]), workers := t.workers,
                     log := s.log.(publishedBy := t.log.publishedBy))
    requires t.db.outbox[e].payload == s.db.outbox[e].payload && t.db.outbox[e].attempts == s.db.outbox[e].attempts
    requires t.db.outbox[e].claimToken.None? && t.db.outbox[e].createdAt == s.db.outbox[e].createdAt
    requires forall f :: f in s.log.publishedBy && f != e ==> f in t.log.publishedBy && t.log.publishedBy[f] == s.log.publishedBy[f]
    requires t.db.outbox[e].status.OutPublished? ==>
               && e in t.log.publishedBy && t.log.publishedBy[e] in s.queue
               && s.queue[t.log.publishedBy[e]].origin.event == e
    requires w in t.workers && t.workers == s.workers[w := t.workers[w]] && WorkerOk(t, w)
    ensures Inv(c, t) && Grows(s, t)
  {
    hide Inv, Grows, Consistent, AllApart;
    hide JobsOk, ClaimsOk, QueueOk, GrantsOk, DeliveriesOk, ArtifactsOk, RecordsOk, WorkersOk, BeatsOk;
    hide TablesMove, OutboxMove, QueueMove, StoreMove, WorkersMove, BeatsMove;
    hide WorkerOk, RowOk;
    Parts(c, s);
    OutboxRowMoves(s, t, e);
    ApartSame(s, t);
    SameTables(s, t);
    SameQueue(c, s, t);
    SameStore(s, t);
    QuietMove(s, t, {w});
    SameBeats(s, t);
    Keeps(c, s, t, {}, {e}, {}, {w});
  }

  /** A dispatcher's remaining sends stay open when it moves on within the batch. */
  lemma DispatcherMoves(s: State, t: State, w: Id)
    requires WorkerOk(s, w) && (s.workers[w].Sent? || s.workers[w].Unsent?)
    requires t.log == s.log.(publishedBy := t.log.publishedBy) && t.queue == s.queue
    requires w in t.workers && (t.workers[w].Dispatching? || t.workers[w].Unsent?) && t.workers[w].todo == s.workers[w].todo
    ensures WorkerOk(t, w)
  {
    forall e | e in t.workers[w].todo ensures MayStillSend(t, w, e, t.workers[w].todo[e]) {
      assert MayStillSend(s, w, e, s.workers[w].todo[e]);
    }
  }

  lemma MarkUnsentStep(c: Config, s: State, now: Time, w: Id, error: string)
    requires Inv(c, s) && w in s.workers && s.workers[w].Unsent?
    ensures var worker := s.workers[w];
            var t := SetWorker(s.(db := MarkFailed(s.db, worker.event, worker.batch, error, now)), w,
                               Dispatching(worker.batch, worker.todo));
            Inv(c, t) && Grows(s, t)
  {
    hide Inv, Grows, Consistent, AllApart;
    hide JobsOk, ClaimsOk, OutboxOk, QueueOk, GrantsOk, DeliveriesOk, ArtifactsOk, RecordsOk, BeatsOk;
    hide TablesMove, OutboxMove, QueueMove, StoreMove, WorkersMove, BeatsMove;
    hide WorkerOk;
    var worker := s.workers[w];
    var t := SetWorker(s.(db := MarkFailed(s.db, worker.event, worker.batch, error, now)), w,
                       Dispatching(worker.batch, worker.todo));
    Parts(c, s);
    DispatcherMoves(s, t, w);
    MarkFailedKeeps(s.db, worker.event, worker.batch, error, now);
    if HoldsRow(s.db, worker.event, worker.batch) {
      OutboxRowStep(c, s, t, worker.event, w);
    } else {
      SameBeats(s, t);
      AgentsOnly(c, s, t, {w});
    }
  }

  lemma SentMessage(s: State, w: Id)
    requires WorkerOk(s, w) && s.workers[w].Sent?
    ensures s.workers[w].msg in s.queue && s.queue[s.workers[w].msg].origin.event == s.workers[w].event
  {
  }

  lemma MarkSentStep(c: Config, s: State, now: Time, w: Id, outcome: Outcome)
    requires Inv(c, s) && w in s.workers && s.workers[w].Sent?
    ensures Inv(c, NextMarkSent(s, now, w, outcome)) && Grows(s, NextMarkSent(s, now, w, outcome))
  {
    hide Inv, Grows, Consistent, AllApart;
    hide JobsOk, ClaimsOk, OutboxOk, QueueOk, GrantsOk, DeliveriesOk, ArtifactsOk, RecordsOk, BeatsOk;
    hide TablesMove, OutboxMove, QueueMove, StoreMove, WorkersMove, BeatsMove;
    hide WorkerOk;
    var worker := s.workers[w];
    var t := NextMarkSent(s, now, w, outcome);
    Parts(c, s);
    DispatcherMoves(s, t, w);
    SentMessage(s, w);
    MarkPublishedKeeps(s.db, worker.event, worker.batch, now);
    if Takes(outcome) && HoldsRow(s.db, worker.event, worker.batch) {
      OutboxRowStep(c, s, t, worker.event, w);
    } else {
      assert t == SetWorker(s, w, t.workers[w]);
      SameBeats(s, t);
      AgentsOnly(c, s, t, {w});
    }
  }

  /* ---- sending ---- */

  lemma PublishTodo(s: State, t: State, w: Id, e: Id, msg: Id)
    requires WorkerOk(s, w) && s.workers[w].Dispatching? && e in s.workers[w].todo
    requires t.log == s.log && msg !in s.queue
    requires t.queue == s.queue || (msg in t.queue && t.queue == s.queue[msg := t.queue[msg]]
                                    && t.queue[msg].origin == Grant(e, s.workers[w].todo[e]))
    requires w in t.workers
    requires t.workers[w] == Unsent(s.workers[w].batch, s.workers[w].todo - {e}, e) ||
             (t.workers[w] == Sent(s.workers[w].batch, s.workers[w].todo - {e}, e, msg) && msg in t.queue)
    ensures WorkerOk(t, w)
  {
    forall f | f in t.workers[w].todo ensures MayStillSend(t, w, f, t.workers[w].todo[f]) {
      assert MayStillSend(s, w, f, s.workers[w].todo[f]);
    }
  }

  lemma MessageAdded(s: State, queue: map<Id, Message>, msg: Id)
    requires AllMessagesApart(s.queue) && msg !in s.queue && msg in queue && queue == s.queue[msg := queue[msg]]
    requires NotSent(s.queue, queue[msg].origin)
    ensures AllMessagesApart(queue)
  {
    forall m, n | m in queue && n in queue ensures MessagesApart(queue, m, n) {
      if m in s.queue && n in s.queue {
        assert MessagesApart(s.queue, m, n);
      }
    }
  }

  lemma RowIsOk(db: Db, e: Id)
    requires Consistent(db) && e in db.outbox
    ensures OutboxRowOk(db.outbox[e])
  {
    hide EventsMatchJobs, ResultsAgree, MetadataAgrees, CompletionsAudited, CreationsAudited, OutboxRowOk, JobRowOk;
  }

  lemma PublishMoves(c: Config, s: State, t: State, w: Id, e: Id, msg: Id)
    requires WorkerOk(s, w) && s.workers[w].Dispatching? && e in s.workers[w].todo && e in s.db.outbox && msg !in s.queue
    requires t == s.(queue := t.queue, workers := t.workers) && OutboxRowOk(s.db.outbox[e])
    requires msg in t.queue && t.queue == s.queue[msg := t.queue[msg]]
    requires var row := s.db.outbox[e];
             t.queue[msg] == Message(NewBody(row.payload.job, row.payload.correlation), Grant(e, s.workers[w].todo[e]), 0,
                                     t.queue[msg].visibleAt, MainQueue)
    ensures QueueMove(c, s, t, {msg}) && NotSent(s.queue, t.queue[msg].origin)
    ensures forall x :: x != w ==> NothingNewFor(s, t, x)
  {
    assert MayStillSend(s, w, e, s.workers[w].todo[e]);
  }

  lemma PublishStep(c: Config, s: State, now: Time, w: Id, e: Id, msg: Id, outcome: Outcome)
    requires Inv(c, s) && Enabled(c, s, now, Publish(w, e, msg, outcome))
    ensures Inv(c, NextPublish(s, now, w, e, msg, outcome)) && Grows(s, NextPublish(s, now, w, e, msg, outcome))
  {
    hide Inv, Grows, Consistent, AllApart;
    hide JobsOk, ClaimsOk, OutboxOk, QueueOk, GrantsOk, DeliveriesOk, ArtifactsOk, RecordsOk, BeatsOk;
    hide TablesMove, OutboxMove, QueueMove, StoreMove, BeatsMove;
    hide WorkerOk, NothingNewFor, AllMessagesApart, AllClaimsApart, AllArtifactsApart, NotSent;
    var t := NextPublish(s, now, w, e, msg, outcome);
    Parts(c, s);
    PublishTodo(s, t, w, e, msg);
    if t.queue == s.queue {
      SameBeats(s, t);
      AgentsOnly(c, s, t, {w});
    } else {
      RowIsOk(s.db, e);
      PublishMoves(c, s, t, w, e, msg);
      assert AllApart(t) by { ApartParts(s); MessageAdded(s, t.queue, msg); ApartOf(t); }
      SameTables(s, t);
      SameOutbox(s, t);
      SameStore(s, t);
      SameBeats(s, t);
      Keeps(c, s, t, {}, {}, {msg}, {w});
    }
  }

  /* ---- receiving and deleting ---- */

  /** One message changed, keeping its body and origin. */
  lemma MessageMoves(c: Config, s: State, t: State, m: Id)
    requires m in s.queue && m in t.queue && t.queue == s.queue[m := t.queue[m]]
    requires t.queue[m].body == s.queue[m].body && t.queue[m].origin == s.queue[m].origin
    requires s.queue[m].receives <= t.queue[m].receives <= c.maxReceives
    requires MessageOk(c, s, m) && t.db == s.db && t.log.grants == s.log.grants
    requires t.queue[m].place.Deleted? ==> IsCompleted(s, s.queue[m].body.job)
    requires forall h :: h in t.log.deliveries && h !in s.log.deliveries ==> DeliveryOk(t, h)
    ensures QueueMove(c, s, t, {m})
  {
  }

  lemma ApartTouched(s: State, t: State)
    requires AllApart(s) && t.log.claims == s.log.claims && t.artifacts == s.artifacts
    requires t.queue.Keys == s.queue.Keys && forall m :: m in s.queue ==> t.queue[m].origin == s.queue[m].origin
    ensures AllApart(t)
  {
    hide AllClaimsApart, AllArtifactsApart;
    MessagesApartKept(s.queue, t.queue);
  }

  /** Steps that change one message, and agents. */
  lemma MessageStep(c: Config, s: State, t: State, m: Id, mover: set<Id>)
    requires Inv(c, s)
    requires m in s.queue && m in t.queue
    requires t == s.(queue := s.queue[m := t.queue[m]], workers := t.workers, beats := t.beats,
                     log := s.log.(deliveries := t.log.deliveries))
    requires t.queue[m].body == s.queue[m].body && t.queue[m].origin == s.queue[m].origin
    requires s.queue[m].receives <= t.queue[m].receives <= c.maxReceives
    requires t.queue[m].place.Deleted? ==> IsCompleted(s, s.queue[m].body.job)
    requires forall h :: h in t.log.deliveries && h !in s.log.deliveries ==> DeliveryOk(t, h)
    requires forall h :: h in s.log.deliveries ==> h in t.log.deliveries && t.log.deliveries[h] == s.log.deliveries[h]
    requires forall w :: w in t.workers && w !in mover ==> w in s.workers && t.workers[w] == s.workers[w]
    requires forall w :: w in mover && w in t.workers ==> WorkerOk(t, w)
    requires BeatsMove(s, t)
    ensures Inv(c, t) && Grows(s, t)
  {
    hide Inv, Grows, Consistent, AllApart;
    hide JobsOk, ClaimsOk, OutboxOk, GrantsOk, DeliveriesOk, ArtifactsOk, RecordsOk, WorkersOk, BeatsOk;
    hide TablesMove, OutboxMove, QueueMove, StoreMove, WorkersMove, BeatsMove;
    hide WorkerOk, MessageOk, DeliveryOk;
    Parts(c, s);
    MessageMoves(c, s, t, m);
    ApartTouched(s, t);
    SameTables(s, t);
    SameOutbox(s, t);
    SameStore(s, t);
    QuietMove(s, t, mover);
    Keeps(c, s, t, {}, {}, {m}, mover);
  }

  lemma RedriveStep(c: Config, s: State, now: Time, m: Id)
    requires Inv(c, s) && Enabled(c, s, now, Redrive(m))
    ensures Inv(c, Next(c, s, now, Redrive(m))) && Grows(s, Next(c, s, now, Redrive(m)))
  {
    hide Inv, Grows, Consistent, AllApart;
    hide JobsOk, ClaimsOk, OutboxOk, GrantsOk, DeliveriesOk, ArtifactsOk, RecordsOk, WorkersOk, BeatsOk;
    hide TablesMove, OutboxMove, QueueMove, StoreMove, WorkersMove, BeatsMove;
    hide WorkerOk;
    Parts(c, s);
    assert MessageOk(c, s, m);
    SameBeats(s, Next(c, s, now, Redrive(m)));
    MessageStep(c, s, Next(c, s, now, Redrive(m)), m, {});
  }

  lemma ExtendStep(c: Config, s: State, now: Time, b: Id, extended: bool)
    requires Inv(c, s) && Enabled(c, s, now, Extend(b, extended))
    ensures Inv(c, NextExtend(c, s, now, b, extended)) && Grows(s, NextExtend(c, s, now, b, extended))
  {
    hide Inv, Grows, Consistent, AllApart;
    hide JobsOk, ClaimsOk, OutboxOk, GrantsOk, DeliveriesOk, ArtifactsOk, RecordsOk, WorkersOk, BeatsOk;
    hide TablesMove, OutboxMove, QueueMove, StoreMove, WorkersMove;
    hide WorkerOk;
    Parts(c, s);
    var t := NextExtend(c, s, now, b, extended);
    if extended {
      var m := s.beats[b].handle.msg;
      assert MessageOk(c, s, m);
      MessageStep(c, s, t, m, {});
    } else {
      AgentsOnly(c, s, t, {});
    }
  }

  lemma NewHandle(s: State, m: Id, w: Id)
    requires DeliveriesOk(s) && ClaimsOk(s) && m in s.queue
    ensures var h := Handle(m, s.queue[m].receives + 1); h !in s.log.deliveries && NotYetClaimed(s.log.claims, h)
  {
    var h := Handle(m, s.queue[m].receives + 1);
    assert h in s.log.deliveries ==> DeliveryOk(s, h);
    forall k | k in s.log.claims ensures s.log.claims[k].handle != h {
      assert ClaimOk(s, k);
    }
  }

  lemma ReceiveStep(c: Config, s: State, now: Time, w: Id, m: Id, duplicate: bool, replied: bool)
    requires Inv(c, s) && Enabled(c, s, now, Receive(w, m, duplicate, replied))
    ensures Inv(c, NextReceive(c, s, now, w, m, replied)) && Grows(s, NextReceive(c, s, now, w, m, replied))
  {
    hide Inv, Grows, Consistent, AllApart;
    hide JobsOk, ClaimsOk, OutboxOk, QueueOk, GrantsOk, DeliveriesOk, ArtifactsOk, RecordsOk, WorkersOk, BeatsOk;
    hide TablesMove, OutboxMove, QueueMove, StoreMove, WorkersMove, BeatsMove;
    hide NotYetClaimed;
    Parts(c, s);
    NewHandle(s, m, w);
    var t := NextReceive(c, s, now, w, m, replied);
    SameBeats(s, t);
    MessageStep(c, s, t, m, {w});
  }

  /** A delete request is only ever made for a message of a completed job. */
  lemma DeletesCompleted(c: Config, s: State, w: Id)
    requires Inv(c, s) && w in s.workers && (s.workers[w].DeletingDuplicate? || s.workers[w].Deleting?)
    ensures var m := HandleOf(s.workers[w]).msg; m in s.queue && IsCompleted(s, s.queue[m].body.job)
  {
    hide Inv, Grows, Consistent, AllApart;
    hide JobsOk, OutboxOk, QueueOk, GrantsOk, DeliveriesOk, ArtifactsOk, RecordsOk, BeatsOk;
    hide TablesMove, OutboxMove, QueueMove, StoreMove, WorkersMove, BeatsMove;
    hide TodoOk, NotYetClaimed, NotYetStored;
    Parts(c, s);
    assert WorkerOk(s, w);
    if s.workers[w].Deleting? {
      assert ClaimOk(s, s.workers[w].claimed.token);
    }
  }

  lemma DeleteMoves(s: State, w: Id, removed: bool, acked: bool)
    requires WorkerOk(s, w) && (s.workers[w].DeletingDuplicate? || s.workers[w].Deleting?)
    requires HandleOf(s.workers[w]).msg in s.queue && (s.workers[w].DeletingDuplicate? ==> acked)
    ensures WorkerOk(NextDelete(s, w, removed, acked), w)
  {
    hide TodoOk, NotYetClaimed, NotYetStored;
  }

  lemma DeleteStep(c: Config, s: State, now: Time, w: Id, removed: bool, acked: bool)
    requires Inv(c, s) && Enabled(c, s, now, Delete(w, removed, acked))
    ensures Inv(c, NextDelete(s, w, removed, acked)) && Grows(s, NextDelete(s, w, removed, acked))
  {
    hide Inv, Grows, Consistent, AllApart;
    hide JobsOk, ClaimsOk, OutboxOk, GrantsOk, DeliveriesOk, ArtifactsOk, RecordsOk, BeatsOk;
    hide TablesMove, OutboxMove, QueueMove, StoreMove, WorkersMove, BeatsMove;
    hide WorkerOk;
    Parts(c, s);
    DeletesCompleted(c, s, w);
    DeleteMoves(s, w, removed, acked);
    var m := HandleOf(s.workers[w]).msg;
    var t := NextDelete(s, w, removed, acked);
    assert MessageOk(c, s, m);
    SameBeats(s, t);
    if removed {
      MessageStep(c, s, t, m, {w});
    } else {
      AgentsOnly(c, s, t, {w});
    }
  }

  /* ---- claiming a job ---- */

  lemma ClaimCounted(s: State, t: State, j: Id, token: Id)
    requires JobOk(s, j) && token !in s.log.claims && token in t.log.issued && s.log.issued <= t.log.issued
    requires token in t.log.claims && t.log.claims == s.log.claims[token := t.log.claims[token]]
    requires t.log.claims[token].job == j && t.log.claims[token].attempt == s.db.jobs[j].attempts + 1
    requires j in t.db.jobs && t.db.jobs[j].attempts == s.db.jobs[j].attempts + 1 && t.db.jobs[j].token == Some(token)
    ensures JobOk(t, j)
  {
    assert TokensOf(t.log.claims, j) == TokensOf(s.log.claims, j) + {token};
  }

  lemma ClaimApart(s: State, claims: map<Id, Claim>, token: Id)
    requires AllClaimsApart(s.log.claims) && ClaimsOk(s) && token !in s.log.claims
    requires token in claims && claims == s.log.claims[token := claims[token]]
    requires NotYetClaimed(s.log.claims, claims[token].handle)
    requires claims[token].job in s.db.jobs && claims[token].attempt == s.db.jobs[claims[token].job].attempts + 1
    ensures AllClaimsApart(claims)
  {
    forall k, l | k in claims && l in claims ensures ClaimsApart(claims, k, l) {
      if k in s.log.claims {
        assert ClaimOk(s, k);
      }
      if l in s.log.claims {
        assert ClaimOk(s, l);
        assert k in s.log.claims ==> ClaimsApart(s.log.claims, k, l);
      }
    }
  }

  lemma ClaimMoves(c: Config, s: State, now: Time, w: Id, token: Id)
    requires w in s.workers && s.workers[w].Received? && token !in s.log.claims && token !in s.log.issued
    requires CanClaim(s.db, s.workers[w].job, now, c.jobLease)
    requires WorkerOk(s, w) && JobOk(s, s.workers[w].job)
    ensures var t := NextClaimJob(c, s, now, w, token);
            && TablesMove(s, t, {s.workers[w].job}) && BeatsMove(s, t) && LogGrows(s, t)
            && (forall x :: x != w ==> NothingNewFor(s, t, x))
  {
    hide TokensOf, NotYetClaimed;
    var t := NextClaimJob(c, s, now, w, token);
    ClaimCounted(s, t, s.workers[w].job, token);
  }

  lemma ClaimantOk(c: Config, s: State, now: Time, w: Id, token: Id)
    requires w in s.workers && s.workers[w].Received? && token !in s.log.claims
    requires CanClaim(s.db, s.workers[w].job, now, c.jobLease) && ArtifactsOk(s)
    ensures WorkerOk(NextClaimJob(c, s, now, w, token), w)
  {
    forall k | k in s.artifacts ensures s.artifacts[k].token != token {
      assert ArtifactOk(s, k);
    }
  }

  lemma ClaimStep(c: Config, s: State, now: Time, w: Id, token: Id)
    requires Inv(c, s) && Enabled(c, s, now, ClaimJob(w, token)) && CanClaim(s.db, s.workers[w].job, now, c.jobLease)
    ensures Inv(c, NextClaimJob(c, s, now, w, token)) && Grows(s, NextClaimJob(c, s, now, w, token))
  {
    hide Inv, Grows, Consistent, AllApart;
    hide ClaimsOk, OutboxOk, QueueOk, GrantsOk, DeliveriesOk, ArtifactsOk, RecordsOk, BeatsOk;
    hide TablesMove, OutboxMove, QueueMove, StoreMove, BeatsMove;
    hide NothingNewFor, AllMessagesApart, AllClaimsApart, AllArtifactsApart, TokensOf, LogGrows, JobOk, WorkerOk;
    var j := s.workers[w].job;
    var t := NextClaimJob(c, s, now, w, token);
    Parts(c, s);
    FreshIds(c, s, token);
    ClaimMoves(c, s, now, w, token);
    ClaimantOk(c, s, now, w, token);
    assert AllApart(t) by {
      ApartParts(s);
      HandleUnclaimed(s, w);
      ClaimApart(s, t.log.claims, token);
      ApartOf(t);
    }
    MarkProcessingKeeps(s.db, j, token, now, c.jobLease);
    SameOutbox(s, t);
    SameQueue(c, s, t);
    SameStore(s, t);
    Keeps(c, s, t, {j}, {}, {}, {w});
  }

  lemma HandleUnclaimed(s: State, w: Id)
    requires WorkerOk(s, w) && s.workers[w].Received?
    ensures NotYetClaimed(s.log.claims, s.workers[w].handle)
  {
  }

  /* ---- storing and recording the report ---- */

  lemma PutMoves(s: State, t: State, w: Id, key: Key, artifact: Artifact)
    requires WorkerOk(s, w) && s.workers[w].Working? && ArtifactsOk(s)
    requires key.job == s.workers[w].claimed.job && key.report !in s.log.issued
    requires var claimed := s.workers[w].claimed; artifact == Artifact(claimed.token, claimed.jobType, claimed.attempt)
    requires t == s.(artifacts := s.artifacts[key := artifact], workers := t.workers, log := s.log.(issued := t.log.issued))
    requires s.log.issued <= t.log.issued && key.report in t.log.issued
    ensures key !in s.artifacts && StoreMove(s, t)
    ensures forall x :: x != w ==> NothingNewFor(s, t, x)
  {
    assert key in s.artifacts ==> ArtifactOk(s, key);
  }

  lemma ArtifactAdded(artifacts: map<Key, Artifact>, key: Key, artifact: Artifact)
    requires AllArtifactsApart(artifacts) && NotYetStored(artifacts, artifact.token)
    ensures AllArtifactsApart(artifacts[key := artifact])
  {
    var after := artifacts[key := artifact];
    forall k, l | k in after && l in after ensures ArtifactsApart(after, k, l) {
      if k != key && l != key {
        assert ArtifactsApart(artifacts, k, l);
      }
    }
  }

  lemma WriterOk(s: State, w: Id, report: Id, outcome: Outcome)
    requires WorkerOk(s, w) && s.workers[w].Working?
    ensures WorkerOk(NextPut(s, w, report, outcome), w) && NotYetStored(s.artifacts, s.workers[w].claimed.token)
  {
  }

  lemma PutStep(c: Config, s: State, now: Time, w: Id, report: Id, outcome: Outcome)
    requires Inv(c, s) && Enabled(c, s, now, Put(w, report, outcome))
    ensures Inv(c, NextPut(s, w, report, outcome)) && Grows(s, NextPut(s, w, report, outcome))
  {
    hide Inv, Grows, Consistent, AllApart;
    hide JobsOk, ClaimsOk, OutboxOk, QueueOk, GrantsOk, DeliveriesOk, ArtifactsOk, RecordsOk, BeatsOk;
    hide TablesMove, OutboxMove, QueueMove, StoreMove, BeatsMove;
    hide NothingNewFor, AllMessagesApart, AllClaimsApart, AllArtifactsApart, WorkerOk, NotYetStored;
    var t := NextPut(s, w, report, outcome);
    Parts(c, s);
    WriterOk(s, w, report, outcome);
    SameBeats(s, t);
    if Takes(outcome) {
      var claimed := s.workers[w].claimed;
      var key, artifact := Key(claimed.job, report), Artifact(claimed.token, claimed.jobType, claimed.attempt);
      PutMoves(s, t, w, key, artifact);
      assert AllApart(t) by { ApartParts(s); ArtifactAdded(s.artifacts, key, artifact); ApartOf(t); }
      SameTables(s, t);
      SameOutbox(s, t);
      SameQueue(c, s, t);
      Keeps(c, s, t, {}, {}, {}, {w});
    } else {
      AgentsOnly(c, s, t, {w});
    }
  }

  lemma CompleteMoves(s: State, now: Time, w: Id, outcome: Outcome)
    requires WorkerOk(s, w) && s.workers[w].Stored? && Takes(outcome)
    requires var claimed := s.workers[w].claimed; HoldsJob(s.db, claimed.job, claimed.token) && JobOk(s, claimed.job)
    requires s.workers[w].claimed.job !in s.db.results
    ensures var t := NextComplete(s, now, w, outcome); TablesMove(s, t, {s.workers[w].claimed.job}) && WorkerOk(t, w)
  {
    CompleteMovesJob(s, now, w, outcome);
    CompleteMovesRecord(s, now, w, outcome);
    CompleterOk(s, now, w, outcome);
    hide *;
  }

  lemma CompleteMovesJob(s: State, now: Time, w: Id, outcome: Outcome)
    requires w in s.workers && s.workers[w].Stored? && Takes(outcome)
    requires var claimed := s.workers[w].claimed; HoldsJob(s.db, claimed.job, claimed.token) && JobOk(s, claimed.job)
    ensures var t := NextComplete(s, now, w, outcome);
            JobsMove(s, t, {s.workers[w].claimed.job}) && ClaimsMove(s, t) && JobsGrow(s, t)
  {
    hide TokensOf;
  }

  lemma CompleteMovesRecord(s: State, now: Time, w: Id, outcome: Outcome)
    requires WorkerOk(s, w) && s.workers[w].Stored? && Takes(outcome)
    requires HoldsJob(s.db, s.workers[w].claimed.job, s.workers[w].claimed.token)
    requires s.workers[w].claimed.job !in s.db.results && JobOk(s, s.workers[w].claimed.job)
    ensures var t := NextComplete(s, now, w, outcome); RecordsMove(s, t) && ResultsGrow(s, t)
  {
    hide TokensOf, NotYetClaimed, TodoOk;
  }

  lemma CompleterOk(s: State, now: Time, w: Id, outcome: Outcome)
    requires WorkerOk(s, w) && s.workers[w].Stored? && Takes(outcome)
    requires HoldsJob(s.db, s.workers[w].claimed.job, s.workers[w].claimed.token)
    ensures WorkerOk(NextComplete(s, now, w, outcome), w)
  {
    hide TokensOf, NotYetClaimed, TodoOk;
  }

  lemma CompleteStep(c: Config, s: State, now: Time, w: Id, outcome: Outcome)
    requires Inv(c, s) && Enabled(c, s, now, Complete(w, outcome))
    ensures Inv(c, NextComplete(s, now, w, outcome)) && Grows(s, NextComplete(s, now, w, outcome))
  {
    hide Inv, Grows, Consistent, AllApart;
    hide ClaimsOk, OutboxOk, QueueOk, GrantsOk, DeliveriesOk, ArtifactsOk, RecordsOk, BeatsOk;
    hide TablesMove, OutboxMove, QueueMove, StoreMove, WorkersMove, BeatsMove;
    hide WorkerOk, JobOk;
    var t := NextComplete(s, now, w, outcome);
    var claimed, key := s.workers[w].claimed, s.workers[w].key;
    Parts(c, s);
    SameBeats(s, t);
    if Takes(outcome) && HoldsJob(s.db, claimed.job, claimed.token) {
      assert claimed.job !in s.db.results by { NoConflictFires(s.db, claimed.job, claimed.token, key); }
      CompleteMoves(s, now, w, outcome);
      assert key.job == claimed.job by { KeyNamesJob(s, w); }
      CompleteKeeps(s.db, claimed.job, claimed.token, Report(key, 3), now);
      ApartSame(s, t);
      SameOutbox(s, t);
      SameQueue(c, s, t);
      SameStore(s, t);
      QuietMove(s, t, {w});
      Keeps(c, s, t, {claimed.job}, {}, {}, {w});
    } else {
      CompleteRefused(s, now, w, outcome);
      AgentsOnly(c, s, t, {w});
    }
  }

  lemma KeyNamesJob(s: State, w: Id)
    requires WorkerOk(s, w) && s.workers[w].Stored?
    ensures s.workers[w].key.job == s.workers[w].claimed.job
  {
  }

  lemma CompleteRefused(s: State, now: Time, w: Id, outcome: Outcome)
    requires WorkerOk(s, w) && s.workers[w].Stored?
    requires var claimed := s.workers[w].claimed; !(Takes(outcome) && HoldsJob(s.db, claimed.job, claimed.token))
    ensures NextComplete(s, now, w, outcome).db == s.db && WorkerOk(NextComplete(s, now, w, outcome), w)
  {
  }

  /* ---- every step ---- */

  lemma StepKeeps(c: Config, s: State, now: Time, a: Action)
    requires Inv(c, s) && Enabled(c, s, now, a)
    ensures Inv(c, Next(c, s, now, a)) && Grows(s, Next(c, s, now, a))
  {
    hide Inv, Grows, WorkerOk, CanClaim, IsBatch, NextClaimBatch, NextPublish, NextMarkSent, NextReceive, NextClaimJob;
    hide NextLookUp, NextDelete, NextPut, NextComplete, NextLeave, NextRenew, NextExtend, Die, SetWorker, MarkFailed, FailJob;
    match a
    case Create(_, _, _, _, _) => CreateStep(c, s, now, a);
    case Start(w) => IdleStep(c, s, w, LoopTop);
    case Crash(w) => CrashStep(c, s, w);
    case ClaimBatch(w, token, batch, skipped) => ClaimBatchStep(c, s, now, w, token, batch, skipped);
    case Publish(w, e, msg, outcome) => PublishStep(c, s, now, w, e, msg, outcome);
    case MarkSent(w, outcome) => MarkSentStep(c, s, now, w, outcome);
    case MarkUnsent(w, error) => MarkUnsentStep(c, s, now, w, error);
    case EndDispatch(w) => IdleStep(c, s, w, ReadyToReceive);
    case ReceiveNothing(w) => IdleStep(c, s, w, LoopTop);
    case Receive(w, m, duplicate, replied) => ReceiveStep(c, s, now, w, m, duplicate, replied);
    case Redrive(m) => RedriveStep(c, s, now, m);
    case ClaimJob(w, token) =>
      if CanClaim(s.db, s.workers[w].job, now, c.jobLease) {
        ClaimStep(c, s, now, w, token);
      } else {
        RefusedStep(c, s, now, w, token);
      }
    case LookUp(w) => LookUpStep(c, s, w);
    case Delete(w, removed, acked) => DeleteStep(c, s, now, w, removed, acked);
    case Put(w, report, outcome) => PutStep(c, s, now, w, report, outcome);
    case Complete(w, outcome) => CompleteStep(c, s, now, w, outcome);
    case Leave(w) => LeaveStep(c, s, w);
    case Fail(w, error) => FailStep(c, s, now, w, error);
    case Wake(b) => BeatStep(c, s, b, Awake);
    case Renew(b) => RenewStep(c, s, now, b);
    case Extend(b, extended) => ExtendStep(c, s, now, b, extended);
    case EndBeat(b) => BeatStep(c, s, b, Waiting);
  }
}
