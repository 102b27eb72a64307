/** Safety of the pipeline over whole runs. */
module Safety {
  import opened Basics
  import opened Tables
  import opened Pipeline
  import opened Frames
  import opened Invariant
  import opened Preservation

  /* ---- runs ---- */

  lemma GrowsReflexive(s: State)
    ensures Grows(s, s)
  {
  }

  lemma GrowsTransitive(s: State, t: State, u: State)
    requires Grows(s, t) && Grows(t, u)
    ensures Grows(s, u)
  {
  }

  lemma {:induction false} RunKeeps(c: Config, s: State, run: seq<Step>)
    requires Inv(c, s) && ValidFrom(c, s, run)
    ensures Inv(c, Exec(c, s, run)) && Grows(s, Exec(c, s, run))
    decreases |run|
  {
    hide Inv, Grows, Next, Enabled;
    if run == [] {
      GrowsReflexive(s);
    } else {
      var t := Next(c, s, run[0].now, run[0].act);
      StepKeeps(c, s, run[0].now, run[0].act);
      RunKeeps(c, t, run[1..]);
      GrowsTransitive(s, t, Exec(c, s, run));
    }
  }

  /** `s` is what some run of the deployed system, from empty tables, leads to. */
  ghost predicate Reachable(c: Config, s: State) {
    exists run :: ValidFrom(c, INITIAL, run) && s == Exec(c, INITIAL, run)
  }

  lemma ReachableInv(c: Config, s: State)
    requires Reachable(c, s)
    ensures Inv(c, s)
  {
    hide Inv, ValidFrom;
    var run :| ValidFrom(c, INITIAL, run) && s == Exec(c, INITIAL, run);
    InitialInv(c);
    RunKeeps(c, INITIAL, run);
  }

  lemma ReachableOn(c: Config, s: State, run: seq<Step>)
    requires Reachable(c, s) && ValidFrom(c, s, run)
    ensures Reachable(c, Exec(c, s, run))
  {
    hide ValidFrom, Exec;
    var first :| ValidFrom(c, INITIAL, first) && s == Exec(c, INITIAL, first);
    ExecAppend(c, INITIAL, first, run);
  }

  /* ---- exactly once: refinement of a ledger of job fates ---- */

  datatype Fate = Open | Finished(result: Report)

  datatype LedgerEvent = Opened(job: Id) | Closed(job: Id, result: Report) | Stutter

  function Ledger(s: State): map<Id, Fate> {
    map j | j in s.db.jobs :: if j in s.db.results then Finished(s.db.results[j]) else Open
  }

  /** The specification: a job is opened once and closed at most once, and nothing else happens. */
  predicate LedgerStep(before: map<Id, Fate>, after: map<Id, Fate>, event: LedgerEvent) {
    match event
    case Opened(j) => j !in before && after == before[j := Open]
    case Closed(j, r) => j in before && before[j].Open? && after == before[j := Finished(r)]
    case Stutter => after == before
  }

  predicate Commits(s: State, a: Action) {
    && a.Complete? && a.w in s.workers && s.workers[a.w].Stored?
    && Takes(a.outcome)
    && HoldsJob(s.db, s.workers[a.w].claimed.job, s.workers[a.w].claimed.token)
  }

  /** The only step that closes a job is a committed completion by the holder of its claim. */
  function EventOf(s: State, a: Action): LedgerEvent {
    if a.Create? then Opened(a.job)
    else if Commits(s, a) then Closed(s.workers[a.w].claimed.job, Report(s.workers[a.w].key, 3))
    else Stutter
  }

  lemma OtherStepsKeepRecords(c: Config, s: State, now: Time, a: Action)
    requires Enabled(c, s, now, a) && !a.Create? && !Commits(s, a)
    ensures Ledger(Next(c, s, now, a)) == Ledger(s)
  {
    hide Ledger, Next, Enabled, Commits;
    if TouchesJobs(a) {
      JobStepsKeepRecords(c, s, now, a);
    } else {
      JobsStill(c, s, now, a);
    }
    SameLedger(s, Next(c, s, now, a));
  }

  lemma JobStepsKeepRecords(c: Config, s: State, now: Time, a: Action)
    requires Enabled(c, s, now, a) && (a.ClaimJob? || a.Fail? || a.Renew? || a.Complete?) && !Commits(s, a)
    ensures var t := Next(c, s, now, a);
            t.db.results == s.db.results && forall j :: j in t.db.jobs <==> j in s.db.jobs
  {
    hide Next, Enabled, JobClaimable;
    JobStepIs(c, s, now, a);
  }

  lemma SameLedger(s: State, t: State)
    requires t.db.results == s.db.results && forall j :: j in t.db.jobs <==> j in s.db.jobs
    ensures Ledger(t) == Ledger(s)
  {
  }

  lemma CreateOpens(c: Config, s: State, now: Time, a: Action)
    requires a.Create? && Enabled(c, s, now, a) && a.job !in s.db.jobs && a.job !in s.db.results
    ensures LedgerStep(Ledger(s), Ledger(Next(c, s, now, a)), Opened(a.job))
  {
    assert Ledger(Next(c, s, now, a)) == Ledger(s)[a.job := Open];
  }

  lemma CommitCloses(s: State, now: Time, a: Action)
    requires Commits(s, a) && s.workers[a.w].claimed.job !in s.db.results
    ensures LedgerStep(Ledger(s), Ledger(NextComplete(s, now, a.w, a.outcome)), EventOf(s, a))
  {
    var j := s.workers[a.w].claimed.job;
    assert Ledger(NextComplete(s, now, a.w, a.outcome)) == Ledger(s)[j := Finished(Report(s.workers[a.w].key, 3))];
  }

  lemma StepRefines(c: Config, s: State, now: Time, a: Action)
    requires Inv(c, s) && Enabled(c, s, now, a)
    ensures LedgerStep(Ledger(s), Ledger(Next(c, s, now, a)), EventOf(s, a))
  {
    hide Inv, IsBatch, Ledger;
    if a.Create? {
      FreshIds(c, s, a.job);
      NoResultYet(c, s, a.job);
      CreateOpens(c, s, now, a);
    } else if Commits(s, a) {
      NoResultYet(c, s, s.workers[a.w].claimed.job);
      CommitCloses(s, now, a);
    } else {
      hide Next, Enabled;
      OtherStepsKeepRecords(c, s, now, a);
    }
  }

  lemma NoResultYet(c: Config, s: State, j: Id)
    requires Inv(c, s)
    requires j !in s.db.jobs || !s.db.jobs[j].status.Completed?
    ensures j !in s.db.results
  {
    hide JobsOk, ClaimsOk, OutboxOk, QueueOk, GrantsOk, DeliveriesOk, ArtifactsOk, RecordsOk, WorkersOk, BeatsOk;
    hide AllClaimsApart, AllMessagesApart, AllArtifactsApart;
    hide RowsOk, EventsMatchJobs, MetadataAgrees, CompletionsAudited, CreationsAudited;
  }

  function Events(c: Config, s: State, run: seq<Step>): seq<LedgerEvent>
    requires ValidFrom(c, s, run)
    decreases |run|
  {
    if run == [] then [] else
    [EventOf(s, run[0].act)] + Events(c, Next(c, s, run[0].now, run[0].act), run[1..])
  }

  function TimesOpened(events: seq<LedgerEvent>, j: Id): nat {
    if events == [] then 0
    else (if events[0] == Opened(j) then 1 else 0) + TimesOpened(events[1..], j)
  }

  function TimesClosed(events: seq<LedgerEvent>, j: Id): nat {
    if events == [] then 0
    else (if events[0].Closed? && events[0].job == j then 1 else 0) + TimesClosed(events[1..], j)
  }

  function Opens(fates: map<Id, Fate>, j: Id): nat {
    if j in fates then 1 else 0
  }

  function Closes(fates: map<Id, Fate>, j: Id): nat {
    if j in fates && fates[j].Finished? then 1 else 0
  }

  lemma {:induction false} CountEvents(c: Config, s: State, run: seq<Step>, j: Id)
    requires Inv(c, s) && ValidFrom(c, s, run)
    ensures Opens(Ledger(s), j) + TimesOpened(Events(c, s, run), j) == Opens(Ledger(Exec(c, s, run)), j)
    ensures Closes(Ledger(s), j) + TimesClosed(Events(c, s, run), j) == Closes(Ledger(Exec(c, s, run)), j)
    decreases |run|
  {
    hide Inv, Next, Enabled, Ledger, EventOf;
    if run != [] {
      var t := Next(c, s, run[0].now, run[0].act);
      StepKeeps(c, s, run[0].now, run[0].act);
      StepRefines(c, s, run[0].now, run[0].act);
      var rest := Events(c, t, run[1..]);
      assert Events(c, s, run)[1..] == rest;
      CountEvents(c, t, run[1..], j);
    }
  }

  /** In every run a job is completed exactly as often as it ends up completed: once, or never. */
  lemma ExactlyOnce(c: Config, run: seq<Step>, j: Id)
    requires ValidFrom(c, INITIAL, run)
    ensures var s := Exec(c, INITIAL, run);
            && TimesOpened(Events(c, INITIAL, run), j) == (if j in s.db.jobs then 1 else 0)
            && TimesClosed(Events(c, INITIAL, run), j) == (if IsCompleted(s, j) then 1 else 0)
  {
    hide Inv, ValidFrom, Exec;
    InitialInv(c);
    CountEvents(c, INITIAL, run, j);
    RunKeeps(c, INITIAL, run);
    var s := Exec(c, INITIAL, run);
    CompletedHasResult(c, s, j);
  }

  lemma CompletedHasResult(c: Config, s: State, j: Id)
    requires Inv(c, s)
    ensures j in s.db.results <==> IsCompleted(s, j)
  {
    hide JobsOk, ClaimsOk, OutboxOk, QueueOk, GrantsOk, DeliveriesOk, ArtifactsOk, RecordsOk, WorkersOk, BeatsOk;
    hide AllClaimsApart, AllMessagesApart, AllArtifactsApart;
    hide RowsOk, EventsMatchJobs, MetadataAgrees, CompletionsAudited, CreationsAudited;
  }

  /* ---- no job is lost ---- */

  predicate StillToPublish(s: State, j: Id) {
    exists e :: e in s.db.outbox && s.db.outbox[e].payload.job == j && !s.db.outbox[e].status.OutPublished?
  }

  predicate StillQueued(s: State, j: Id) {
    exists m :: m in s.queue && s.queue[m].body.job == j && !s.queue[m].place.Deleted?
  }

  lemma NoLostJob(c: Config, s: State, j: Id)
    requires Reachable(c, s) && j in s.db.jobs && !IsCompleted(s, j)
    ensures StillToPublish(s, j) || StillQueued(s, j)
  {
    hide Inv, RowsOk, ResultsAgree, MetadataAgrees, CompletionsAudited, CreationsAudited, Reachable;
    hide JobsOk, ClaimsOk, GrantsOk, DeliveriesOk, ArtifactsOk, RecordsOk, WorkersOk, BeatsOk, AllApart;
    ReachableInv(c, s);
    Parts(c, s);
    assert HasEvent(s.db, j);
    var e :| e in s.db.outbox && s.db.outbox[e].payload.job == j;
    assert RowOk(s, e);
    if s.db.outbox[e].status.OutPublished? {
      var m := s.log.publishedBy[e];
      assert MessageOk(c, s, m);
      assert m in s.queue && s.queue[m].body.job == j && !s.queue[m].place.Deleted?;
    }
  }

  /* ---- completion is never undone ---- */

  lemma CompletionStable(c: Config, s: State, more: seq<Step>, j: Id)
    requires Reachable(c, s) && IsCompleted(s, j) && ValidFrom(c, s, more)
    ensures var t := Exec(c, s, more);
            && j in t.db.jobs && t.db.jobs[j] == s.db.jobs[j]
            && j in s.db.results && j in t.db.results && t.db.results[j] == s.db.results[j]
  {
    hide Inv, Reachable, ValidFrom, Exec, OutboxGrows, QueueGrows, LogGrows, ArtifactsGrow;
    ReachableInv(c, s);
    CompletedHasResult(c, s, j);
    RunKeeps(c, s, more);
  }

  lemma HolderCommits(s: State, now: Time, w: Id)
    requires w in s.workers && s.workers[w].Stored?
    requires HoldsJob(s.db, s.workers[w].claimed.job, s.workers[w].claimed.token)
    ensures var t := NextComplete(s, now, w, DoneNoReply);
            && w in t.workers && t.workers[w].Unwinding? && t.workers[w].exit.Raised?
            && s.workers[w].claimed.job in t.db.results && t.db.results[s.workers[w].claimed.job].key == s.workers[w].key
  {
  }

  lemma FailingCompletedIsNoOp(c: Config, s: State, now: Time, w: Id, error: string)
    requires w in s.workers && s.workers[w].Failing? && IsCompleted(s, s.workers[w].claimed.job)
    ensures Enabled(c, s, now, Fail(w, error)) && Next(c, s, now, Fail(w, error)).db == s.db
  {
  }

  /** The commit whose reply was lost: whatever happens meanwhile, the `fail_job` that follows does nothing. */
  lemma LostReplyHarmless(c: Config, s: State, now: Time, w: Id, t: State, between: seq<Step>, u: State, later: Time, error: string)
    requires Reachable(c, s) && w in s.workers && s.workers[w].Stored?
    requires HoldsJob(s.db, s.workers[w].claimed.job, s.workers[w].claimed.token)
    requires t == NextComplete(s, now, w, DoneNoReply)
    requires ValidFrom(c, t, between) && u == Exec(c, t, between)
    requires w in u.workers && u.workers[w].Failing? && u.workers[w].claimed == s.workers[w].claimed
    ensures t.workers[w].exit.Raised?
    ensures Next(c, u, later, Fail(w, error)).db == u.db
    ensures IsCompleted(u, s.workers[w].claimed.job)
    ensures s.workers[w].claimed.job in u.db.results && u.db.results[s.workers[w].claimed.job].key == s.workers[w].key
  {
    HolderCommits(s, now, w);
    hide Inv, ValidFrom, Exec, JobsGrow, OutboxGrows, QueueGrows, LogGrows, ArtifactsGrow, Reachable, Enabled, Next, NextComplete, HoldsJob;
    var j := s.workers[w].claimed.job;
    ReachableInv(c, s);
    assert Enabled(c, s, now, Complete(w, DoneNoReply)) by { CanTryComplete(c, s, now, w); }
    CompleteStep(c, s, now, w, DoneNoReply);
    RunKeeps(c, t, between);
    CompletedHasResult(c, u, j);
    FailingCompletedIsNoOp(c, u, later, w, error);
  }

  lemma CanTryComplete(c: Config, s: State, now: Time, w: Id)
    requires w in s.workers && s.workers[w].Stored?
    ensures Enabled(c, s, now, Complete(w, DoneNoReply))
  {
  }

  /** A failed delete after a completion: the `fail_job` that follows does nothing either. */
  lemma FailedDeleteHarmless(c: Config, s: State, w: Id, removed: bool, now: Time, error: string)
    requires Reachable(c, s) && Enabled(c, s, now, Delete(w, removed, false))
    ensures var t := Next(c, s, now, Delete(w, removed, false));
            && t.workers[w].Failing?
            && Next(c, t, now, Fail(w, error)).db == s.db
            && IsCompleted(s, t.workers[w].claimed.job)
  {
    hide Inv, Reachable, JobsOk, ClaimsOk, OutboxOk, QueueOk, GrantsOk, DeliveriesOk, ArtifactsOk, RecordsOk, BeatsOk;
    hide Consistent, AllApart, TodoOk, NotYetClaimed, NotYetStored;
    ReachableInv(c, s);
    Parts(c, s);
    assert WorkerOk(s, w);
  }

  lemma CompletedIsRefused(c: Config, s: State, w: Id, now: Time, token: Id)
    requires Enabled(c, s, now, ClaimJob(w, token)) && IsCompleted(s, s.workers[w].job)
    ensures s.workers[w].Received? && !CanClaim(s.db, s.workers[w].job, now, c.jobLease)
    ensures var t := NextClaimJob(c, s, now, w, token);
            t.db == s.db && w in t.workers && t.workers[w] == TurnedAway(s.workers[w].handle, s.workers[w].job)
  {
  }

  lemma CompletedIsFound(c: Config, s: State, w: Id, now: Time)
    requires w in s.workers && s.workers[w].TurnedAway? && IsCompleted(s, s.workers[w].job)
    ensures Enabled(c, s, now, LookUp(w))
    ensures var t := Next(c, s, now, LookUp(w));
            w in t.workers && t.workers[w] == DeletingDuplicate(s.workers[w].handle, s.workers[w].job)
  {
  }

  lemma CompletedStays(c: Config, s: State, run: seq<Step>, j: Id)
    requires Inv(c, s) && ValidFrom(c, s, run) && IsCompleted(s, j)
    ensures IsCompleted(Exec(c, s, run), j)
  {
    hide Inv, ValidFrom, Exec, OutboxGrows, QueueGrows, LogGrows, ArtifactsGrow, ResultsGrow;
    RunKeeps(c, s, run);
  }

  /** A redelivery of a completed job's message ends in a delete request, whatever else happens meanwhile. */
  lemma RedeliveryIsDeleted(c: Config, s: State, w: Id, now: Time, token: Id, t: State, between: seq<Step>, u: State, later: Time)
    requires Reachable(c, s) && Enabled(c, s, now, ClaimJob(w, token)) && IsCompleted(s, s.workers[w].job)
    requires t == NextClaimJob(c, s, now, w, token)
    requires ValidFrom(c, t, between) && u == Exec(c, t, between)
    requires w in u.workers && u.workers[w] == t.workers[w]
    ensures t.db == s.db && Enabled(c, u, later, LookUp(w))
    ensures w in Next(c, u, later, LookUp(w)).workers
    ensures Next(c, u, later, LookUp(w)).workers[w] == DeletingDuplicate(s.workers[w].handle, s.workers[w].job)
  {
    CompletedIsRefused(c, s, w, now, token);
    assert IsCompleted(t, s.workers[w].job);
    hide Inv, ValidFrom, Exec, Grows, Reachable, Enabled, Next, NextClaimJob, CanClaim, IsCompleted;
    ReachableInv(c, s);
    RefusedStep(c, s, now, w, token);
    CompletedStays(c, t, between, s.workers[w].job);
    CompletedIsFound(c, u, w, later);
  }

  /* ---- fencing, whatever the clocks say ---- */

  /** Exactly the most recent claimant of a processing job holds it. */
  lemma HolderIsLatestClaimant(c: Config, s: State, j: Id, t: Id)
    requires Reachable(c, s)
    ensures HoldsJob(s.db, j, t) <==>
            && j in s.db.jobs && s.db.jobs[j].status.Processing?
            && t in s.log.claims && s.log.claims[t].job == j && s.log.claims[t].attempt == s.db.jobs[j].attempts
  {
    hide Inv, Reachable, OutboxOk, QueueOk, GrantsOk, DeliveriesOk, ArtifactsOk, RecordsOk, WorkersOk, BeatsOk, TokensOf;
    hide EventsMatchJobs, ResultsAgree, MetadataAgrees, CompletionsAudited, CreationsAudited, AllMessagesApart, AllArtifactsApart;
    ReachableInv(c, s);
    Parts(c, s);
    if j in s.db.jobs && s.db.jobs[j].status.Processing? {
      assert JobOk(s, j) && JobRowOk(s.db.jobs[j]);
      var holder := s.db.jobs[j].token.value;
      if t in s.log.claims && s.log.claims[t].job == j && s.log.claims[t].attempt == s.db.jobs[j].attempts {
        assert ClaimsApart(s.log.claims, holder, t);
      }
    }
  }

  /** Once a newer claim exists, an older token changes nothing, for ever. */
  lemma OlderClaimantFenced(c: Config, s: State, more: seq<Step>, t: Id, j: Id)
    requires Reachable(c, s) && ValidFrom(c, s, more)
    requires t in s.log.claims && s.log.claims[t].job in s.db.jobs
    requires s.log.claims[t].attempt < s.db.jobs[s.log.claims[t].job].attempts
    ensures var u := Exec(c, s, more);
            && !HoldsJob(u.db, j, t)
            && (forall now :: RenewLease(u.db, j, t, now) == u.db)
            && (forall error, now :: FailJob(u.db, j, t, error, now) == u.db)
            && (forall report, key, kind, now :: CompleteJob(u.db, j, t, report, key, kind, now) == u.db)
  {
    hide Inv, Reachable, ValidFrom, Exec, OutboxOk, QueueOk, GrantsOk, DeliveriesOk, ArtifactsOk, RecordsOk, WorkersOk, BeatsOk;
    hide Consistent, AllApart, TokensOf, OutboxGrows, QueueGrows, ArtifactsGrow, ResultsGrow;
    ReachableInv(c, s);
    RunKeeps(c, s, more);
    var u := Exec(c, s, more);
    Parts(c, u);
    assert j in u.db.jobs ==> JobOk(u, j);
  }

  /** A heartbeat without the claim stops, having changed nothing in the tables. */
  lemma LateHeartbeatStops(c: Config, s: State, now: Time, b: Id)
    requires Reachable(c, s) && Enabled(c, s, now, Renew(b))
    ensures b in s.log.claims
    ensures var job := s.log.claims[b].job;
            b !in Next(c, s, now, Renew(b)).beats <==>
            !(job in s.db.jobs && s.db.jobs[job].status.Processing? && s.log.claims[b].attempt == s.db.jobs[job].attempts)
    ensures b !in Next(c, s, now, Renew(b)).beats ==> Next(c, s, now, Renew(b)).db == s.db
  {
    hide Inv, Reachable, JobsOk, ClaimsOk, OutboxOk, QueueOk, GrantsOk, DeliveriesOk, ArtifactsOk, RecordsOk, WorkersOk;
    hide Consistent, AllApart;
    ReachableInv(c, s);
    Parts(c, s);
    assert BeatOk(s, b);
    HolderIsLatestClaimant(c, s, s.beats[b].job, b);
  }

  /** A worker whose claim was lost writes nothing when it completes or fails. */
  lemma LateWorkerWritesNothing(c: Config, s: State, now: Time, w: Id, error: string)
    requires Reachable(c, s) && w in s.workers && (s.workers[w].Stored? || s.workers[w].Failing?)
    ensures var claimed := s.workers[w].claimed;
            && claimed.job in s.db.jobs
            && (claimed.attempt < s.db.jobs[claimed.job].attempts || !s.db.jobs[claimed.job].status.Processing? ==>
                  && (s.workers[w].Stored? ==>
                        var t := Next(c, s, now, Complete(w, Done)); t.db == s.db && t.workers[w].exit.LostClaim?)
                  && (s.workers[w].Failing? ==> Next(c, s, now, Fail(w, error)).db == s.db))
  {
    hide Inv, Reachable, JobsOk, ClaimsOk, OutboxOk, QueueOk, GrantsOk, DeliveriesOk, ArtifactsOk, RecordsOk, BeatsOk;
    hide Consistent, AllApart, TodoOk, NotYetClaimed, NotYetStored;
    ReachableInv(c, s);
    Parts(c, s);
    assert WorkerOk(s, w);
    HolderIsLatestClaimant(c, s, s.workers[w].claimed.job, s.workers[w].claimed.token);
  }

  /* ---- results, metadata and audit rows agree ---- */

  function MetadataOf(db: Db, j: Id): set<Meta> {
    set m | m in db.metadata && m.job == j
  }

  lemma ResultAgreement(c: Config, s: State, j: Id)
    requires Reachable(c, s) && j in s.db.jobs
    ensures IsCompleted(s, j) <==> j in s.db.results
    ensures IsCompleted(s, j) ==> MetadataOf(s.db, j) == {Meta(j, s.db.results[j].key, "text/csv", "job")}
    ensures !IsCompleted(s, j) ==> MetadataOf(s.db, j) == {}
    ensures forall r :: s.db.audit[Audit(j, AuditCompleted(r))] ==
                        if IsCompleted(s, j) && r == s.db.results[j] then 1 else 0
    ensures JoinedRows(s.db, j) ==
            {if IsCompleted(s, j)
             then JobView(j, s.db.jobs[j], Some(s.db.results[j]), Some((s.db.results[j].key, "text/csv")))
             else JobView(j, s.db.jobs[j], None, None)}
  {
    hide Inv, Reachable, JobsOk, ClaimsOk, OutboxOk, QueueOk, GrantsOk, DeliveriesOk, ArtifactsOk, RecordsOk, WorkersOk, BeatsOk;
    hide AllApart, RowsOk, EventsMatchJobs, CreationsAudited, JoinedRows;
    ReachableInv(c, s);
    Parts(c, s);
    JoinIsOneRow(s.db, j);
    if j in s.db.results {
      assert MetaFor(j, s.db.results[j]) in s.db.metadata;
    }
  }

  /** In no run does an ON CONFLICT clause fire. */
  lemma NoConflictInAnyRun(c: Config, s: State, now: Time, a: Action)
    requires Reachable(c, s) && Enabled(c, s, now, a) && Commits(s, a)
    ensures s.workers[a.w].claimed.job !in s.db.results
    ensures MetadataOf(s.db, s.workers[a.w].claimed.job) == {}
    ensures var t := Next(c, s, now, a);
            MetadataOf(t.db, s.workers[a.w].claimed.job) ==
            {Meta(s.workers[a.w].claimed.job, s.workers[a.w].key, "text/csv", "job")}
  {
    hide Inv, Reachable, JobsOk, ClaimsOk, OutboxOk, QueueOk, GrantsOk, DeliveriesOk, ArtifactsOk, RecordsOk, WorkersOk, BeatsOk;
    hide AllApart, RowsOk, EventsMatchJobs, CreationsAudited, CompletionsAudited, IsBatch;
    ReachableInv(c, s);
    Parts(c, s);
    var claimed := s.workers[a.w].claimed;
    NoConflictFires(s.db, claimed.job, claimed.token, s.workers[a.w].key);
  }

  /* ---- references hold end to end ---- */

  function EventsOf(db: Db, j: Id): set<Id> {
    set e | e in db.outbox && db.outbox[e].payload.job == j
  }

  lemma ReferencesHold(c: Config, s: State)
    requires Reachable(c, s)
    ensures forall j :: j in s.db.jobs ==> |EventsOf(s.db, j)| == 1
    ensures forall j, t :: s.db.audit[Audit(j, AuditCreated(t))] ==
                           if j in s.db.jobs && s.db.jobs[j].jobType == t then 1 else 0
    ensures forall e :: e in s.db.outbox ==>
                          && s.db.outbox[e].payload.job in s.db.jobs
                          && SupportedSchema(s.db.outbox[e].eventType, s.db.outbox[e].version)
    ensures forall m :: m in s.queue ==>
                          && s.queue[m].body.job in s.db.jobs
                          && SupportedSchema(s.queue[m].body.eventType, s.queue[m].body.version)
  {
    hide Inv, Reachable, JobsOk, ClaimsOk, OutboxOk, GrantsOk, DeliveriesOk, ArtifactsOk, RecordsOk, WorkersOk, BeatsOk;
    hide AllApart, ResultsAgree, MetadataAgrees, CompletionsAudited;
    ReachableInv(c, s);
    Parts(c, s);
    forall j | j in s.db.jobs ensures |EventsOf(s.db, j)| == 1 {
      assert HasEvent(s.db, j);
      var e :| e in s.db.outbox && s.db.outbox[e].payload.job == j;
      assert EventsOf(s.db, j) == {e};
    }
    forall m | m in s.queue ensures s.queue[m].body.job in s.db.jobs {
      assert MessageOk(c, s, m);
    }
    forall e | e in s.db.outbox ensures OutboxRowOk(s.db.outbox[e]) {}
  }

  /** No worker ever meets a missing job, an unsupported row or an unsupported message. */
  lemma RejectionsUnreachable(c: Config, s: State, now: Time, a: Action)
    requires Reachable(c, s) && Enabled(c, s, now, a)
    ensures a.LookUp? ==> s.workers[a.w].job in s.db.jobs
    ensures a.Publish? && a.outcome.Done? ==> Next(c, s, now, a).workers[a.w].Sent?
    ensures a.Receive? && a.replied ==> Next(c, s, now, a).workers[a.w].Received?
  {
    hide Inv, Reachable, JobsOk, ClaimsOk, OutboxOk, GrantsOk, DeliveriesOk, ArtifactsOk, RecordsOk, BeatsOk, IsBatch;
    hide Consistent, AllApart, TodoOk, NotYetClaimed, NotYetStored;
    ReachableInv(c, s);
    Parts(c, s);
    ReferencesHold(c, s);
    if a.LookUp? {
      assert WorkerOk(s, a.w);
    }
  }
}
