/**
 When a dead holder's job is lost for good: the exact condition, and a whole run, from empty tables and with the deployed
 values, in which one crash is the only failure.
 */
module Stranding {
  import opened Basics
  import opened Tables
  import opened Outbox
  import opened Pipeline
  import opened Frames
  import opened Invariant
  import opened Preservation
  import opened Safety
  import opened Counting
  import opened Recovery
  import opened Abandonment
  import opened Redelivery

  ghost predicate Leads(c: Config, s: State, run: seq<Step>, u: State, from: Time, to: Time) {
    ValidFrom(c, s, run) && Exec(c, s, run) == u && AllSmooth(run) && Monotone(run, from) && EndsBy(run, to)
  }

  lemma LeadsJoin(c: Config, s: State, first: seq<Step>, t: State, more: seq<Step>, u: State, from: Time, mid: Time, late: Time, to: Time)
    requires Leads(c, s, first, t, from, mid) && Leads(c, t, more, u, late, to) && from <= mid <= late <= to
    ensures Leads(c, s, first + more, u, from, to)
  {
    hide ValidFrom, Exec, Monotone, Smooth;
    ExecAppend(c, s, first, more);
    MonotoneAppend(first, more, from, late);
  }

  lemma PathLeads(c: Config, s: State, run: seq<Step>, u: State, now: Time)
    requires Path(c, s, run, u, now)
    ensures Leads(c, s, run, u, now, now)
  {
    hide ValidFrom, Exec, Monotone, AllSmooth, EndsBy;
    PathIsOrderly(c, s, run, u, now);
  }

  lemma OnlyRow(db: Db, e: Id, batch: set<Id>, limit: nat, now: Time, lease: int)
    requires db.outbox.Keys == {e} && db.outbox[e].status.OutPending? && 0 < limit
    requires IsBatch(db, batch, {}, limit, now, lease)
    ensures batch == {e}
  {
    assert ClaimableRows(db, now, lease) - {} == {e};
    assert |batch| == 1;
    assert batch != {};
  }

  /** The worker holds the job and is about to store its report. */
  predicate AtWork(s: State, w: Id, j: Id) {
    && w in s.workers && s.workers[w].Working? && s.workers[w].claimed.job == j
    && HoldsJob(s.db, j, s.workers[w].claimed.token)
  }

  /** Its heartbeat thread is waiting for its next turn, and nobody has told it to stop. */
  predicate HeartWaits(s: State, w: Id) {
    && w in s.workers && s.workers[w].Working?
    && var t := s.workers[w].claimed.token;
       t in s.beats && s.beats[t].at.Waiting? && !s.beats[t].stop && s.beats[t].worker == w && s.beats[t].job == s.workers[w].claimed.job
  }

  lemma ClaimOne(c: Config, s: State, w: Id, now: Time) returns (run: seq<Step>, u: State)
    requires w in s.workers && s.workers[w].Received? && s.workers[w].job in s.db.jobs
    requires s.db.jobs[s.workers[w].job].status.Pending?
    ensures Path(c, s, run, u, now) && u.queue == s.queue && u.db.outbox == s.db.outbox
    ensures u.workers.Keys == s.workers.Keys && Fresh(c, u, s.workers[w].job, now)
    ensures AtWork(u, w, s.workers[w].job) && HeartWaits(u, w)
  {
    hide Path;
    var token := FreshId(s.log.issued);
    var a := ClaimJob(w, token);
    PathStep(c, s, a, now);
    run, u := [At(now, a)], NextClaimJob(c, s, now, w, token);
  }

  lemma CreateFirst(c: Config) returns (run: seq<Step>, u: State, j: Id, e: Id)
    ensures Path(c, INITIAL, run, u, 0) && u.workers == map[]
    ensures j in u.db.jobs && u.db.jobs[j].status.Pending?
    ensures u.db.outbox.Keys == {e} && u.db.outbox[e].payload.job == j
    ensures u.db.outbox[e].status.OutPending? && u.db.outbox[e].attempts == 0
  {
    hide Path;
    j, e := 0, 1;
    var a := Create(j, e, "csv_report", "{}", None);
    PathStep(c, INITIAL, a, 0);
    run, u := [At(0, a)], Next(c, INITIAL, 0, a);
  }

  /** One job is created and dispatched at time 0. */
  lemma DispatchedJobRun(c: Config) returns (run: seq<Step>, u: State, w: Id, m: Id, e: Id, j: Id)
    requires 0 < c.maxReceives && 0 < c.limit
    ensures Path(c, INITIAL, run, u, 0)
    ensures u.workers == map[w := ReadyToReceive]
    ensures j in u.db.jobs && u.db.jobs[j].status.Pending?
    ensures e in u.db.outbox && u.db.outbox[e].payload.job == j
    ensures u.db.outbox[e].status.OutPublished? && u.db.outbox[e].attempts == 1
    ensures JustSent(c, u, m, j, 0)
  {
    hide Path, Inv, Grows, JustSent, IsBatch, Announced;
    var first, s;
    first, s, j, e := CreateFirst(c);
    InitialInv(c);
    PathKeeps(c, INITIAL, first, s, 0);
    var second, t, w1 := NewWorker(c, s, 0);
    w := w1;
    PathJoin(c, INITIAL, first, s, second, t, 0);
    var rest, v, batch, token := Round(c, t, w, 0);
    OnlyRow(t.db, e, batch, c.limit, 0, c.outboxLease);
    PathJoin(c, INITIAL, first + second, t, rest, v, 0);
    run, u := first + second + rest, v;
    m := AnnouncedMessage(c, u, j, 0);
  }

  /** One job is created, dispatched and received at time 0, and claimed `lag` later. */
  lemma ClaimedJobRun(c: Config, lag: nat) returns (run: seq<Step>, u: State, w: Id, m: Id, e: Id, j: Id)
    requires 0 < c.maxReceives && 0 < c.limit
    ensures Leads(c, INITIAL, run, u, 0, lag) && Inv(c, u)
    ensures u.workers.Keys == {w} && Fresh(c, u, j, lag) && AtWork(u, w, j) && HeartWaits(u, w)
    ensures e in u.db.outbox && u.db.outbox[e].payload.job == j
    ensures u.db.outbox[e].status.OutPublished? && u.db.outbox[e].attempts == 1
    ensures m in u.queue && u.queue[m].body.job == j && u.queue[m].place.MainQueue?
    ensures u.queue[m].receives == 1 && u.queue[m].visibleAt == c.visibility
  {
    hide Path, Leads, Inv, Grows, AtWork, HeartWaits;
    var first, s;
    first, s, w, m, e, j := DispatchedJobRun(c);
    var second, t := ReceiveOne(c, s, w, m, 0);
    PathJoin(c, INITIAL, first, s, second, t, 0);
    var third, v := ClaimOne(c, t, w, lag);
    InitialInv(c);
    PathKeeps(c, INITIAL, first + second, t, 0);
    PathKeeps(c, t, third, v, lag);
    PathLeads(c, INITIAL, first + second, t, 0);
    PathLeads(c, t, third, v, lag);
    LeadsJoin(c, INITIAL, first + second, t, third, v, 0, 0, lag, lag);
    run, u := first + second + third, v;
  }

  lemma AbandonedIsFinal(c: Config, s: State, j: Id)
    requires Inv(c, s) && Abandoned(c, s, j)
    ensures j in s.db.jobs && !CanComplete(c, s, j)
  {
    hide Inv, ValidFrom, Exec;
    forall run | ValidFrom(c, s, run) ensures !IsCompleted(Exec(c, s, run), j) {
      AbandonedForever(c, s, run, j);
    }
  }

  /* ---- when the last message of a dead holder's job runs out ---- */

  /** Nothing but `m` can put the job back to work, apart from its own claim and deliveries. */
  ghost predicate SoleMessage(c: Config, s: State, m: Id, j: Id) {
    RowsDone(s, j) && NobodySends(s, j) && forall n :: n != m ==> !Deliverable(c, s, n, j)
  }

  /** `m` is all that carries the job: its holder is dead, and no row, delivery or other message is left. */
  ghost predicate OnlyCarrier(c: Config, s: State, m: Id, j: Id) {
    && m in s.queue && s.queue[m].body.job == j && s.queue[m].place.MainQueue?
    && SoleMessage(c, s, m, j) && NobodyClaims(s, j) && NobodyCompletes(s, j)
  }

  lemma OthersStayDone(c: Config, s: State, now: Time, a: Action, t: State, m: Id, j: Id, n: Id)
    requires Enabled(c, s, now, a) && t == Next(c, s, now, a) && SoleMessage(c, s, m, j) && n != m
    ensures !Deliverable(c, t, n, j)
  {
    hide RowsDone, NobodySends;
    if n in t.queue {
      hide Next;
      QueueShift(c, s, now, a, t, n);
      assert !Deliverable(c, s, n, j);
      if n !in s.queue {
        Nobody(s, a.w, a.event, j);
      }
    }
  }

  lemma SoleStep(c: Config, s: State, now: Time, a: Action, m: Id, j: Id)
    requires Inv(c, s) && Enabled(c, s, now, a) && j in s.db.jobs && SoleMessage(c, s, m, j)
    ensures SoleMessage(c, Next(c, s, now, a), m, j)
  {
    hide Inv, Enabled, Next, Consistent, AllApart, JobsOk, ClaimsOk, OutboxOk, QueueOk, GrantsOk, DeliveriesOk, ArtifactsOk;
    hide RecordsOk, WorkersOk, BeatsOk, RowsDone, NobodySends, Deliverable;
    hide JobsGrow, ResultsGrow, OutboxGrows, QueueGrows, LogGrows, ArtifactsGrow;
    var t := Next(c, s, now, a);
    Parts(c, s);
    StepKeeps(c, s, now, a);
    if a.Create? {
      CreatedIsNew(c, s, now, a);
    }
    RowsAreOk(c, s);
    RowsStayDone(c, s, now, a, t, j);
    NobodyStillSends(c, s, now, a, t, j);
    forall n | n != m ensures !Deliverable(c, t, n, j) {
      OthersStayDone(c, s, now, a, t, m, j, n);
    }
  }

  lemma {:induction false} SoleRun(c: Config, s: State, run: seq<Step>, m: Id, j: Id)
    requires Inv(c, s) && ValidFrom(c, s, run) && j in s.db.jobs && SoleMessage(c, s, m, j)
    ensures SoleMessage(c, Exec(c, s, run), m, j)
    decreases |run|
  {
    hide Inv, Enabled, Next, SoleMessage, ResultsGrow, OutboxGrows, QueueGrows, LogGrows, ArtifactsGrow;
    if run != [] {
      StepKeeps(c, s, run[0].now, run[0].act);
      SoleStep(c, s, run[0].now, run[0].act, m, j);
      SoleRun(c, Next(c, s, run[0].now, run[0].act), run[1..], m, j);
    }
  }

  /** Why a message of the main queue is no longer there. */
  predicate Gone(c: Config, s: State, m: Id, j: Id) {
    m in s.queue && (IsCompleted(s, j) || c.maxReceives <= s.queue[m].receives)
  }

  lemma LeavesMainQueue(c: Config, s: State, now: Time, a: Action, m: Id)
    requires Inv(c, s) && Enabled(c, s, now, a) && m in s.queue && s.queue[m].place.MainQueue?
    ensures var t := Next(c, s, now, a);
            m in t.queue && (t.queue[m].place.MainQueue? || Gone(c, s, m, s.queue[m].body.job))
  {
    hide Inv;
    if a.Delete? {
      hide Next;
      ConsumeStepIs(c, s, now, a);
      DeletesCompleted(c, s, a.w);
    } else if !TouchesQueue(a) {
      hide Next, Enabled;
      QueueStill(c, s, now, a);
    } else {
      hide IsBatch, NextClaimBatch, NextMarkSent, NextClaimJob, NextLookUp, NextPut, NextComplete, NextLeave, NextRenew, Die;
    }
  }

  lemma GoneStays(c: Config, s: State, t: State, m: Id, j: Id)
    requires Gone(c, s, m, j) && Grows(s, t)
    ensures Gone(c, t, m, j)
  {
    hide OutboxGrows, LogGrows, ArtifactsGrow, ResultsGrow;
  }

  /** A message leaves the main queue only for want of receives, or when its job is completed. */
  lemma {:induction false} StaysQueued(c: Config, s: State, run: seq<Step>, m: Id)
    requires Inv(c, s) && ValidFrom(c, s, run) && m in s.queue && s.queue[m].place.MainQueue?
    ensures var u, j := Exec(c, s, run), s.queue[m].body.job;
            && m in u.queue && u.queue[m].body.job == j && (u.queue[m].place.MainQueue? || Gone(c, u, m, j))
    decreases |run|
  {
    hide Inv, Enabled, Next, Gone, JobsGrow, OutboxGrows, LogGrows, ArtifactsGrow, ResultsGrow;
    if run != [] {
      var t := Next(c, s, run[0].now, run[0].act);
      StepKeeps(c, s, run[0].now, run[0].act);
      LeavesMainQueue(c, s, run[0].now, run[0].act, m);
      if t.queue[m].place.MainQueue? {
        StaysQueued(c, t, run[1..], m);
      } else {
        RunKeeps(c, s, run);
        GoneStays(c, s, Exec(c, s, run), m, s.queue[m].body.job);
      }
    }
  }

  /** A job that is completed, or has a message below the limit, can be completed. */
  lemma StillCompletable(c: Config, s: State, m: Id, j: Id)
    requires Reachable(c, s) && j in s.db.jobs && (IsCompleted(s, j) || Deliverable(c, s, m, j))
    requires 0 < c.maxReceives && 0 < c.limit
    ensures CanComplete(c, s, j)
  {
    hide Reachable, IsCompleted, Deliverable;
    if IsCompleted(s, j) {
      assert ValidFrom(c, s, []) && Exec(c, s, []) == s;
    } else {
      assert Carried(c, s, j);
      RecoverableIffCarried(c, s, j, 0);
    }
  }

  /** The run is orderly, stays within the lease, and no continuation of it completes the job. */
  ghost predicate Strands(c: Config, s: State, run: seq<Step>, j: Id, sigma: Time, from: Time) {
    && ValidFrom(c, s, run) && Monotone(run, from) && NoDuplicates(run) && EndsBy(run, sigma + c.jobLease)
    && !CanComplete(c, Exec(c, s, run), j)
  }

  ghost predicate MayStrand(c: Config, s: State, j: Id, sigma: Time, from: Time) {
    exists run :: Strands(c, s, run, j, sigma, from)
  }

  ghost predicate MayStrandSmoothly(c: Config, s: State, j: Id, sigma: Time, from: Time) {
    exists run :: Strands(c, s, run, j, sigma, from) && AllSmooth(run)
  }

  /** Below the limit no orderly run within the lease loses the job. */
  lemma NotStranded(c: Config, s: State, run: seq<Step>, m: Id, j: Id, sigma: Time, lag: int, from: Time)
    requires Reachable(c, s) && 0 < c.visibility && 0 <= c.jobLease + lag && 0 < c.maxReceives && 0 < c.limit
    requires j in s.db.jobs && m in s.queue && s.queue[m].body.job == j && s.queue[m].place.MainQueue?
    requires s.queue[m].visibleAt == sigma - lag + c.visibility && sigma - lag <= from
    requires s.queue[m].receives + (c.jobLease + lag) / c.visibility < c.maxReceives
    ensures !Strands(c, s, run, j, sigma, from)
  {
    hide Inv, Reachable, ValidFrom, Exec, Monotone, NoDuplicates, EndsBy, CanComplete, JobsGrow;
    if ValidFrom(c, s, run) && Monotone(run, from) && NoDuplicates(run) && EndsBy(run, sigma + c.jobLease) {
      var u := Exec(c, s, run);
      ReachableInv(c, s);
      RedeliveryBound(c, s, run, m, sigma, lag, from);
      StaysQueued(c, s, run, m);
      RunKeeps(c, s, run);
      ReachableOn(c, s, run);
      JobStays(s, u, j);
      StillCompletable(c, u, m, j);
    }
  }

  lemma JobStays(s: State, t: State, j: Id)
    requires Grows(s, t) && j in s.db.jobs
    ensures j in t.db.jobs
  {
    hide OutboxGrows, LogGrows, ArtifactsGrow, ResultsGrow, QueueGrows;
  }

  /** With its last message out of receives and nobody new at work, the job is abandoned. */
  lemma RunOut(c: Config, s: State, u: State, m: Id, j: Id)
    requires OnlyCarrier(c, s, m, j) && SoleMessage(c, u, m, j)
    requires j in s.db.jobs && !IsCompleted(s, j) && u.db.jobs == s.db.jobs
    requires m in u.queue && c.maxReceives <= u.queue[m].receives
    requires forall w :: w in u.workers ==> u.workers[w].LoopTop? || (w in s.workers && u.workers[w] == s.workers[w])
    ensures Abandoned(c, u, j)
  {
    forall n ensures !Deliverable(c, u, n, j) {}
    forall w ensures !WillClaim(u, w, j) && !WillComplete(u, w, j) {
      assert !WillClaim(s, w, j) && !WillComplete(s, w, j);
    }
  }

  lemma StrandingRun(c: Config, s: State, m: Id, j: Id, sigma: Time, lag: int, from: Time) returns (run: seq<Step>)
    requires Reachable(c, s) && 0 < c.visibility && 0 <= c.jobLease + lag
    requires OnlyCarrier(c, s, m, j) && Fresh(c, s, j, sigma)
    requires s.queue[m].visibleAt == sigma - lag + c.visibility && from <= s.queue[m].visibleAt
    requires c.maxReceives <= s.queue[m].receives + (c.jobLease + lag) / c.visibility
    ensures Strands(c, s, run, j, sigma, from) && AllSmooth(run)
  {
    hide Inv, Reachable, ValidFrom, Exec, Monotone, NoDuplicates, EndsBy, CanComplete, AllSmooth, SoleMessage, Abandoned;
    hide NobodyClaims, NobodyCompletes;
    run := ExhaustingRun(c, s, m, sigma, lag, from);
    ReachableInv(c, s);
    SoleRun(c, s, run, m, j);
    RunKeeps(c, s, run);
    RunOut(c, s, Exec(c, s, run), m, j);
    AbandonedIsFinal(c, Exec(c, s, run), j);
  }

  /**
   A dead holder's job whose last carrier is one message: some orderly run within the lease leaves it impossible to
   complete, whatever follows, if and only if the receives so far plus floor((lease + lag) / visibility) reach the queue's
   limit; and then a run without any further failure does.
   */
  lemma StrandedIff(c: Config, s: State, m: Id, j: Id, sigma: Time, lag: int, from: Time)
    requires Reachable(c, s) && 0 < c.visibility && 0 <= c.jobLease + lag && 0 < c.maxReceives && 0 < c.limit
    requires OnlyCarrier(c, s, m, j) && Fresh(c, s, j, sigma)
    requires s.queue[m].visibleAt == sigma - lag + c.visibility && sigma - lag <= from <= s.queue[m].visibleAt
    ensures MayStrand(c, s, j, sigma, from) <==> c.maxReceives <= s.queue[m].receives + (c.jobLease + lag) / c.visibility
    ensures MayStrandSmoothly(c, s, j, sigma, from) <==> MayStrand(c, s, j, sigma, from)
  {
    hide Reachable, Strands, AllSmooth, SoleMessage, NobodyClaims, NobodyCompletes;
    if c.maxReceives <= s.queue[m].receives + (c.jobLease + lag) / c.visibility {
      var run := StrandingRun(c, s, m, j, sigma, lag, from);
      assert Strands(c, s, run, j, sigma, from) && AllSmooth(run);
    } else {
      forall run ensures !Strands(c, s, run, j, sigma, from) {
        NotStranded(c, s, run, m, j, sigma, lag, from);
      }
    }
  }

  /* ---- one crash ---- */

  /** The only send of the job's only row is the one message, and nobody is at work. */
  lemma OnlySendCarries(c: Config, s: State, m: Id, e: Id, j: Id)
    requires Inv(c, s) && s.workers == map[] && j in s.db.jobs
    requires e in s.db.outbox && s.db.outbox[e].payload.job == j
    requires s.db.outbox[e].status.OutPublished? && s.db.outbox[e].attempts == 1
    requires m in s.queue && s.queue[m].body.job == j && s.queue[m].place.MainQueue?
    ensures OnlyCarrier(c, s, m, j)
  {
    hide Inv, RowsOk, ResultsAgree, MetadataAgrees, CompletionsAudited, CreationsAudited, AllClaimsApart, AllArtifactsApart;
    hide JobsOk, ClaimsOk, OutboxOk, DeliveriesOk, ArtifactsOk, RecordsOk, WorkersOk, BeatsOk, AllMessagesApart, QueueOk, GrantsOk;
    Parts(c, s);
    ApartParts(s);
    SendsWithinAttempts(c, s, e);
    MessagesAreSends(c, s, e);
    assert m in MessagesOf(s.queue, j);
    SubsetBound({m}, MessagesOf(s.queue, j));
    assert MessagesOf(s.queue, j) == {m};
    forall n | n != m ensures !Deliverable(c, s, n, j) {
      assert n !in MessagesOf(s.queue, j);
    }
    forall f ensures !Unpublished(s, f, j) {}
  }

  lemma WorkerDies(c: Config, s: State, w: Id, now: Time)
    requires Inv(c, s) && s.workers.Keys == {w}
    ensures Enabled(c, s, now, Crash(w))
    ensures var t := Next(c, s, now, Crash(w));
            t.workers == map[] && t.db == s.db && t.queue == s.queue && Inv(c, t)
  {
    hide Inv;
    CrashStep(c, s, w);
  }

  /**
   A job is dispatched and received at time 0 and claimed `lag` later; then its worker, at work on it, dies. That one crash
   can lose the job, with no other failure, if and only if 1 + floor((lease + lag) / visibility) reaches the limit.
   */
  lemma CrashStrandsIff(c: Config, lag: nat) returns (before: seq<Step>, w: Id, j: Id)
    requires 0 < c.visibility && 0 <= c.jobLease + lag && lag <= c.visibility && 0 < c.maxReceives && 0 < c.limit
    ensures ValidFrom(c, INITIAL, before) && Monotone(before, 0) && AllSmooth(before) && EndsBy(before, lag)
    ensures var u := Exec(c, INITIAL, before);
            && AtWork(u, w, j) && Enabled(c, u, lag, Crash(w))
            && var v := Next(c, u, lag, Crash(w));
               && (MayStrand(c, v, j, lag, lag) <==> c.maxReceives <= 1 + (c.jobLease + lag) / c.visibility)
               && (MayStrandSmoothly(c, v, j, lag, lag) <==> MayStrand(c, v, j, lag, lag))
  {
    hide ValidFrom, Exec, Inv, Monotone, AllSmooth, EndsBy, Enabled, Next, AtWork, MayStrand, MayStrandSmoothly, OnlyCarrier, Reachable;
    var u, m, e;
    before, u, w, m, e, j := ClaimedJobRun(c, lag);
    WorkerDies(c, u, w, lag);
    var v := Next(c, u, lag, Crash(w));
    OnlySendCarries(c, v, m, e, j);
    assert Reachable(c, v) by {
      SingleStep(c, u, At(lag, Crash(w)));
      assert Reachable(c, u) by { FromInitial(c, before, u); }
      ReachableOn(c, u, [At(lag, Crash(w))]);
    }
    StrandedIff(c, v, m, j, lag, lag, lag);
  }

  lemma FromInitial(c: Config, run: seq<Step>, u: State)
    requires ValidFrom(c, INITIAL, run) && Exec(c, INITIAL, run) == u
    ensures Reachable(c, u)
  {
    hide ValidFrom, Exec;
  }

  /**
   With the deployed values, whenever the claim comes less than 60 after the receive, one crash of the worker at work on the
   job, and no other failure, can leave it uncompleted for ever: no continuation, whatever its clocks and failures, completes it.
   */
  lemma CrashCanStrandJob(c: Config, lag: nat) returns (before: seq<Step>, w: Id, after: seq<Step>, j: Id)
    requires Deployed(c) && 0 < c.limit && lag < 60
    ensures AllSmooth(before) && AllSmooth(after)
    ensures ValidFrom(c, INITIAL, before) && AtWork(Exec(c, INITIAL, before), w, j)
    ensures var run := before + [At(lag, Crash(w))] + after;
            && ValidFrom(c, INITIAL, run) && Monotone(run, 0)
            && !CanComplete(c, Exec(c, INITIAL, run), j)
  {
    hide ValidFrom, Exec, Monotone, AllSmooth, EndsBy, Enabled, Next, AtWork, CanComplete;
    assert (c.jobLease + lag) / c.visibility == 2;
    before, w, j := CrashStrandsIff(c, lag);
    var u, crash := Exec(c, INITIAL, before), [At(lag, Crash(w))];
    var v := Next(c, u, lag, Crash(w));
    after :| Strands(c, v, after, j, lag, lag) && AllSmooth(after);
    SingleStep(c, u, At(lag, Crash(w)));
    ExecAppend(c, INITIAL, before, crash);
    ExecAppend(c, INITIAL, before + crash, after);
    EndsAll(before, lag);
    MonotoneAppend(before, crash, 0, lag);
    assert EndsBy(before + crash, lag) by { EndsWith(before, lag, Crash(w)); }
    EndsAll(before + crash, lag);
    MonotoneAppend(before + crash, after, 0, lag);
  }

  lemma EndsAll(run: seq<Step>, limit: Time)
    ensures EndsBy(run, limit) ==> forall i :: 0 <= i < |run| ==> run[i].now <= limit
  {
  }

  lemma EndsWith(run: seq<Step>, limit: Time, a: Action)
    requires EndsBy(run, limit)
    ensures EndsBy(run + [At(limit, a)], limit)
  {
  }
}
