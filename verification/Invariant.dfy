/** What every reachable state of the pipeline satisfies, and the proof that every step keeps it. */
module Invariant {
  import opened Basics
  import opened Tables
  import opened Pipeline

  function TokensOf(claims: map<Id, Claim>, j: Id): set<Id> {
    set t | t in claims && claims[t].job == j
  }

  predicate IsCompleted(s: State, j: Id) {
    j in s.db.jobs && s.db.jobs[j].status.Completed?
  }

  /* ---- one predicate per kind of entity ---- */

  /** The holder of a processing job is its most recent claimant, and attempts counts its claims. */
  predicate JobOk(s: State, j: Id) {
    j in s.db.jobs &&
    var job := s.db.jobs[j];
    && j in s.log.issued
    && job.attempts == |TokensOf(s.log.claims, j)|
    && (job.token.Some? ==>
          && job.token.value in s.log.claims
          && s.log.claims[job.token.value].job == j
          && s.log.claims[job.token.value].attempt == job.attempts)
  }

  predicate ClaimOk(s: State, t: Id) {
    t in s.log.claims &&
    var claim := s.log.claims[t];
    && t in s.log.issued
    && claim.job in s.db.jobs
    && 1 <= claim.attempt <= s.db.jobs[claim.job].attempts
    && claim.handle in s.log.deliveries
    && s.log.deliveries[claim.handle] == claim.worker
    && claim.handle.msg in s.queue
    && s.queue[claim.handle.msg].body.job == claim.job
  }

  /** Two claims come from two deliveries, and are numbered apart when they are of one job. */
  predicate ClaimsApart(claims: map<Id, Claim>, t: Id, u: Id)
    requires t in claims && u in claims
  {
    t == u || (claims[t].handle != claims[u].handle &&
               (claims[t].job == claims[u].job ==> claims[t].attempt != claims[u].attempt))
  }

  predicate RowOk(s: State, e: Id) {
    && e in s.db.outbox
    && e in s.log.issued
    && (s.db.outbox[e].claimToken.Some? ==> s.db.outbox[e].claimToken.value in s.log.issued)
    && (s.db.outbox[e].status.OutPublished? ==>
          && e in s.log.publishedBy
          && s.log.publishedBy[e] in s.queue
          && s.queue[s.log.publishedBy[e]].origin.event == e)
  }

  predicate MessageOk(c: Config, s: State, m: Id) {
    m in s.queue &&
    var message := s.queue[m];
    && SupportedSchema(message.body.eventType, message.body.version)
    && message.origin in s.log.grants
    && message.origin.event in s.db.outbox
    && message.body == s.db.outbox[message.origin.event].payload
    && message.receives <= c.maxReceives
    && (message.place.Deleted? ==> IsCompleted(s, message.body.job))
  }

  predicate MessagesApart(queue: map<Id, Message>, m: Id, n: Id)
    requires m in queue && n in queue
  {
    m == n || queue[m].origin != queue[n].origin
  }

  predicate GrantOk(s: State, g: Grant) {
    g in s.log.grants && g.event in s.db.outbox && 1 <= g.attempt <= s.db.outbox[g.event].attempts
  }

  predicate DeliveryOk(s: State, h: Handle) {
    h in s.log.deliveries && h.msg in s.queue && 1 <= h.receipt <= s.queue[h.msg].receives
  }

  predicate ArtifactOk(s: State, k: Key) {
    k in s.artifacts &&
    var artifact := s.artifacts[k];
    && k.report in s.log.issued
    && artifact.token in s.log.claims
    && s.log.claims[artifact.token].job == k.job
    && s.log.claims[artifact.token].attempt == artifact.attempt
    && k.job in s.db.jobs && s.db.jobs[k.job].jobType == artifact.jobType
  }

  predicate ArtifactsApart(artifacts: map<Key, Artifact>, k: Key, l: Key)
    requires k in artifacts && l in artifacts
  {
    k == l || artifacts[k].token != artifacts[l].token
  }

  /** The recorded key names the report written by the job's last attempt. */
  predicate RecordOk(s: State, j: Id) {
    && j in s.db.results && j in s.db.jobs
    && s.db.results[j].key in s.artifacts
    && s.artifacts[s.db.results[j].key].attempt == s.db.jobs[j].attempts
    && s.db.results[j].rows == 3
  }

  predicate NotSent(queue: map<Id, Message>, g: Grant) {
    forall m :: m in queue ==> queue[m].origin != g
  }

  predicate MayStillSend(s: State, w: Id, e: Id, attempt: nat) {
    && Grant(e, attempt) in s.log.grants
    && s.log.grants[Grant(e, attempt)] == w
    && NotSent(s.queue, Grant(e, attempt))
  }

  predicate TodoOk(s: State, w: Id, todo: map<Id, nat>) {
    forall e :: e in todo ==> MayStillSend(s, w, e, todo[e])
  }

  predicate NotYetClaimed(claims: map<Id, Claim>, h: Handle) {
    forall t :: t in claims ==> claims[t].handle != h
  }

  predicate NotYetStored(artifacts: map<Key, Artifact>, t: Id) {
    forall k :: k in artifacts ==> artifacts[k].token != t
  }

  predicate Owns(s: State, w: Id, h: Handle, claimed: ClaimedJob) {
    && claimed.token in s.log.claims
    && s.log.claims[claimed.token] == Claim(claimed.job, claimed.attempt, h, w)
    && claimed.job in s.db.jobs && s.db.jobs[claimed.job].jobType == claimed.jobType
  }

  predicate CarriesJob(s: State, h: Handle, j: Id) {
    h.msg in s.queue && s.queue[h.msg].body.job == j
  }

  predicate WorkerOk(s: State, w: Id) {
    w in s.workers &&
    match s.workers[w]
    case LoopTop => true
    case Dispatching(_, todo) => TodoOk(s, w, todo)
    case Sent(_, todo, e, m) => TodoOk(s, w, todo) && m in s.queue && s.queue[m].origin.event == e
    case Unsent(_, todo, e) => TodoOk(s, w, todo)
    case ReadyToReceive => true
    case Received(h, j) =>
      && h in s.log.deliveries && s.log.deliveries[h] == w
      && NotYetClaimed(s.log.claims, h)
      && CarriesJob(s, h, j)
    case TurnedAway(h, j) => CarriesJob(s, h, j)
    case DeletingDuplicate(h, j) => CarriesJob(s, h, j) && IsCompleted(s, j)
    case Working(h, claimed) => Owns(s, w, h, claimed) && NotYetStored(s.artifacts, claimed.token)
    case Stored(h, claimed, key) =>
      && Owns(s, w, h, claimed)
      && key.job == claimed.job && key in s.artifacts
      && s.artifacts[key] == Artifact(claimed.token, claimed.jobType, claimed.attempt)
    case Unwinding(h, claimed, exit) => Owns(s, w, h, claimed) && (exit.Returned? ==> IsCompleted(s, claimed.job))
    case Deleting(h, claimed) => Owns(s, w, h, claimed) && IsCompleted(s, claimed.job)
    case Failing(h, claimed) => Owns(s, w, h, claimed)
  }

  predicate BeatOk(s: State, t: Id) {
    && t in s.beats && t in s.log.claims
    && s.log.claims[t].job == s.beats[t].job
    && s.log.claims[t].handle == s.beats[t].handle
    && s.log.claims[t].worker == s.beats[t].worker
  }

  /* ---- the invariant ---- */

  ghost predicate JobsOk(s: State) { forall j :: j in s.db.jobs ==> JobOk(s, j) }
  ghost predicate ClaimsOk(s: State) { forall t :: t in s.log.claims ==> ClaimOk(s, t) }
  ghost predicate AllClaimsApart(claims: map<Id, Claim>) {
    forall t, u :: t in claims && u in claims ==> ClaimsApart(claims, t, u)
  }
  ghost predicate OutboxOk(s: State) { forall e :: e in s.db.outbox ==> RowOk(s, e) }
  ghost predicate QueueOk(c: Config, s: State) { forall m :: m in s.queue ==> MessageOk(c, s, m) }
  ghost predicate AllMessagesApart(queue: map<Id, Message>) {
    forall m, n :: m in queue && n in queue ==> MessagesApart(queue, m, n)
  }
  ghost predicate GrantsOk(s: State) { forall g :: g in s.log.grants ==> GrantOk(s, g) }
  ghost predicate DeliveriesOk(s: State) { forall h :: h in s.log.deliveries ==> DeliveryOk(s, h) }
  ghost predicate ArtifactsOk(s: State) { forall k :: k in s.artifacts ==> ArtifactOk(s, k) }
  ghost predicate AllArtifactsApart(artifacts: map<Key, Artifact>) {
    forall k, l :: k in artifacts && l in artifacts ==> ArtifactsApart(artifacts, k, l)
  }
  ghost predicate RecordsOk(s: State) { forall j :: j in s.db.results ==> RecordOk(s, j) }
  ghost predicate WorkersOk(s: State) { forall w :: w in s.workers ==> WorkerOk(s, w) }
  ghost predicate BeatsOk(s: State) { forall t :: t in s.beats ==> BeatOk(s, t) }

  ghost predicate Inv(c: Config, s: State) {
    && Consistent(s.db)
    && JobsOk(s) && ClaimsOk(s) && AllClaimsApart(s.log.claims)
    && OutboxOk(s) && QueueOk(c, s) && AllMessagesApart(s.queue)
    && GrantsOk(s) && DeliveriesOk(s)
    && ArtifactsOk(s) && AllArtifactsApart(s.artifacts) && RecordsOk(s)
    && WorkersOk(s) && BeatsOk(s)
  }

  lemma InitialInv(c: Config)
    ensures Inv(c, INITIAL)
  {
    EmptyConsistent();
  }

  /* ---- what no step takes back ---- */

  predicate JobGrows(before: Job, after: Job) {
    && after.jobType == before.jobType && after.payload == before.payload && after.createdAt == before.createdAt
    && before.attempts <= after.attempts
    && (before.status.Completed? ==> after == before)
  }

  ghost predicate JobsGrow(s: State, t: State) {
    forall j :: j in s.db.jobs ==> j in t.db.jobs && JobGrows(s.db.jobs[j], t.db.jobs[j])
  }

  ghost predicate ResultsGrow(s: State, t: State) {
    forall j :: j in s.db.results ==> j in t.db.results && t.db.results[j] == s.db.results[j]
  }

  ghost predicate OutboxGrows(s: State, t: State) {
    forall e :: e in s.db.outbox ==>
                  && e in t.db.outbox
                  && t.db.outbox[e].payload == s.db.outbox[e].payload && t.db.outbox[e].createdAt == s.db.outbox[e].createdAt
                  && s.db.outbox[e].attempts <= t.db.outbox[e].attempts
                  && (s.db.outbox[e].status.OutPublished? ==> t.db.outbox[e] == s.db.outbox[e])
  }

  ghost predicate QueueGrows(s: State, t: State) {
    forall m :: m in s.queue ==>
                  && m in t.queue
                  && t.queue[m].body == s.queue[m].body
                  && t.queue[m].origin == s.queue[m].origin
                  && s.queue[m].receives <= t.queue[m].receives
  }

  ghost predicate LogGrows(s: State, t: State) {
    && s.log.issued <= t.log.issued
    && (forall k :: k in s.log.claims ==> k in t.log.claims && t.log.claims[k] == s.log.claims[k])
    && (forall h :: h in s.log.deliveries ==> h in t.log.deliveries && t.log.deliveries[h] == s.log.deliveries[h])
    && (forall g :: g in s.log.grants ==> g in t.log.grants && t.log.grants[g] == s.log.grants[g])
  }

  ghost predicate ArtifactsGrow(s: State, t: State) {
    forall k :: k in s.artifacts ==> k in t.artifacts && t.artifacts[k] == s.artifacts[k]
  }

  ghost predicate Grows(s: State, t: State) {
    && JobsGrow(s, t) && ResultsGrow(s, t) && OutboxGrows(s, t) && QueueGrows(s, t) && LogGrows(s, t)
    && ArtifactsGrow(s, t)
  }

  /* ---- what a step changes: everything outside the named sets is as before, what is in them is in order ---- */

  /** No claim, report or message that `w` alone could have made has appeared. */
  ghost predicate NothingNewFor(s: State, t: State, w: Id) {
    && (forall k :: k in t.log.claims && k !in s.log.claims ==> t.log.claims[k].worker != w)
    && (forall a :: a in t.artifacts && a !in s.artifacts ==>
                      t.artifacts[a].token in s.log.claims && s.log.claims[t.artifacts[a].token].worker != w)
    && (forall m :: m in t.queue && m !in s.queue ==>
                      t.queue[m].origin in s.log.grants && s.log.grants[t.queue[m].origin] != w)
  }

  ghost predicate JobsMove(s: State, t: State, changed: set<Id>) {
    && (forall j :: j in t.db.jobs && j !in changed ==> j in s.db.jobs && t.db.jobs[j] == s.db.jobs[j])
    && (forall k :: k in t.log.claims && k !in s.log.claims ==> t.log.claims[k].job in changed)
    && (forall j :: j in changed && j in t.db.jobs ==> JobOk(t, j))
  }

  ghost predicate ClaimsMove(s: State, t: State) {
    forall k :: k in t.log.claims && k !in s.log.claims ==> ClaimOk(t, k)
  }

  ghost predicate RowsMove(s: State, t: State, changed: set<Id>) {
    && (forall e :: e in t.db.outbox && e !in changed ==>
                      && e in s.db.outbox && t.db.outbox[e] == s.db.outbox[e]
                      && (e in s.log.publishedBy ==> e in t.log.publishedBy && t.log.publishedBy[e] == s.log.publishedBy[e]))
    && (forall e :: e in changed && e in t.db.outbox ==> RowOk(t, e))
  }

  ghost predicate MessagesMove(c: Config, s: State, t: State, changed: set<Id>) {
    && (forall m :: m in t.queue && m !in changed ==>
                      && m in s.queue && t.queue[m].body == s.queue[m].body && t.queue[m].origin == s.queue[m].origin
                      && t.queue[m].receives == s.queue[m].receives && t.queue[m].place == s.queue[m].place)
    && (forall m :: m in changed && m in t.queue ==> MessageOk(c, t, m))
  }

  ghost predicate GrantsMove(s: State, t: State) {
    forall g :: g in t.log.grants && g !in s.log.grants ==> GrantOk(t, g)
  }

  ghost predicate DeliveriesMove(s: State, t: State) {
    forall h :: h in t.log.deliveries && h !in s.log.deliveries ==> DeliveryOk(t, h)
  }

  ghost predicate ArtifactsMove(s: State, t: State) {
    forall k :: k in t.artifacts && k !in s.artifacts ==> ArtifactOk(t, k)
  }

  ghost predicate RecordsMove(s: State, t: State) {
    forall j :: j in t.db.results && j !in s.db.results ==> RecordOk(t, j)
  }

  ghost predicate WorkersMove(s: State, t: State, mover: set<Id>) {
    && (forall w :: w in t.workers && w !in mover ==>
                      w in s.workers && t.workers[w] == s.workers[w] && NothingNewFor(s, t, w))
    && (forall w :: w in mover && w in t.workers ==> WorkerOk(t, w))
  }

  predicate SameThread(before: Beat, after: Beat) {
    after.worker == before.worker && after.job == before.job && after.handle == before.handle
  }

  ghost predicate BeatsMove(s: State, t: State) {
    forall b :: b in t.beats && (b in s.beats ==> !SameThread(s.beats[b], t.beats[b])) ==> BeatOk(t, b)
  }

  /* ---- keeping each part, given that nothing is taken back ---- */

  lemma TokensKept(claims: map<Id, Claim>, after: map<Id, Claim>, j: Id)
    requires forall t :: t in claims ==> t in after && after[t] == claims[t]
    requires forall t :: t in after && t !in claims ==> after[t].job != j
    ensures TokensOf(after, j) == TokensOf(claims, j)
  {
  }

  lemma JobsStep(s: State, t: State, changed: set<Id>)
    requires JobsOk(s) && LogGrows(s, t) && JobsMove(s, t, changed)
    ensures JobsOk(t)
  {
    forall j | j in t.db.jobs ensures JobOk(t, j) {
      if j !in changed {
        assert JobOk(s, j);
        TokensKept(s.log.claims, t.log.claims, j);
      }
    }
  }

  lemma ClaimsStep(s: State, t: State)
    requires ClaimsOk(s) && LogGrows(s, t) && JobsGrow(s, t) && QueueGrows(s, t) && ClaimsMove(s, t)
    ensures ClaimsOk(t)
  {
    forall k | k in t.log.claims ensures ClaimOk(t, k) {
      if k in s.log.claims {
        assert ClaimOk(s, k);
      }
    }
  }

  lemma OutboxStep(s: State, t: State, changed: set<Id>)
    requires OutboxOk(s) && LogGrows(s, t) && QueueGrows(s, t) && RowsMove(s, t, changed)
    ensures OutboxOk(t)
  {
    forall e | e in t.db.outbox ensures RowOk(t, e) {
      if e !in changed {
        assert RowOk(s, e);
      }
    }
  }

  lemma QueueStep(c: Config, s: State, t: State, changed: set<Id>)
    requires QueueOk(c, s) && JobsGrow(s, t) && OutboxGrows(s, t) && LogGrows(s, t) && MessagesMove(c, s, t, changed)
    ensures QueueOk(c, t)
  {
    forall m | m in t.queue ensures MessageOk(c, t, m) {
      if m !in changed {
        assert MessageOk(c, s, m);
      }
    }
  }

  lemma MessagesApartKept(queue: map<Id, Message>, after: map<Id, Message>)
    requires AllMessagesApart(queue)
    requires after.Keys == queue.Keys && forall m :: m in queue ==> after[m].origin == queue[m].origin
    ensures AllMessagesApart(after)
  {
    forall m, n | m in after && n in after ensures MessagesApart(after, m, n) {
      assert MessagesApart(queue, m, n);
    }
  }

  lemma GrantsStep(s: State, t: State)
    requires GrantsOk(s) && OutboxGrows(s, t) && LogGrows(s, t) && GrantsMove(s, t)
    ensures GrantsOk(t)
  {
    forall g | g in t.log.grants ensures GrantOk(t, g) {
      if g in s.log.grants {
        assert GrantOk(s, g);
      }
    }
  }

  lemma DeliveriesStep(s: State, t: State)
    requires DeliveriesOk(s) && QueueGrows(s, t) && LogGrows(s, t) && DeliveriesMove(s, t)
    ensures DeliveriesOk(t)
  {
    forall h | h in t.log.deliveries ensures DeliveryOk(t, h) {
      if h in s.log.deliveries {
        assert DeliveryOk(s, h);
      }
    }
  }

  lemma ArtifactsStep(s: State, t: State)
    requires ArtifactsOk(s) && LogGrows(s, t) && JobsGrow(s, t) && ArtifactsGrow(s, t) && ArtifactsMove(s, t)
    ensures ArtifactsOk(t)
  {
    forall k | k in t.artifacts ensures ArtifactOk(t, k) {
      if k in s.artifacts {
        assert ArtifactOk(s, k);
      }
    }
  }

  lemma RecordsStep(s: State, t: State)
    requires RecordsOk(s) && ResultsAgree(s.db) && JobsGrow(s, t) && ResultsGrow(s, t) && ArtifactsGrow(s, t)
    requires RecordsMove(s, t)
    ensures RecordsOk(t)
  {
    forall j | j in t.db.results ensures RecordOk(t, j) {
      if j in s.db.results {
        assert RecordOk(s, j);
      }
    }
  }

  lemma BeatsStep(s: State, t: State)
    requires BeatsOk(s) && LogGrows(s, t) && BeatsMove(s, t)
    ensures BeatsOk(t)
  {
    forall b | b in t.beats ensures BeatOk(t, b) {
      if b in s.beats && SameThread(s.beats[b], t.beats[b]) {
        assert BeatOk(s, b);
      }
    }
  }

  lemma TodoKept(s: State, t: State, w: Id, todo: map<Id, nat>)
    requires TodoOk(s, w, todo) && LogGrows(s, t) && QueueGrows(s, t) && NothingNewFor(s, t, w)
    ensures TodoOk(t, w, todo)
  {
    forall e | e in todo ensures MayStillSend(t, w, e, todo[e]) {
      assert MayStillSend(s, w, e, todo[e]);
    }
  }

  lemma ReceivedKept(s: State, t: State, w: Id, h: Handle)
    requires DeliveriesOk(s) && ClaimsOk(t) && LogGrows(s, t) && NothingNewFor(s, t, w)
    requires h in s.log.deliveries && s.log.deliveries[h] == w && NotYetClaimed(s.log.claims, h)
    ensures NotYetClaimed(t.log.claims, h)
  {
    forall k | k in t.log.claims ensures t.log.claims[k].handle != h {
      assert ClaimOk(t, k);
    }
  }

  lemma WorkerKept(s: State, t: State, w: Id)
    requires WorkerOk(s, w) && w in t.workers && t.workers[w] == s.workers[w]
    requires Grows(s, t) && NothingNewFor(s, t, w)
    requires DeliveriesOk(s) && ClaimsOk(t)
    ensures WorkerOk(t, w)
  {
    match s.workers[w]
    case Dispatching(_, todo) => TodoKept(s, t, w, todo);
    case Sent(_, todo, _, _) => TodoKept(s, t, w, todo);
    case Unsent(_, todo, _) => TodoKept(s, t, w, todo);
    case Received(h, _) => ReceivedKept(s, t, w, h);
    case _ =>
  }

  /** Workers other than the one that moved are undisturbed. */
  lemma WorkersStep(s: State, t: State, mover: set<Id>)
    requires WorkersOk(s) && Grows(s, t) && DeliveriesOk(s) && ClaimsOk(t) && WorkersMove(s, t, mover)
    ensures WorkersOk(t)
  {
    forall w | w in t.workers ensures WorkerOk(t, w) {
      if w !in mover {
        assert WorkerOk(s, w);
        WorkerKept(s, t, w);
      }
    }
  }
}
