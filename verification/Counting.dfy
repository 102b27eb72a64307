/** Bounds on attempts, reports and sends, by counting what each one used up. */
module Counting {
  import opened Basics
  import opened Tables
  import opened Pipeline
  import opened Invariant
  import opened Preservation
  import opened Safety

  /* ---- reports ---- */

  function ArtifactsOf(artifacts: map<Key, Artifact>, j: Id): set<Key> {
    set k | k in artifacts && k.job == j
  }

  lemma ArtifactsWithinClaims(s: State, j: Id)
    requires ArtifactsOk(s) && AllArtifactsApart(s.artifacts)
    ensures |ArtifactsOf(s.artifacts, j)| <= |TokensOf(s.log.claims, j)|
  {
    var keys := ArtifactsOf(s.artifacts, j);
    forall k | k in keys ensures s.artifacts[k].token in TokensOf(s.log.claims, j) {
      assert ArtifactOk(s, k);
    }
    forall k, l | k in keys && l in keys && k != l ensures s.artifacts[k].token != s.artifacts[l].token {
      assert ArtifactsApart(s.artifacts, k, l);
    }
    InjectionBound(keys, TokensOf(s.log.claims, j), map k | k in keys :: s.artifacts[k].token);
  }

  /**
   A job never has more reports than attempts. The recorded one is stored, belongs to the job and was written by its
   last attempt; so at most attempts - 1 reports of a completed job are orphans.
   */
  lemma ArtifactAccounting(c: Config, s: State, j: Id)
    requires Reachable(c, s) && j in s.db.jobs
    ensures |ArtifactsOf(s.artifacts, j)| <= s.db.jobs[j].attempts
    ensures IsCompleted(s, j) ==>
              && j in s.db.results
              && s.db.results[j].key in ArtifactsOf(s.artifacts, j) && s.db.results[j].rows == 3
              && s.artifacts[s.db.results[j].key].attempt == s.db.jobs[j].attempts
              && s.artifacts[s.db.results[j].key].jobType == s.db.jobs[j].jobType
              && |ArtifactsOf(s.artifacts, j) - {s.db.results[j].key}| <= s.db.jobs[j].attempts - 1
  {
    hide Inv, Reachable, ClaimsOk, OutboxOk, QueueOk, GrantsOk, DeliveriesOk, WorkersOk, BeatsOk, AllArtifactsApart, TokensOf;
    hide RowsOk, EventsMatchJobs, MetadataAgrees, CompletionsAudited, CreationsAudited, AllClaimsApart, AllMessagesApart;
    ReachableInv(c, s);
    Parts(c, s);
    ArtifactsWithinClaims(s, j);
    assert JobOk(s, j);
    if IsCompleted(s, j) {
      assert RecordOk(s, j);
      assert ArtifactOk(s, s.db.results[j].key);
    }
  }

  /** The report recorded is the winner's: no other attempt of the job carries its number. */
  lemma RecordedByWinner(c: Config, s: State, j: Id, t: Id)
    requires Reachable(c, s) && IsCompleted(s, j)
    requires t in s.log.claims && s.log.claims[t].job == j && s.log.claims[t].attempt == s.db.jobs[j].attempts
    ensures j in s.db.results && s.db.results[j].key in s.artifacts
    ensures s.artifacts[s.db.results[j].key].token == t
  {
    hide Inv, Reachable, ClaimsOk, OutboxOk, QueueOk, GrantsOk, DeliveriesOk, WorkersOk, BeatsOk, TokensOf;
    hide RowsOk, EventsMatchJobs, MetadataAgrees, CompletionsAudited, CreationsAudited, AllMessagesApart, AllArtifactsApart;
    ReachableInv(c, s);
    Parts(c, s);
    var key := s.db.results[j].key;
    assert RecordOk(s, j) && ArtifactOk(s, key);
    assert ClaimsApart(s.log.claims, s.artifacts[key].token, t);
  }

  /* ---- attempts, receives, sends ---- */

  function MessagesOf(queue: map<Id, Message>, j: Id): set<Id> {
    set m | m in queue && queue[m].body.job == j
  }

  /** The receipts handed out by the first `n` receives of a message. */
  function Receipts(m: Id, n: nat): (r: set<Handle>)
    ensures |r| == n
    ensures forall h :: h in r <==> h.msg == m && 1 <= h.receipt <= n
  {
    if n == 0 then {} else Receipts(m, n - 1) + {Handle(m, n)}
  }

  /** All receives, ever, of a set of messages. */
  function ReceiptsAmong(queue: map<Id, Message>, ms: set<Id>): (r: set<Handle>)
    requires ms <= queue.Keys
    ensures forall h :: h in r <==> h.msg in ms && 1 <= h.receipt <= queue[h.msg].receives
  {
    set m, k | m in ms && 1 <= k <= queue[m].receives :: Handle(m, k)
  }

  function ReceiptsOf(queue: map<Id, Message>, j: Id): set<Handle> {
    ReceiptsAmong(queue, MessagesOf(queue, j))
  }

  lemma {:induction false} ReceiptsBounded(queue: map<Id, Message>, ms: set<Id>, limit: nat)
    requires forall m :: m in ms ==> m in queue && queue[m].receives <= limit
    ensures |ReceiptsAmong(queue, ms)| <= limit * |ms|
    decreases ms
  {
    if ms == {} {
      assert ReceiptsAmong(queue, ms) == {};
    } else {
      var x :| x in ms;
      ReceiptsBounded(queue, ms - {x}, limit);
      OneMore(queue, ms, x);
      Distribute(limit, |ms - {x}|, |ms|);
    }
  }

  lemma OneMore(queue: map<Id, Message>, ms: set<Id>, x: Id)
    requires ms <= queue.Keys && x in ms
    ensures |ReceiptsAmong(queue, ms)| <= |ReceiptsAmong(queue, ms - {x})| + queue[x].receives
  {
    hide ReceiptsAmong, Receipts;
    var all, rest, ofX := ReceiptsAmong(queue, ms), ReceiptsAmong(queue, ms - {x}), Receipts(x, queue[x].receives);
    assert all <= rest + ofX;
    SubsetBound(all, rest + ofX);
  }

  lemma Distribute(k: nat, a: nat, b: nat)
    requires b == a + 1
    ensures k * b == k * a + k
  {
  }

  lemma ClaimsWithinReceives(s: State, j: Id)
    requires ClaimsOk(s) && AllClaimsApart(s.log.claims) && DeliveriesOk(s)
    ensures |TokensOf(s.log.claims, j)| <= |ReceiptsOf(s.queue, j)|
  {
    hide Receipts;
    var tokens := TokensOf(s.log.claims, j);
    forall t | t in tokens ensures s.log.claims[t].handle in ReceiptsOf(s.queue, j) {
      assert ClaimOk(s, t);
      var h := s.log.claims[t].handle;
      assert DeliveryOk(s, h);
      assert h.msg in MessagesOf(s.queue, j) && h == Handle(h.msg, h.receipt);
    }
    forall t, u | t in tokens && u in tokens && t != u ensures s.log.claims[t].handle != s.log.claims[u].handle {
      assert ClaimsApart(s.log.claims, t, u);
    }
    InjectionBound(tokens, ReceiptsOf(s.queue, j), map t | t in tokens :: s.log.claims[t].handle);
  }

  function SendsOf(queue: map<Id, Message>, e: Id): set<Id> {
    set m | m in queue && queue[m].origin.event == e
  }

  function GrantsUpTo(e: Id, n: nat): (r: set<Grant>)
    ensures |r| == n
    ensures forall g :: g in r <==> g.event == e && 1 <= g.attempt <= n
  {
    if n == 0 then {} else GrantsUpTo(e, n - 1) + {Grant(e, n)}
  }

  lemma SendsWithinAttempts(c: Config, s: State, e: Id)
    requires QueueOk(c, s) && GrantsOk(s) && AllMessagesApart(s.queue) && e in s.db.outbox
    ensures |SendsOf(s.queue, e)| <= s.db.outbox[e].attempts
  {
    var sends := SendsOf(s.queue, e);
    var n := s.db.outbox[e].attempts;
    forall m | m in sends ensures s.queue[m].origin in GrantsUpTo(e, n) {
      assert MessageOk(c, s, m);
      assert GrantOk(s, s.queue[m].origin);
    }
    forall m, k | m in sends && k in sends && m != k ensures s.queue[m].origin != s.queue[k].origin {
      assert MessagesApart(s.queue, m, k);
    }
    InjectionBound(sends, GrantsUpTo(e, n), map m | m in sends :: s.queue[m].origin);
  }

  lemma MessagesAreSends(c: Config, s: State, e: Id)
    requires QueueOk(c, s) && EventsMatchJobs(s.db) && e in s.db.outbox
    ensures MessagesOf(s.queue, s.db.outbox[e].payload.job) == SendsOf(s.queue, e)
  {
    forall m | m in s.queue
      ensures m in MessagesOf(s.queue, s.db.outbox[e].payload.job) <==> m in SendsOf(s.queue, e)
    {
      assert MessageOk(c, s, m);
    }
  }

  lemma ReceivesWithinSends(c: Config, s: State, j: Id)
    requires QueueOk(c, s)
    ensures |ReceiptsOf(s.queue, j)| <= c.maxReceives * |MessagesOf(s.queue, j)|
  {
    forall m | m in MessagesOf(s.queue, j) ensures s.queue[m].receives <= c.maxReceives {
      assert MessageOk(c, s, m);
    }
    ReceiptsBounded(s.queue, MessagesOf(s.queue, j), c.maxReceives);
  }

  /** attempts = tokens issued <= receives <= limit * sends <= limit * outbox attempts, in every run. */
  lemma RetryBound(c: Config, s: State, e: Id)
    requires Reachable(c, s) && e in s.db.outbox
    ensures var j := s.db.outbox[e].payload.job;
            && j in s.db.jobs
            && s.db.jobs[j].attempts == |TokensOf(s.log.claims, j)|
            && s.db.jobs[j].attempts <= |ReceiptsOf(s.queue, j)|
            && |ReceiptsOf(s.queue, j)| <= c.maxReceives * |SendsOf(s.queue, e)|
            && |SendsOf(s.queue, e)| <= s.db.outbox[e].attempts
            && s.db.jobs[j].attempts <= c.maxReceives * s.db.outbox[e].attempts
  {
    hide Inv, Reachable, ClaimsOk, OutboxOk, QueueOk, GrantsOk, DeliveriesOk, ArtifactsOk, RecordsOk, WorkersOk, BeatsOk;
    hide AllClaimsApart, AllMessagesApart, AllArtifactsApart, TokensOf, ReceiptsOf, SendsOf, MessagesOf;
    hide RowsOk, ResultsAgree, MetadataAgrees, CompletionsAudited, CreationsAudited;
    var j := s.db.outbox[e].payload.job;
    ReachableInv(c, s);
    Parts(c, s);
    assert j in s.db.jobs && JobOk(s, j);
    ClaimsWithinReceives(s, j);
    ReceivesWithinSends(c, s, j);
    MessagesAreSends(c, s, e);
    SendsWithinAttempts(c, s, e);
    Multiply(c.maxReceives, |SendsOf(s.queue, e)|, s.db.outbox[e].attempts);
  }

  lemma Multiply(k: nat, a: nat, b: nat)
    requires a <= b
    ensures k * a <= k * b
  {
  }

  /* ---- the outbox ---- */

  /** A row's claim, its publication and its sends, in every reachable state. */
  lemma OutboxFencing(c: Config, s: State, e: Id)
    requires Reachable(c, s) && e in s.db.outbox
    ensures var row := s.db.outbox[e];
            && (row.status.OutPublishing? <==> row.claimToken.Some?)
            && (row.status.OutPublishing? <==> row.lockedAt.Some?)
            && (row.status.OutPublished? ==> SendsOf(s.queue, e) != {})
            && |SendsOf(s.queue, e)| <= row.attempts
  {
    hide Inv, Reachable, ClaimsOk, QueueOk, GrantsOk, DeliveriesOk, ArtifactsOk, RecordsOk, WorkersOk, BeatsOk, JobsOk;
    hide AllClaimsApart, AllMessagesApart, AllArtifactsApart;
    hide EventsMatchJobs, ResultsAgree, MetadataAgrees, CompletionsAudited, CreationsAudited;
    ReachableInv(c, s);
    Parts(c, s);
    assert OutboxRowOk(s.db.outbox[e]) && RowOk(s, e);
    if s.db.outbox[e].status.OutPublished? {
      assert s.log.publishedBy[e] in SendsOf(s.queue, e);
    }
    SendsWithinAttempts(c, s, e);
  }

  /** A published row is never touched again. */
  lemma PublishedIsTerminal(c: Config, s: State, e: Id, more: seq<Step>)
    requires Reachable(c, s) && e in s.db.outbox && s.db.outbox[e].status.OutPublished? && ValidFrom(c, s, more)
    ensures var t := Exec(c, s, more); e in t.db.outbox && t.db.outbox[e] == s.db.outbox[e]
  {
    hide Inv, Reachable, JobsGrow, ResultsGrow, QueueGrows, LogGrows, ArtifactsGrow, Exec, ValidFrom;
    ReachableInv(c, s);
    RunKeeps(c, s, more);
  }
}
