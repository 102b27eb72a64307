/** `Repository`: each method is one transaction, proved equal to its specification in Tables. */
module Repositories {
  import opened Basics
  import opened Tables
  import opened Outbox

  // What `claim_outbox_events` returns for one row.
  datatype ClaimedEvent = ClaimedEvent(id: Id, eventType: string, version: int, payload: Body, attempts: nat, token: Id)

  function EventView(db: Db, e: Id, token: Id): ClaimedEvent
    requires e in db.outbox
  {
    var row := db.outbox[e];
    ClaimedEvent(e, row.eventType, row.version, row.payload, row.attempts, token)
  }

  /** What the query selects, in terms of the columns. */
  lemma OldestFree(db: Db, batch: set<Id>, locked: set<Id>, limit: nat, now: Time, lease: int) returns (free: set<Id>)
    requires IsBatch(db, batch, locked, limit, now, lease)
    ensures forall e :: e in free <==>
                        && e in db.outbox && e !in locked
                        && (db.outbox[e].status in {OutPending, OutFailed} ||
                            (db.outbox[e].status == OutPublishing && db.outbox[e].lockedAt.Some? &&
                             db.outbox[e].lockedAt.value + lease < now))
    ensures batch <= free && |batch| == if |free| < limit then |free| else limit
    ensures forall b, e :: b in batch && e in free - batch ==> db.outbox[b].createdAt <= db.outbox[e].createdAt
  {
    free := ClaimableRows(db, now, lease) - locked;
  }

  class Repository {
    var jobs: map<Id, Job>
    var outbox: map<Id, OutboxRow>
    var results: map<Id, Report>
    var metadata: set<Meta>
    var audit: multiset<Audit>

    function Value(): Db
      reads this
    {
      Db(jobs, outbox, results, metadata, audit)
    }

    ghost predicate Valid()
      reads this
    {
      Consistent(Value())
    }

    constructor ()
      ensures Value() == EMPTY_DB && Valid()
    {
      jobs, outbox, results, metadata, audit := map[], map[], map[], {}, multiset{};
      new;
      EmptyConsistent();
    }

    /** The two ids are fresh uuid4 draws. */
    method CreateJob(j: Id, e: Id, jobType: string, payload: string, correlation: Option<string>, now: Time) returns (job: Job)
      requires Valid() && j !in jobs && e !in outbox
      modifies this
      ensures Valid() && Value() == Tables.CreateJob(old(Value()), j, e, jobType, payload, correlation, now)
      ensures jobs == old(jobs)[j := job] && outbox.Keys == old(outbox.Keys) + {e}
      ensures job.jobType == jobType && job.payload == payload && job.status == Pending && job.attempts == 0
      ensures job.lastError == None && job.token == None && job.startedAt == None && job.createdAt == now && job.updatedAt == now
      ensures var row := outbox[e];
              && row.eventType == "job.created" && row.version == 1 && row.status == OutPending && row.attempts == 0
              && row.lockedAt == None && row.claimToken == None && row.publishedAt == None && row.lastError == None
              && row.createdAt == now && row.updatedAt == now
              && row.payload.version == 1 && row.payload.eventType == "job.created" && row.payload.job == j
              && row.payload.correlation == if correlation.Some? && |correlation.value| > 0 then correlation else None
      ensures forall r :: r in old(outbox) ==> outbox[r] == old(outbox[r])
      ensures results == old(results) && metadata == old(metadata)
      ensures audit == old(audit) + multiset{Audit(j, AuditCreated(jobType))}
    {
      hide Consistent;
      CreateKeeps(Value(), j, e, jobType, payload, correlation, now);
      var body := Body(1, "job.created", j, None);
      if correlation.Some? && correlation.value != "" {
        body := body.(correlation := correlation);
      }
      job := Job(jobType, payload, Pending, 0, None, None, None, now, now);
      jobs := jobs[j := job];
      outbox := outbox[e := OutboxRow("job.created", 1, body, OutPending, 0, None, None, None, None, now, now)];
      audit := audit + multiset{Audit(j, AuditCreated(jobType))};
    }

    /**
     Selects up to `limit` of the oldest claimable rows that no other transaction has locked, claims them under one
     token, and returns them in no particular order.
     */
    method ClaimOutboxEvents(limit: nat, lease: int, token: Id, now: Time, locked: set<Id>)
      returns (rows: seq<ClaimedEvent>, ghost free: set<Id>)
      requires Valid()
      modifies this
      ensures Valid()
      ensures var batch := set r | r in rows :: r.id;
              && IsBatch(old(Value()), batch, locked, limit, now, lease)
              && Value() == ClaimEvents(old(Value()), batch, token, now)
              && |rows| == |batch|
      ensures forall r :: r in rows ==>
                r.id in outbox && r.eventType == outbox[r.id].eventType && r.version == outbox[r.id].version
                && r.payload == outbox[r.id].payload && r.attempts == outbox[r.id].attempts && r.token == token
      ensures forall i, k :: 0 <= i < k < |rows| ==> rows[i].id != rows[k].id
      ensures forall e :: e in free <==>
                          && e in old(outbox) && e !in locked
                          && (old(outbox[e]).status in {OutPending, OutFailed} ||
                              (old(outbox[e]).status == OutPublishing && old(outbox[e]).lockedAt.Some? &&
                               old(outbox[e]).lockedAt.value + lease < now))
      ensures var batch := set r | r in rows :: r.id;
              && batch <= free && |batch| == (if |free| < limit then |free| else limit)
              && forall b, e :: b in batch && e in free - batch ==> old(outbox[b]).createdAt <= old(outbox[e]).createdAt
      ensures outbox.Keys == old(outbox.Keys)
      ensures forall r :: r in rows ==>
                outbox[r.id] == old(outbox[r.id]).(status := OutPublishing, attempts := old(outbox[r.id].attempts) + 1,
                                                   lockedAt := Some(now), claimToken := Some(token), updatedAt := now)
      ensures forall e :: e in old(outbox) && (forall r :: r in rows ==> r.id != e) ==> outbox[e] == old(outbox[e])
      ensures jobs == old(jobs) && results == old(results) && metadata == old(metadata) && audit == old(audit)
    {
      hide Consistent, IsBatch;
      var batch := SelectOldest(limit, lease, now, locked);
      BatchIsClaimable(Value(), batch, locked, limit, now, lease);
      free := OldestFree(Value(), batch, locked, limit, now, lease);
      ClaimEventsKeeps(Value(), batch, token, now);
      outbox := map e | e in outbox :: if e in batch then ClaimRow(outbox[e], token, now) else outbox[e];
      rows := ReturnRows(batch, token);
    }

    /** ORDER BY created_at LIMIT n FOR UPDATE SKIP LOCKED. */
    method SelectOldest(limit: nat, lease: int, now: Time, locked: set<Id>) returns (batch: set<Id>)
      ensures IsBatch(Value(), batch, locked, limit, now, lease)
    {
      var free := (set e | e in outbox && RowClaimable(outbox[e], now, lease)) - locked;
      batch := {};
      while |batch| < limit && batch != free
        invariant batch <= free && |batch| <= limit
        invariant forall b, r :: b in batch && r in free && r !in batch ==> outbox[b].createdAt <= outbox[r].createdAt
        decreases limit - |batch|
      {
        var rest := free - batch;
        assert free == batch + rest;
        ghost var oldest := Oldest(Value(), rest);
        var e :| e in rest && forall r :: r in rest ==> outbox[e].createdAt <= outbox[r].createdAt;
        batch := batch + {e};
      }
      assert free == ClaimableRows(Value(), now, lease) - locked;
      SubsetBound(batch, free);
    }

    /** RETURNING, in whatever order the engine meets the rows. */
    method ReturnRows(batch: set<Id>, token: Id) returns (rows: seq<ClaimedEvent>)
      requires batch <= outbox.Keys
      ensures (set r | r in rows :: r.id) == batch && |rows| == |batch|
      ensures forall r :: r in rows ==> r.id in outbox && r == EventView(Value(), r.id, token)
      ensures forall i, k :: 0 <= i < k < |rows| ==> rows[i].id != rows[k].id
    {
      rows := [];
      var rest := batch;
      while rest != {}
        invariant rest <= batch && |rows| + |rest| == |batch|
        invariant forall r :: r in rows ==> r.id in outbox && r == EventView(Value(), r.id, token)
        invariant forall r :: r in rows ==> r.id in batch && r.id !in rest
        invariant forall e :: e in batch && e !in rest ==> exists r :: r in rows && r.id == e
        invariant forall i, k :: 0 <= i < k < |rows| ==> rows[i].id != rows[k].id
        decreases rest
      {
        var e :| e in rest;
        var view := EventView(Value(), e, token);
        ghost var was := rows;
        rows := rows + [view];
        rest := rest - {e};
        assert view in rows;
        forall f | f in batch && f !in rest ensures exists r :: r in rows && r.id == f {
          if f != e {
            var r :| r in was && r.id == f;
            assert r in rows;
          }
        }
      }
    }

    method MarkOutboxPublished(e: Id, token: Id, now: Time) returns (moved: bool)
      requires Valid()
      modifies this
      ensures Valid() && Value() == MarkPublished(old(Value()), e, token, now)
      ensures moved == HoldsRow(old(Value()), e, token)
      ensures moved <==> e in old(outbox) && old(outbox[e]).status == OutPublishing && old(outbox[e]).claimToken == Some(token)
      ensures moved ==>
                && outbox.Keys == old(outbox.Keys)
                && outbox[e].status == OutPublished && outbox[e].publishedAt == Some(now) && outbox[e].lastError == None
                && outbox[e].lockedAt == None && outbox[e].claimToken == None
                && outbox[e].eventType == old(outbox[e]).eventType && outbox[e].version == old(outbox[e]).version
                && outbox[e].payload == old(outbox[e]).payload && outbox[e].attempts == old(outbox[e]).attempts
                && outbox[e].createdAt == old(outbox[e]).createdAt && outbox[e].updatedAt == now
      ensures forall r :: r in old(outbox) && (r != e || !moved) ==> r in outbox && outbox[r] == old(outbox[r])
      ensures !moved ==> outbox == old(outbox)
      ensures jobs == old(jobs) && results == old(results) && metadata == old(metadata) && audit == old(audit)
    {
      hide Consistent;
      MarkPublishedKeeps(Value(), e, token, now);
      moved := false;
      if e in outbox && outbox[e].status == OutPublishing && outbox[e].claimToken == Some(token) {
        outbox := outbox[e := outbox[e].(status := OutPublished, publishedAt := Some(now), updatedAt := now,
                                         lastError := None, lockedAt := None, claimToken := None)];
        moved := true;
      }
    }

    method MarkOutboxFailed(e: Id, token: Id, error: string, now: Time) returns (moved: bool)
      requires Valid()
      modifies this
      ensures Valid() && Value() == MarkFailed(old(Value()), e, token, error, now)
      ensures moved == HoldsRow(old(Value()), e, token)
      ensures moved <==> e in old(outbox) && old(outbox[e]).status == OutPublishing && old(outbox[e]).claimToken == Some(token)
      ensures moved ==>
                && outbox.Keys == old(outbox.Keys)
                && outbox[e].status == OutFailed && outbox[e].publishedAt == old(outbox[e]).publishedAt
                && outbox[e].lastError == Some(if |error| <= 1000 then error else error[..1000])
                && outbox[e].lockedAt == None && outbox[e].claimToken == None
                && outbox[e].eventType == old(outbox[e]).eventType && outbox[e].version == old(outbox[e]).version
                && outbox[e].payload == old(outbox[e]).payload && outbox[e].attempts == old(outbox[e]).attempts
                && outbox[e].createdAt == old(outbox[e]).createdAt && outbox[e].updatedAt == now
      ensures forall r :: r in old(outbox) && (r != e || !moved) ==> r in outbox && outbox[r] == old(outbox[r])
      ensures !moved ==> outbox == old(outbox)
      ensures jobs == old(jobs) && results == old(results) && metadata == old(metadata) && audit == old(audit)
    {
      hide Consistent;
      MarkFailedKeeps(Value(), e, token, error, now);
      moved := false;
      if e in outbox && outbox[e].status == OutPublishing && outbox[e].claimToken == Some(token) {
        outbox := outbox[e := outbox[e].(status := OutFailed, lastError := Some(Truncate(error)), lockedAt := None,
                                         claimToken := None, updatedAt := now)];
        moved := true;
      }
    }

    /** None is the NotFoundError; otherwise the joins yield exactly this row. */
    method GetJob(j: Id) returns (view: Option<JobView>)
      requires Valid()
      ensures JoinedRows(Value(), j) == if view.Some? then {view.value} else {}
      ensures view.Some? <==> j in jobs
      ensures view.Some? ==>
                view.value == JobView(j, jobs[j], if j in results then Some(results[j]) else None,
                                      if j in results then Some((results[j].key, "text/csv")) else None)
    {
      JoinIsOneRow(Value(), j);
      if j !in jobs {
        view := None;
      } else if j in results {
        view := Some(JobView(j, jobs[j], Some(results[j]), Some((results[j].key, "text/csv"))));
      } else {
        view := Some(JobView(j, jobs[j], None, None));
      }
    }

    method MarkJobProcessing(j: Id, token: Id, now: Time, lease: int) returns (claimed: Option<ClaimedJob>)
      requires Valid()
      modifies this
      ensures Valid() && Value() == MarkProcessing(old(Value()), j, token, now, lease)
      ensures claimed.Some? <==> CanClaim(old(Value()), j, now, lease)
      ensures claimed.Some? ==> j in jobs && claimed.value == ClaimedJob(j, jobs[j].jobType, jobs[j].attempts, token)
      ensures claimed.Some? <==> j in old(jobs) && (old(jobs[j]).status in {Pending, Failed} ||
                                        (old(jobs[j]).status == Processing && old(jobs[j]).startedAt.Some? &&
                                         old(jobs[j]).startedAt.value + lease < now))
      ensures claimed.Some? ==>
                && jobs.Keys == old(jobs.Keys)
                && jobs[j].status == Processing && jobs[j].attempts == old(jobs[j]).attempts + 1
                && jobs[j].token == Some(token) && jobs[j].startedAt == Some(now) && jobs[j].lastError == old(jobs[j]).lastError
                && jobs[j].jobType == old(jobs[j]).jobType && jobs[j].payload == old(jobs[j]).payload && jobs[j].createdAt == old(jobs[j]).createdAt
                && jobs[j].updatedAt == now
      ensures forall k :: k in old(jobs) && (k != j || !(claimed.Some?)) ==> k in jobs && jobs[k] == old(jobs[k])
      ensures !(claimed.Some?) ==> jobs == old(jobs)
      ensures outbox == old(outbox) && results == old(results) && metadata == old(metadata) && audit == old(audit)
    {
      hide Consistent;
      MarkProcessingKeeps(Value(), j, token, now, lease);
      claimed := None;
      if j in jobs {
        var job := jobs[j];
        if job.status == Pending || job.status == Failed ||
           (job.status == Processing && job.startedAt.Some? && job.startedAt.value < now - lease) {
          job := job.(status := Processing, attempts := job.attempts + 1, token := Some(token), startedAt := Some(now),
                      updatedAt := now);
          jobs := jobs[j := job];
          claimed := Some(ClaimedJob(j, job.jobType, job.attempts, token));
        }
      }
    }

    method RenewJobProcessingLease(j: Id, token: Id, now: Time) returns (renewed: bool)
      requires Valid()
      modifies this
      ensures Valid() && Value() == RenewLease(old(Value()), j, token, now)
      ensures renewed == HoldsJob(old(Value()), j, token)
      ensures renewed <==> j in old(jobs) && old(jobs[j]).status == Processing && old(jobs[j]).token == Some(token)
      ensures renewed ==>
                && jobs.Keys == old(jobs.Keys)
                && jobs[j].status == Processing && jobs[j].attempts == old(jobs[j]).attempts
                && jobs[j].token == Some(token) && jobs[j].startedAt == Some(now) && jobs[j].lastError == old(jobs[j]).lastError
                && jobs[j].jobType == old(jobs[j]).jobType && jobs[j].payload == old(jobs[j]).payload && jobs[j].createdAt == old(jobs[j]).createdAt
                && jobs[j].updatedAt == now
      ensures forall k :: k in old(jobs) && (k != j || !(renewed)) ==> k in jobs && jobs[k] == old(jobs[k])
      ensures !(renewed) ==> jobs == old(jobs)
      ensures outbox == old(outbox) && results == old(results) && metadata == old(metadata) && audit == old(audit)
    {
      hide Consistent;
      RenewKeeps(Value(), j, token, now);
      renewed := false;
      if j in jobs && jobs[j].status == Processing && jobs[j].token == Some(token) {
        jobs := jobs[j := jobs[j].(startedAt := Some(now), updatedAt := now)];
        renewed := true;
      }
    }

    /** False is the LostJobClaimError, raised before anything is written. */
    method CompleteJobWithReport(j: Id, token: Id, report: Report, key: Key, objectType: string, now: Time) returns (completed: bool)
      requires Valid()
      modifies this
      ensures Value() == CompleteJob(old(Value()), j, token, report, key, objectType, now)
      ensures completed == HoldsJob(old(Value()), j, token)
      ensures completed <==> j in old(jobs) && old(jobs[j]).status == Processing && old(jobs[j]).token == Some(token)
      ensures completed ==>
                && jobs.Keys == old(jobs.Keys)
                && jobs[j].status == Completed && jobs[j].attempts == old(jobs[j]).attempts && jobs[j].token == None && jobs[j].startedAt == None
                && jobs[j].lastError == None
                && jobs[j].jobType == old(jobs[j]).jobType && jobs[j].payload == old(jobs[j]).payload && jobs[j].createdAt == old(jobs[j]).createdAt
                && jobs[j].updatedAt == now
      ensures forall k :: k in old(jobs) && (k != j || !(completed)) ==> k in jobs && jobs[k] == old(jobs[k])
      ensures !(completed) ==> jobs == old(jobs)
      ensures outbox == old(outbox) && results == if completed then old(results)[j := report] else old(results)
      ensures audit == if completed then old(audit) + multiset{Audit(j, AuditCompleted(report))} else old(audit)
      ensures metadata == if completed && !exists m :: m in old(metadata) && m.job == j && m.key == key
                          then old(metadata) + {Meta(j, key, objectType, "job")} else old(metadata)
      ensures report.key == key && key.job == j && objectType == "text/csv" ==> Valid()
    {
      hide Consistent;
      ghost var before := Value();
      if j !in jobs || jobs[j].status != Processing || jobs[j].token != Some(token) {
        return false;
      }
      jobs := jobs[j := jobs[j].(status := Completed, lastError := None, token := None, startedAt := None, updatedAt := now)];
      results := results[j := report];
      if !exists m :: m in metadata && m.job == j && m.key == key {
        metadata := metadata + {Meta(j, key, objectType, "job")};
      }
      audit := audit + multiset{Audit(j, AuditCompleted(report))};
      completed := true;
      if report.key == key && key.job == j && objectType == "text/csv" {
        CompleteKeeps(before, j, token, report, now);
      }
    }

    method FailJob(j: Id, token: Id, error: string, now: Time) returns (failed: bool)
      requires Valid()
      modifies this
      ensures Valid() && Value() == Tables.FailJob(old(Value()), j, token, error, now)
      ensures failed == HoldsJob(old(Value()), j, token)
      ensures failed <==> j in old(jobs) && old(jobs[j]).status == Processing && old(jobs[j]).token == Some(token)
      ensures failed ==>
                && jobs.Keys == old(jobs.Keys)
                && jobs[j].status == Failed && jobs[j].attempts == old(jobs[j]).attempts && jobs[j].token == None && jobs[j].startedAt == None
                && jobs[j].lastError == Some(if |error| <= 1000 then error else error[..1000])
                && jobs[j].jobType == old(jobs[j]).jobType && jobs[j].payload == old(jobs[j]).payload && jobs[j].createdAt == old(jobs[j]).createdAt
                && jobs[j].updatedAt == now
      ensures forall k :: k in old(jobs) && (k != j || !(failed)) ==> k in jobs && jobs[k] == old(jobs[k])
      ensures !(failed) ==> jobs == old(jobs)
      ensures outbox == old(outbox) && results == old(results) && metadata == old(metadata) && audit == old(audit)
    {
      hide Consistent;
      FailKeeps(Value(), j, token, error, now);
      failed := false;
      if j in jobs && jobs[j].status == Processing && jobs[j].token == Some(token) {
        jobs := jobs[j := jobs[j].(status := Failed, lastError := Some(Truncate(error)), token := None, startedAt := None,
                                   updatedAt := now)];
        failed := true;
      }
    }
  }
}
