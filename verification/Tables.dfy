/**
 The PostgreSQL tables of the job pipeline, as values, and what each transaction of
 `Repository` does to them. Every function below is one committed transaction.
 */
module Tables {
  import opened Basics

  datatype JobStatus = Pending | Processing | Completed | Failed

  datatype Job = Job(
    jobType: string, payload: string, status: JobStatus, attempts: nat, lastError: Option<string>,
    token: Option<Id>, startedAt: Option<Time>, createdAt: Time, updatedAt: Time)

  datatype OutboxStatus = OutPending | OutPublishing | OutPublished | OutFailed

  // The JSON body carried by an outbox row and by a queue message.
  datatype Body = Body(version: int, eventType: string, job: Id, correlation: Option<string>)

  datatype OutboxRow = OutboxRow(
    eventType: string, version: int, payload: Body, status: OutboxStatus, attempts: nat,
    lockedAt: Option<Time>, claimToken: Option<Id>, publishedAt: Option<Time>,
    lastError: Option<string>, createdAt: Time, updatedAt: Time)

  // An object key names a job and one report; its text form is Wire.KeyText.
  datatype Key = Key(job: Id, report: Id)

  datatype Report = Report(key: Key, rows: nat)

  datatype Meta = Meta(job: Id, key: Key, objectType: string, owner: string)

  datatype AuditDetails = AuditCreated(jobType: string) | AuditCompleted(report: Report)

  datatype Audit = Audit(job: Id, details: AuditDetails)

  datatype Db = Db(
    jobs: map<Id, Job>, outbox: map<Id, OutboxRow>, results: map<Id, Report>,
    metadata: set<Meta>, audit: multiset<Audit>)

  const EMPTY_DB := Db(map[], map[], map[], {}, multiset{})

  // What `mark_job_processing` returns for a row it claimed.
  datatype ClaimedJob = ClaimedJob(job: Id, jobType: string, attempt: nat, token: Id)

  // What `get_job` returns.
  datatype JobView = JobView(id: Id, row: Job, result: Option<Report>, object: Option<(Key, string)>)

  function Truncate(error: string): string {
    if |error| <= 1000 then error else error[..1000]
  }

  predicate SupportedSchema(eventType: string, version: int) {
    eventType == "job.created" && version == 1
  }

  /* ---- create_job ---- */

  function NewBody(j: Id, correlation: Option<string>): Body {
    // An empty correlation id is falsy and is not stored.
    Body(1, "job.created", j, if correlation == Some("") then None else correlation)
  }

  function CreateJob(db: Db, j: Id, e: Id, jobType: string, payload: string, correlation: Option<string>, now: Time): Db {
    db.(jobs := db.jobs[j := Job(jobType, payload, Pending, 0, None, None, None, now, now)],
        outbox := db.outbox[e := OutboxRow("job.created", 1, NewBody(j, correlation), OutPending, 0,
                                           None, None, None, None, now, now)],
        audit := db.audit + multiset{Audit(j, AuditCreated(jobType))})
  }

  /* ---- outbox ---- */

  predicate RowClaimable(row: OutboxRow, now: Time, lease: int) {
    || row.status.OutPending?
    || row.status.OutFailed?
    || (row.status.OutPublishing? && row.lockedAt.Some? && row.lockedAt.value < now - lease)
  }

  function ClaimableRows(db: Db, now: Time, lease: int): set<Id> {
    set e | e in db.outbox && RowClaimable(db.outbox[e], now, lease)
  }

  /** What ORDER BY created_at LIMIT n FOR UPDATE SKIP LOCKED may select. */
  predicate IsBatch(db: Db, batch: set<Id>, skipped: set<Id>, limit: nat, now: Time, lease: int) {
    var free := ClaimableRows(db, now, lease) - skipped;
    && batch <= free
    && |batch| == Min(limit, |free|)
    && forall b, r :: b in batch && r in free && r !in batch ==> db.outbox[b].createdAt <= db.outbox[r].createdAt
  }

  lemma BatchIsClaimable(db: Db, batch: set<Id>, skipped: set<Id>, limit: nat, now: Time, lease: int)
    requires IsBatch(db, batch, skipped, limit, now, lease)
    ensures |batch| <= limit
    ensures forall e :: e in batch ==> e in db.outbox && RowClaimable(db.outbox[e], now, lease) && e !in skipped
  {
  }

  function ClaimRow(row: OutboxRow, token: Id, now: Time): OutboxRow {
    row.(status := OutPublishing, attempts := row.attempts + 1, lockedAt := Some(now), claimToken := Some(token),
         updatedAt := now)
  }

  function ClaimEvents(db: Db, batch: set<Id>, token: Id, now: Time): Db {
    db.(outbox := map e | e in db.outbox :: if e in batch then ClaimRow(db.outbox[e], token, now) else db.outbox[e])
  }

  predicate HoldsRow(db: Db, e: Id, token: Id) {
    e in db.outbox && db.outbox[e].status.OutPublishing? && db.outbox[e].claimToken == Some(token)
  }

  function MarkPublished(db: Db, e: Id, token: Id, now: Time): Db {
    if HoldsRow(db, e, token) then
      db.(outbox := db.outbox[e := db.outbox[e].(status := OutPublished, publishedAt := Some(now), updatedAt := now,
                                                 lastError := None, lockedAt := None, claimToken := None)])
    else db
  }

  function MarkFailed(db: Db, e: Id, token: Id, error: string, now: Time): Db {
    if HoldsRow(db, e, token) then
      db.(outbox := db.outbox[e := db.outbox[e].(status := OutFailed, updatedAt := now,
                                                 lastError := Some(Truncate(error)), lockedAt := None, claimToken := None)])
    else db
  }

  /* ---- jobs ---- */

  predicate JobClaimable(job: Job, now: Time, lease: int) {
    || job.status.Pending?
    || job.status.Failed?
    || (job.status.Processing? && job.startedAt.Some? && job.startedAt.value < now - lease)
  }

  predicate CanClaim(db: Db, j: Id, now: Time, lease: int) {
    j in db.jobs && JobClaimable(db.jobs[j], now, lease)
  }

  function MarkProcessing(db: Db, j: Id, token: Id, now: Time, lease: int): Db {
    if CanClaim(db, j, now, lease) then
      db.(jobs := db.jobs[j := db.jobs[j].(status := Processing, attempts := db.jobs[j].attempts + 1,
                                           token := Some(token), startedAt := Some(now), updatedAt := now)])
    else db
  }

  predicate HoldsJob(db: Db, j: Id, token: Id) {
    j in db.jobs && db.jobs[j].status.Processing? && db.jobs[j].token == Some(token)
  }

  function RenewLease(db: Db, j: Id, token: Id, now: Time): Db {
    if HoldsJob(db, j, token) then
      db.(jobs := db.jobs[j := db.jobs[j].(startedAt := Some(now), updatedAt := now)])
    else db
  }

  function CompleteJob(db: Db, j: Id, token: Id, report: Report, key: Key, objectType: string, now: Time): Db {
    if HoldsJob(db, j, token) then
      var conflict := exists m :: m in db.metadata && m.job == j && m.key == key;
      db.(jobs := db.jobs[j := db.jobs[j].(status := Completed, lastError := None, token := None, startedAt := None,
                                           updatedAt := now)],
          results := db.results[j := report],
          metadata := if conflict then db.metadata else db.metadata + {Meta(j, key, objectType, "job")},
          audit := db.audit + multiset{Audit(j, AuditCompleted(report))})
    else db
  }

  function FailJob(db: Db, j: Id, token: Id, error: string, now: Time): Db {
    if HoldsJob(db, j, token) then
      db.(jobs := db.jobs[j := db.jobs[j].(status := Failed, lastError := Some(Truncate(error)), token := None,
                                           startedAt := None, updatedAt := now)])
    else db
  }

  /* ---- get_job: two LEFT JOINs ---- */

  function ResultSide(db: Db, j: Id): set<Option<Report>> {
    if j in db.results then {Some(db.results[j])} else {None}
  }

  function ObjectSide(db: Db, j: Id): set<Option<(Key, string)>> {
    var rows := set m | m in db.metadata && m.job == j :: Some((m.key, m.objectType));
    if rows == {} then {None} else rows
  }

  function JoinedRows(db: Db, j: Id): set<JobView> {
    if j !in db.jobs then {}
    else set r, o | r in ResultSide(db, j) && o in ObjectSide(db, j) :: JobView(j, db.jobs[j], r, o)
  }

  /* ---- what every transaction keeps ---- */

  predicate JobRowOk(job: Job) {
    && (job.status.Processing? <==> job.token.Some?)
    && (job.status.Processing? <==> job.startedAt.Some?)
    && (job.status.Pending? <==> job.attempts == 0)
  }

  predicate OutboxRowOk(row: OutboxRow) {
    && (row.status.OutPublishing? <==> row.claimToken.Some?)
    && (row.status.OutPublishing? <==> row.lockedAt.Some?)
    && (row.status.OutPublished? <==> row.publishedAt.Some?)
    && (row.status.OutPending? <==> row.attempts == 0)
    && SupportedSchema(row.eventType, row.version)
    && SupportedSchema(row.payload.eventType, row.payload.version) && row.payload.correlation != Some("")
  }

  ghost predicate RowsOk(db: Db) {
    && (forall j :: j in db.jobs ==> JobRowOk(db.jobs[j]))
    && (forall e :: e in db.outbox ==> OutboxRowOk(db.outbox[e]))
  }

  predicate HasEvent(db: Db, j: Id) {
    exists e :: e in db.outbox && db.outbox[e].payload.job == j
  }

  /** Every job has exactly one outbox row and every outbox row names a job. */
  ghost predicate EventsMatchJobs(db: Db) {
    && (forall e :: e in db.outbox ==> db.outbox[e].payload.job in db.jobs)
    && (forall e, f :: e in db.outbox && f in db.outbox && db.outbox[e].payload.job == db.outbox[f].payload.job ==> e == f)
    && (forall j :: j in db.jobs ==> HasEvent(db, j))
  }

  function MetaFor(j: Id, report: Report): Meta {
    Meta(j, report.key, "text/csv", "job")
  }

  /** A job has a result row exactly when it is completed, and the key is one of that job's keys. */
  ghost predicate ResultsAgree(db: Db) {
    && (forall j :: j in db.results <==> j in db.jobs && db.jobs[j].status.Completed?)
    && (forall j :: j in db.results ==> db.results[j].key.job == j)
  }

  /** The metadata rows are exactly one per result, naming the result's key. */
  ghost predicate MetadataAgrees(results: map<Id, Report>, metadata: set<Meta>) {
    forall m :: m in metadata <==> m.job in results && m == MetaFor(m.job, results[m.job])
  }

  /** One completed audit row per result, carrying that result, and none otherwise. */
  ghost predicate CompletionsAudited(results: map<Id, Report>, audit: multiset<Audit>) {
    forall j, r :: audit[Audit(j, AuditCompleted(r))] == if j in results && results[j] == r then 1 else 0
  }

  /** One created audit row per job, carrying its type, and none otherwise. */
  ghost predicate CreationsAudited(jobs: map<Id, Job>, audit: multiset<Audit>) {
    forall j, t :: audit[Audit(j, AuditCreated(t))] == if j in jobs && jobs[j].jobType == t then 1 else 0
  }

  ghost predicate Consistent(db: Db) {
    && RowsOk(db)
    && EventsMatchJobs(db)
    && ResultsAgree(db)
    && MetadataAgrees(db.results, db.metadata)
    && CompletionsAudited(db.results, db.audit)
    && CreationsAudited(db.jobs, db.audit)
  }

  lemma EmptyConsistent()
    ensures Consistent(EMPTY_DB)
  {
  }

  lemma CreatePairs(db: Db, j: Id, e: Id, after: Db, row: Job, event: OutboxRow)
    requires EventsMatchJobs(db) && j !in db.jobs && e !in db.outbox
    requires after.jobs == db.jobs[j := row] && after.outbox == db.outbox[e := event] && event.payload.job == j
    ensures EventsMatchJobs(after)
  {
    forall k | k in after.jobs ensures HasEvent(after, k) {
      if k == j {
        assert after.outbox[e].payload.job == j;
      } else {
        assert HasEvent(db, k);
        var f :| f in db.outbox && db.outbox[f].payload.job == k;
        assert f in after.outbox && after.outbox[f].payload.job == k;
      }
    }
  }

  lemma CreationAudited(jobs: map<Id, Job>, audit: multiset<Audit>, j: Id, row: Job)
    requires CreationsAudited(jobs, audit) && j !in jobs
    ensures CreationsAudited(jobs[j := row], audit + multiset{Audit(j, AuditCreated(row.jobType))})
  {
  }

  lemma CreationLeavesCompletions(results: map<Id, Report>, audit: multiset<Audit>, j: Id, jobType: string)
    requires CompletionsAudited(results, audit)
    ensures CompletionsAudited(results, audit + multiset{Audit(j, AuditCreated(jobType))})
  {
  }

  lemma CompletionAudited(results: map<Id, Report>, audit: multiset<Audit>, j: Id, report: Report)
    requires CompletionsAudited(results, audit) && j !in results
    ensures CompletionsAudited(results[j := report], audit + multiset{Audit(j, AuditCompleted(report))})
  {
  }

  lemma CompletionLeavesCreations(jobs: map<Id, Job>, audit: multiset<Audit>, j: Id, row: Job, report: Report)
    requires CreationsAudited(jobs, audit) && j in jobs && row.jobType == jobs[j].jobType
    ensures CreationsAudited(jobs[j := row], audit + multiset{Audit(j, AuditCompleted(report))})
  {
  }

  lemma CreateKeeps(db: Db, j: Id, e: Id, jobType: string, payload: string, correlation: Option<string>, now: Time)
    requires Consistent(db) && j !in db.jobs && e !in db.outbox
    ensures Consistent(CreateJob(db, j, e, jobType, payload, correlation, now))
  {
    hide EventsMatchJobs, MetadataAgrees, CompletionsAudited, CreationsAudited;
    var after := CreateJob(db, j, e, jobType, payload, correlation, now);
    assert EventsMatchJobs(after) by { CreatePairs(db, j, e, after, after.jobs[j], after.outbox[e]); }
    assert CreationsAudited(after.jobs, after.audit) by { CreationAudited(db.jobs, db.audit, j, after.jobs[j]); }
    assert CompletionsAudited(after.results, after.audit) by { CreationLeavesCompletions(db.results, db.audit, j, jobType); }
    assert ResultsAgree(after) by { assert j !in db.results; }
  }

  /** A change that keeps every payload keeps the pairing of rows and jobs. */
  lemma PairingKept(db: Db, after: Db)
    requires EventsMatchJobs(db)
    requires after.jobs.Keys == db.jobs.Keys && after.outbox.Keys == db.outbox.Keys
    requires forall e :: e in db.outbox ==> after.outbox[e].payload == db.outbox[e].payload
    ensures EventsMatchJobs(after)
  {
    forall j | j in after.jobs ensures HasEvent(after, j) {
      assert HasEvent(db, j);
      var e :| e in db.outbox && db.outbox[e].payload.job == j;
      assert e in after.outbox && after.outbox[e].payload.job == j;
    }
  }

  lemma OutboxKeeps(db: Db, after: Db)
    requires Consistent(db)
    requires after == db.(outbox := after.outbox) && after.outbox.Keys == db.outbox.Keys
    requires forall e :: e in db.outbox ==> after.outbox[e].payload == db.outbox[e].payload && OutboxRowOk(after.outbox[e])
    ensures Consistent(after)
  {
    hide EventsMatchJobs, MetadataAgrees, CompletionsAudited, CreationsAudited;
    PairingKept(db, after);
  }

  lemma ClaimEventsKeeps(db: Db, batch: set<Id>, token: Id, now: Time)
    requires Consistent(db)
    requires forall e :: e in batch ==> e in db.outbox && !db.outbox[e].status.OutPublished?
    ensures Consistent(ClaimEvents(db, batch, token, now))
  {
    hide EventsMatchJobs, MetadataAgrees, CompletionsAudited, CreationsAudited;
    OutboxKeeps(db, ClaimEvents(db, batch, token, now));
  }

  lemma MarkPublishedKeeps(db: Db, e: Id, token: Id, now: Time)
    requires Consistent(db)
    ensures Consistent(MarkPublished(db, e, token, now))
  {
    hide EventsMatchJobs, MetadataAgrees, CompletionsAudited, CreationsAudited;
    OutboxKeeps(db, MarkPublished(db, e, token, now));
  }

  lemma MarkFailedKeeps(db: Db, e: Id, token: Id, error: string, now: Time)
    requires Consistent(db)
    ensures Consistent(MarkFailed(db, e, token, error, now))
  {
    hide EventsMatchJobs, MetadataAgrees, CompletionsAudited, CreationsAudited;
    OutboxKeeps(db, MarkFailed(db, e, token, error, now));
  }

  lemma SameTypeAudited(jobs: map<Id, Job>, audit: multiset<Audit>, j: Id, row: Job)
    requires CreationsAudited(jobs, audit) && j in jobs && row.jobType == jobs[j].jobType
    ensures CreationsAudited(jobs[j := row], audit)
  {
  }

  /** Changing one uncompleted job row to another uncompleted one. */
  lemma JobKeeps(db: Db, j: Id, row: Job)
    requires Consistent(db) && j in db.jobs && !db.jobs[j].status.Completed?
    requires JobRowOk(row) && !row.status.Completed? && row.jobType == db.jobs[j].jobType
    ensures Consistent(db.(jobs := db.jobs[j := row]))
  {
    hide EventsMatchJobs, MetadataAgrees, CompletionsAudited, CreationsAudited;
    var after := db.(jobs := db.jobs[j := row]);
    assert EventsMatchJobs(after) by { PairingKept(db, after); }
    assert CreationsAudited(after.jobs, after.audit) by { SameTypeAudited(db.jobs, db.audit, j, row); }
  }

  lemma MarkProcessingKeeps(db: Db, j: Id, token: Id, now: Time, lease: int)
    requires Consistent(db)
    ensures Consistent(MarkProcessing(db, j, token, now, lease))
  {
    if CanClaim(db, j, now, lease) {
      JobKeeps(db, j, MarkProcessing(db, j, token, now, lease).jobs[j]);
    }
  }

  lemma RenewKeeps(db: Db, j: Id, token: Id, now: Time)
    requires Consistent(db)
    ensures Consistent(RenewLease(db, j, token, now))
  {
    if HoldsJob(db, j, token) {
      JobKeeps(db, j, RenewLease(db, j, token, now).jobs[j]);
    }
  }

  lemma FailKeeps(db: Db, j: Id, token: Id, error: string, now: Time)
    requires Consistent(db)
    ensures Consistent(FailJob(db, j, token, error, now))
  {
    if HoldsJob(db, j, token) {
      JobKeeps(db, j, FailJob(db, j, token, error, now).jobs[j]);
    }
  }

  /** Neither ON CONFLICT clause of the completing transaction ever fires. */
  lemma NoConflictFires(db: Db, j: Id, token: Id, key: Key)
    requires Consistent(db) && HoldsJob(db, j, token)
    ensures j !in db.results
    ensures !exists m :: m in db.metadata && m.job == j && m.key == key
  {
  }

  lemma MetadataAdded(results: map<Id, Report>, metadata: set<Meta>, j: Id, report: Report)
    requires MetadataAgrees(results, metadata) && j !in results
    ensures MetadataAgrees(results[j := report], metadata + {MetaFor(j, report)})
  {
  }

  lemma CompleteKeeps(db: Db, j: Id, token: Id, report: Report, now: Time)
    requires Consistent(db) && report.key.job == j
    ensures Consistent(CompleteJob(db, j, token, report, report.key, "text/csv", now))
  {
    hide EventsMatchJobs, MetadataAgrees, CompletionsAudited, CreationsAudited;
    if HoldsJob(db, j, token) {
      var after := CompleteJob(db, j, token, report, report.key, "text/csv", now);
      assert j !in db.results && after.metadata == db.metadata + {MetaFor(j, report)} by {
        NoConflictFires(db, j, token, report.key);
      }
      assert EventsMatchJobs(after) by { PairingKept(db, after); }
      assert MetadataAgrees(after.results, after.metadata) by { MetadataAdded(db.results, db.metadata, j, report); }
      assert CompletionsAudited(after.results, after.audit) by { CompletionAudited(db.results, db.audit, j, report); }
      assert CreationsAudited(after.jobs, after.audit) by {
        CompletionLeavesCreations(db.jobs, db.audit, j, after.jobs[j], report);
      }
    }
  }

  lemma ObjectSideOne(results: map<Id, Report>, db: Db, j: Id)
    requires MetadataAgrees(results, db.metadata)
    ensures ObjectSide(db, j) == if j in results then {Some((results[j].key, "text/csv"))} else {None}
  {
    var rows := set m | m in db.metadata && m.job == j :: Some((m.key, m.objectType));
    if j in results {
      assert MetaFor(j, results[j]) in db.metadata;
      assert Some((results[j].key, "text/csv")) in rows;
      assert rows == {Some((results[j].key, "text/csv"))};
    } else {
      assert rows == {};
    }
  }

  /** `get_job` finds one row for a job that exists, and none otherwise. */
  lemma JoinIsOneRow(db: Db, j: Id)
    requires Consistent(db)
    ensures j !in db.jobs ==> JoinedRows(db, j) == {}
    ensures j in db.jobs && j !in db.results ==> JoinedRows(db, j) == {JobView(j, db.jobs[j], None, None)}
    ensures j in db.jobs && j in db.results ==>
              JoinedRows(db, j) == {JobView(j, db.jobs[j], Some(db.results[j]), Some((db.results[j].key, "text/csv")))}
  {
    ObjectSideOne(db.results, db, j);
  }
}
