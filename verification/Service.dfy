/** `ApplicationService.create_job`: create, retry once on TypeError, publish. */
module Service {
  import opened Basics
  import opened Tables
  import opened Repositories

  /**
   What goes wrong in one call of `create_job`. A repository whose `create_job` takes no correlation id rejects the call with
   one. The transaction's body makes three inserts; an exception in it, a TypeError among them, rolls the transaction back.
   A failing commit is never a TypeError, and may or may not have taken effect.
   */
  datatype Fault = Fine | Rejected | BodyRaises(inserts: nat, typeError: bool) | CommitRaises(applied: bool)

  datatype Reply = Created(job: Id) | TypeError | OtherError

  predicate Commits(fault: Fault) {
    fault.Fine? || (fault.CommitRaises? && fault.applied)
  }

  predicate Retries(fault: Fault) {
    fault.Rejected? || (fault.BodyRaises? && fault.typeError)
  }

  // The publisher the API was given: nothing in cloud mode, a list in local mode.
  datatype Publisher = Noop | Local(published: seq<(Id, Option<string>)>)

  function Published(publisher: Publisher, j: Id, correlation: Option<string>): Publisher {
    match publisher
    case Noop => Noop
    case Local(published) => Local(published + [(j, correlation)])
  }

  class ApplicationService {
    const repo: Repository
    var publisher: Publisher

    constructor (repo: Repository, publisher: Publisher)
      ensures this.repo == repo && this.publisher == publisher
    {
      this.repo := repo;
      this.publisher := publisher;
    }

    /** The inserts made so far are undone. */
    method Rollback(jobs: map<Id, Job>, outbox: map<Id, OutboxRow>, audit: multiset<Audit>)
      modifies repo`jobs, repo`outbox, repo`audit
      ensures repo.jobs == jobs && repo.outbox == outbox && repo.audit == audit
    {
      repo.jobs, repo.outbox, repo.audit := jobs, outbox, audit;
    }

    /** `repository.create_job`, insert by insert. */
    method TryCreate(jobType: string, payload: string, correlation: Option<string>, now: Time, fault: Fault)
      returns (reply: Reply, j: Id, e: Id)
      requires repo.Valid()
      modifies repo
      ensures repo.Valid() && j !in old(repo.jobs) && e !in old(repo.outbox)
      ensures repo.Value() == if Commits(fault) then Tables.CreateJob(old(repo.Value()), j, e, jobType, payload, correlation, now)
                              else old(repo.Value())
      ensures reply == if fault.Fine? then Created(j) else if Retries(fault) then TypeError else OtherError
    {
      hide Consistent;
      j := Unused(repo.jobs.Keys);
      e := Unused(repo.outbox.Keys + {j});
      CreateKeeps(repo.Value(), j, e, jobType, payload, correlation, now);
      var jobs, outbox, audit := repo.jobs, repo.outbox, repo.audit;
      reply := if Retries(fault) then TypeError else OtherError;
      if fault.Rejected? || (fault.BodyRaises? && fault.inserts == 0) {
        return;
      }
      repo.jobs := repo.jobs[j := Job(jobType, payload, Pending, 0, None, None, None, now, now)];
      if fault.BodyRaises? && fault.inserts == 1 {
        Rollback(jobs, outbox, audit);
        return;
      }
      var body := Body(1, "job.created", j, None);
      if correlation.Some? && correlation.value != "" {
        body := body.(correlation := correlation);
      }
      repo.outbox := repo.outbox[e := OutboxRow("job.created", 1, body, OutPending, 0, None, None, None, None, now, now)];
      if fault.BodyRaises? && fault.inserts == 2 {
        Rollback(jobs, outbox, audit);
        return;
      }
      repo.audit := repo.audit + multiset{Audit(j, AuditCreated(jobType))};
      if fault.BodyRaises? || (fault.CommitRaises? && !fault.applied) {
        Rollback(jobs, outbox, audit);
      } else if fault.Fine? {
        reply := Created(j);
      }
    }

    /**
     However either attempt ends, at most one job comes of the call. The publisher is given the correlation id even when the
     job came of the retry, whose row has none. `publishRaises` is an exception from the publisher.
     */
    method CreateJob(jobType: string, payload: string, correlation: Option<string>, now: Time, later: Time, first: Fault,
                     second: Fault, publishRaises: bool) returns (reply: Option<Id>, j: Id, e: Id)
      requires repo.Valid()
      modifies this`publisher, repo
      ensures repo.Valid()
      ensures repo.Value() == Aftermath(old(repo.Value()), j, e, jobType, payload, correlation, now, later, first, second)
      ensures j !in old(repo.jobs) && e !in old(repo.outbox)
      ensures reply == if Answers(first, second) && !publishRaises then Some(j) else None
      ensures publisher == if reply.Some? then Published(old(publisher), j, correlation) else old(publisher)
    {
      hide Consistent, Tables.CreateJob;
      reply := None;
      var created;
      created, j, e := TryCreate(jobType, payload, correlation, now, first);
      if created.TypeError? {
        created, j, e := TryCreate(jobType, payload, None, later, second);
      }
      if created.Created? && !publishRaises {
        publisher := Published(publisher, created.job, correlation);
        reply := Some(created.job);
      }
    }
  }

  predicate Answers(first: Fault, second: Fault) {
    first.Fine? || (Retries(first) && second.Fine?)
  }

  function Aftermath(db: Db, j: Id, e: Id, jobType: string, payload: string, correlation: Option<string>, now: Time, later: Time,
                   first: Fault, second: Fault): Db
  {
    if Commits(first) then CreateJob(db, j, e, jobType, payload, correlation, now)
    else if Retries(first) && Commits(second) then CreateJob(db, j, e, jobType, payload, None, later)
    else db
  }

  function NewJobs(before: Db, after: Db): set<Id> {
    set j | j in after.jobs && j !in before.jobs
  }

  /**
   A job is created exactly when one of the two attempts committed, and never two. Its row has the correlation id exactly
   when there was one and the first attempt made it.
   */
  lemma AtMostOneJob(db: Db, j: Id, e: Id, jobType: string, payload: string, correlation: Option<string>, now: Time, later: Time,
                     first: Fault, second: Fault)
    requires j !in db.jobs && e !in db.outbox
    ensures var after := Aftermath(db, j, e, jobType, payload, correlation, now, later, first, second);
            && NewJobs(db, after) == (if Commits(first) || (Retries(first) && Commits(second)) then {j} else {})
            && (Answers(first, second) ==> NewJobs(db, after) == {j})
            && (NewJobs(db, after) == {} ==> after == db)
            && (NewJobs(db, after) == {j} ==>
                  && after.jobs[j].jobType == jobType && after.jobs[j].payload == payload && after.jobs[j].status == Pending
                  && e in after.outbox && after.outbox[e].payload.job == j
                  && after.outbox[e].payload.correlation ==
                     if Commits(first) && correlation != Some("") then correlation else None)
  {
    var after := Aftermath(db, j, e, jobType, payload, correlation, now, later, first, second);
    if Commits(first) || (Retries(first) && Commits(second)) {
      assert NewJobs(db, after) == {j};
    }
  }

  /* ---- when the retry matters ---- */

  // What decides a TypeError: whether the repository's `create_job` takes a correlation id, and whether the payload
  // serialises. The job type and the correlation id are text, which always does.
  datatype Setting = Setting(takesCorrelation: bool, payloadSerialises: bool)

  predicate Arises(setting: Setting, fault: Fault, withCorrelation: bool) {
    && (fault.Rejected? <==> withCorrelation && !setting.takesCorrelation)
    && (fault.BodyRaises? && fault.typeError ==> !setting.payloadSerialises)
    && (Commits(fault) ==> setting.payloadSerialises)
  }

  /**
   So a job loses a correlation id it was given if and only if the repository does not take one. `Repository` does: with it a
   TypeError of the first attempt is one of the payload's, the retry cannot commit either, and no job is created.
   */
  lemma CorrelationLostIff(setting: Setting, db: Db, j: Id, e: Id, jobType: string, payload: string, correlation: string, now: Time,
                           later: Time, first: Fault, second: Fault)
    requires j !in db.jobs && e !in db.outbox && correlation != ""
    requires Arises(setting, first, true) && Arises(setting, second, false)
    ensures var after := Aftermath(db, j, e, jobType, payload, Some(correlation), now, later, first, second);
            && (NewJobs(db, after) == {j} ==>
                  && e in after.outbox
                  && (after.outbox[e].payload.correlation != Some(correlation) <==> !setting.takesCorrelation))
            && (setting.takesCorrelation && Retries(first) ==> after == db)
  {
    AtMostOneJob(db, j, e, jobType, payload, Some(correlation), now, later, first, second);
  }
}
