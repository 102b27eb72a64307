# Verification of the asynchronous job pipeline

The platform promises exactly-once effects over at-least-once delivery. An API call writes a job and an outbox row in one
transaction. Worker processes dispatch outbox rows to a queue, receive messages, claim jobs under a fencing token and a
lease, store a report, record it, and only then delete the message. Any number of processes do this at once. They crash,
lose replies, see messages twice, and read clocks of their own.

This project models that system and proves what it keeps over every run.

## How the model is built

- `Tables.dfy` holds the tables as one value, `Db`, and each repository transaction as a function on it, with the guards of
  the SQL. `Consistent` says what the tables promise together. `Repository.dfy` is the class itself: its methods update the
  tables in place, say column by column what they write and when, and are proved equal to those functions.
- `Pipeline.dfy` is the step system. A state holds the tables, the queue with its dead-letter queue, the stored reports,
  the program counter of every worker thread and heartbeat thread, and a log kept only to state properties. There are 22
  kinds of step. A call inside a `try` has three outcomes: done, done with the reply lost, not done. A call outside every
  `try` that raises ends its process, which is a crash. A clock reading is part of each step and is arbitrary, so every
  theorem that does not name a time holds whatever the clocks say.
- `Frames.dfy` says what each kind of step does and which tables it can touch. `Invariant.dfy` and `Preservation.dfy` hold
  the inductive invariant and its proof, step by step.
- `Outcomes.dfy` says what the steps bring about, by the columns and the messages.
- `Safety.dfy`, `Counting.dfy`, `Recovery.dfy`, `Abandonment.dfy`, `Leases.dfy`, `Heartbeats.dfy`, `Redelivery.dfy`,
  `Stranding.dfy` and `Witnesses.dfy` hold the theorems about runs.
- `Agents.dfy` and `Runtime.dfy` hold the worker program: imperative methods with the control flow of the source, run
  against the repository class, the queue and the store. Before each call the others may take any number of steps
  (`Interfere`; its contract says only that none of them is a step of the caller, and callers rely on nothing else), and
  between any two calls the process may end (`Survive`). How a call ends is a parameter of the method that makes
  it; in a world made `steady` no call raises and nothing ends the process. Each call appends one step to a ghost run, and
  the class invariant says that the world is where its run leads. So the program refines the step system, and the theorems
  about runs hold of it.
- `Outbox.dfy`, `Service.dfy`, `Migrations.dfy`, `Csv.dfy`, `Stores.dfy`, `Json.dfy`, `Wire.dfy` and `Numerals.dfy` cover
  batch selection and draining, the API service, the migration runner, and the texts that leave the process.

Proofs use `hide` at the top of a body to keep definitions that the proof does not need out of sight.

## What was found

- **One crash can strand a job.** infrastructure/README.md:854 and :1064 promise that after a crash another worker
  reclaims the job and that redelivery preserves correctness. `Stranding.StrandedIff` gives the exact condition for losing
  it. Take a held job whose holder is dead and whose only carrier is one message. Some orderly run within the lease leaves
  the job impossible to complete, whatever follows, if and only if the receives so far plus
  floor((lease + lag) / visibility) reach the queue's limit; and then a run with no further failure does it. With the
  deployed values (lease 120, visibility timeout 60, 3 receives: infrastructure/environments/development/queue.tf:7-8) the
  first receive and two redeliveries meet the limit. `Stranding.CrashCanStrandJob` gives the run, for every lag from 0 to
  59 between the receive and the claim: the crash of the worker at work on the job is its only failure.
- **A heartbeat can end while its worker goes on.** infrastructure/README.md:863 says that heartbeat failures are
  logged. The renewal stands outside the `try` (application/worker/main.py:77-79), so an exception in it ends the thread,
  without a log line of that loop.
  `Heartbeats.EndsHoldingIff` says exactly when a heartbeat ends while its token holds the job, and
  `Witnesses.HeartbeatCanVanish` gives a run in which it does, with the worker still at work and no stop requested.
- **`dispatch_outbox` can under-report.** A mark whose reply is lost has published its row and is not counted.
  `Runtime.World.DispatchOutbox` states the exact difference: the count is right if and only if no lost-reply mark took
  effect. `Witnesses.CanUnderReport` gives a call that moves one row and counts none.

Three facts that are no defects but are easily misread:

- The service's retry on TypeError (application/api/service.py:15-18) makes a job whose outbox row has no correlation id.
  With this `Repository` it never does: a TypeError of the first attempt is then one of the payload's, and the retry meets
  it too. The retry serves a repository whose `create_job` takes no correlation id, such as the one in
  tests/test_stage1_api.py:36 (`Service.CorrelationLostIff`).
- As a fact about the text format, a correlation id with a surrogate pair written as two code points would come back as one
  character, and every other text survives (`Wire.CorrelationSurvives`). The publisher is only given ids read back from a
  JSONB column, which hold no such pair.
- A worker that has lost its claim may still store a report after the job is completed. Nothing here claims otherwise: the
  report it stores is one of the orphans that `Counting.ArtifactAccounting` bounds.

## Model

| member | source | states |
|---|---|---|
| Repositories.Repository.CreateJob | application/shared/repository.py:66-103 | one pending job with the given type and payload, one pending outbox row naming it with its correlation id if that is not empty, and one created audit row, all stamped now; nothing else changes and consistency is kept |
| Repositories.Repository.ClaimOutboxEvents | application/shared/repository.py:105-136 | claims min(limit, free) of the rows that are pending, failed, or locked more than the lease ago and not locked by others, none newer than a free row left behind; each gets the token, a lock stamp and one more attempt, and is returned exactly once, in any order |
| Repositories.Repository.MarkOutboxPublished | application/shared/repository.py:138-155 | exactly when the row is publishing under that token it becomes published now, without lock, token or error; otherwise nothing changes |
| Repositories.Repository.MarkOutboxFailed | application/shared/repository.py:157-173 | exactly when the row is publishing under that token it becomes failed with the first 1000 characters of the error, without lock or token; otherwise nothing changes |
| Repositories.Repository.GetJob | application/shared/repository.py:175-190 | the two joins yield exactly the returned row, with the job's columns, its result and its object, or no row exactly when the job is missing |
| Repositories.Repository.MarkJobProcessing | application/shared/repository.py:192-217 | exactly a pending or failed job, or a processing one stamped more than the lease ago, becomes processing under the token, stamped now, one attempt further, and is returned; otherwise nothing changes |
| Repositories.Repository.RenewJobProcessingLease | application/shared/repository.py:219-232 | exactly when the job is processing under that token its stamp becomes now; otherwise nothing changes |
| Repositories.Repository.CompleteJobWithReport | application/shared/repository.py:234-284 | exactly when the job is processing under that token it becomes completed, without token, stamp or error, with its result, metadata and audit rows; otherwise nothing changes |
| Repositories.Repository.FailJob | application/shared/repository.py:286-302 | exactly when the job is processing under that token it becomes failed with the first 1000 characters of the error, without token or stamp; otherwise nothing changes |
| Tables.CreateKeeps | application/shared/repository.py:66-103 | creation keeps every relation between the tables |
| Tables.ClaimEventsKeeps | application/shared/repository.py:105-136 | claiming a batch of claimable rows keeps every relation between the tables |
| Tables.MarkPublishedKeeps | application/shared/repository.py:138-155 | publishing keeps every relation between the tables |
| Tables.MarkFailedKeeps | application/shared/repository.py:157-173 | failing a row keeps every relation between the tables |
| Tables.MarkProcessingKeeps | application/shared/repository.py:192-217 | a claim keeps every relation between the tables |
| Tables.RenewKeeps | application/shared/repository.py:219-232 | a renewal keeps every relation between the tables |
| Tables.CompleteKeeps | application/shared/repository.py:234-284 | a completion keeps result, metadata and audit rows in agreement |
| Tables.FailKeeps | application/shared/repository.py:286-302 | a failure keeps every relation between the tables |
| Tables.NoConflictFires | application/shared/repository.py:252-276 | where a token holds a job of consistent tables neither ON CONFLICT clause has a row to meet |
| Tables.JoinIsOneRow | application/shared/repository.py:175-190 | consistent tables join to exactly one row for each job |
| Outbox.BatchExists | application/shared/repository.py:105-136 | a selection of the required kind always exists, whatever rows are locked |
| Outbox.BatchesDisjoint | application/shared/repository.py:105-136 | a claim made right after another, within its lease, takes none of its rows |
| Outbox.CallTakes | application/worker/main.py:195-230 | a failure-free call removes exactly its batch, min(limit, n) rows, from the claimable ones |
| Outbox.DrainRate | application/worker/main.py:195-230 | after k failure-free calls, whatever each selected, n - min(k * limit, n) claimable rows are left |
| Outbox.DrainedExactly | application/worker/main.py:195-230 | the claimable rows are gone if and only if the number of calls needed has been made |
| Outbox.CallsNeededIsCeiling | application/worker/main.py:195-230 | the number of calls needed is ceil(n / limit) |
| Preservation.StepKeeps | application/worker/main.py:195-286 | every one of the 22 kinds of step keeps the invariant, and takes back nothing that was recorded |
| Preservation.DeletesCompleted | application/worker/main.py:256-275 | a delete is requested only for a message whose job is completed |
| Safety.RunKeeps | application/worker/main.py:195-286 | so does every run |
| Safety.StepRefines | application/worker/main.py:195-286 | each step opens one job, closes one open job with its result, or leaves all fates alone |
| Safety.ExactlyOnce | infrastructure/README.md:831-894 | in every run from empty tables a job is opened once if it exists, and completed exactly once if it ends completed and never otherwise |
| Safety.NoLostJob | application/worker/main.py:209-218 | an uncompleted job always has an unpublished row or an undeleted message, in the main queue or the dead-letter queue |
| Safety.CompletionStable | application/shared/repository.py:192-302 | nothing that happens later changes a completed job's row or its result |
| Safety.LostReplyHarmless | application/worker/main.py:262-286 | after a completion whose reply was lost, whatever happens between, the following fail_job changes nothing and the result stands |
| Safety.FailedDeleteHarmless | application/worker/main.py:274-286 | after a failed delete the following fail_job changes nothing |
| Safety.RedeliveryIsDeleted | application/worker/main.py:113-138 | a redelivery of a completed job is refused, found completed, and goes on to a delete, whatever happens between |
| Safety.HolderIsLatestClaimant | application/shared/repository.py:192-302 | a token holds a job if and only if the job is processing and the token is its most recent claim |
| Safety.OlderClaimantFenced | application/shared/repository.py:219-302 | once a newer claim exists, the older token can never again renew, complete or fail anything, in any continuation |
| Safety.LateHeartbeatStops | application/worker/main.py:75-91 | a heartbeat ends at a renewal if and only if it is not the latest claimant of a processing job, and then the renewal changed nothing |
| Safety.LateWorkerWritesNothing | application/worker/main.py:141-174 | a worker whose claim was overtaken or settled gets a lost claim and writes no row |
| Safety.ResultAgreement | application/shared/repository.py:234-284 | a job is completed if and only if it has a result; then exactly one metadata row and one completed audit row agree with it, else none exists; the joins give one row |
| Safety.NoConflictInAnyRun | application/shared/repository.py:252-276 | at every committed completion of every run no result or metadata row existed, and exactly one of each does afterwards |
| Safety.ReferencesHold | application/shared/migrations/001_initial_schema.sql:8-65 | every job has exactly one outbox row and one created audit row; every row and message names an existing job with a supported schema |
| Safety.RejectionsUnreachable | application/worker/main.py:113-118 | no run meets a missing job, an unsupported row or an unsupported message |
| Outcomes.ClaimWinsIff | application/shared/repository.py:192-217 | in every reachable state a claim wins if and only if the job is pending or failed, or its last stamp is more than the lease ago; the winner holds it, under a heartbeat of its own, and a loser changed nothing |
| Outcomes.FailureFrees | application/shared/repository.py:286-302 | a failure by the holder frees the job with the first 1000 characters of the error and touches nothing else |
| Outcomes.FailedIsClaimedAtOnce | application/shared/repository.py:205-212 | the next claim of a job failed by its holder wins, whenever it comes |
| Outcomes.BatchTakesIff | application/shared/repository.py:105-136 | in every reachable state a batch with room left holds exactly the rows, not locked by others, that are pending, failed, or locked more than the outbox lease ago; each is claimed one attempt further |
| Outcomes.FailureFreesRow | application/shared/repository.py:157-173 | a failure by the holder frees the row for any later batch and touches nothing else |
| Outcomes.CreatedIsKept | application/shared/repository.py:66-103 | whatever happens after its creation, get_job finds one row for the job with the type, payload and creation time it was given |
| Outcomes.MessagesCarryTheRow | application/worker/main.py:209-216 | every message ever sent carries exactly the body its outbox row was created with |
| Outcomes.CorrelationIsCarried | application/shared/adapters.py:53-64 | every message of a job carries the correlation id the job was created with, and none if that was empty |
| Outcomes.ReceiveHides | application/shared/adapters.py:75-88 | a receive counts once, hides the message for the visibility timeout, and touches no other |
| Outcomes.AckedDeleteRemoves | application/shared/adapters.py:90-93 | an acknowledged delete under the latest receipt takes the message out of the main queue |
| Outcomes.RedriveMoves | infrastructure/modules/sqs/main.tf:29-32 | a message out of receives goes to the dead-letter queue |
| Outcomes.NeverReceivedAgain | application/worker/main.py:255-275 | a message that has left the main queue is never received again in any run |
| Counting.ArtifactAccounting | application/worker/main.py:141-174 | reports per job never exceed attempts; a completed job's recorded key is a stored report of its last attempt, with 3 rows recorded, and at most attempts - 1 others exist |
| Counting.RecordedByWinner | application/worker/main.py:141-174 | the recorded report carries the token of the claim that won |
| Counting.RetryBound | application/shared/repository.py:192-217 | attempts = tokens issued <= receives of the job's messages <= limit * sends <= limit * outbox attempts |
| Counting.OutboxFencing | application/shared/repository.py:105-173 | a row is publishing exactly when it has a claim token, and exactly when it has a lock time; a published row was sent; sends never exceed its attempts |
| Counting.SendsWithinAttempts | application/worker/main.py:195-230 | each claim of a row allows at most one send |
| Counting.PublishedIsTerminal | application/shared/repository.py:138-155 | a published row is never changed again |
| Recovery.Round | application/worker/main.py:195-230 | a failure-free dispatch publishes exactly the rows it selected and leaves a fresh message for each of their jobs |
| Recovery.CarriedCompletesAt | application/worker/main.py:195-286 | at every instant more than the lease after the job's stamp, more than the outbox lease after every lock, and with every message visible, a carried job has a failure-free continuation of that instant that completes it |
| Recovery.CarriedCompletes | application/worker/main.py:195-286 | from every reachable state, and any later time, a carried job has a failure-free continuation that completes it |
| Abandonment.AbandonedForever | application/worker/main.py:195-286 | a job that nothing carries stays so in every continuation |
| Abandonment.RecoverableIffCarried | application/worker/main.py:195-286 | an uncompleted job can still be completed if and only if a row, a claimed row, a message below the limit, a delivery or its own claim carries it; then also without failures and with forward clocks |
| Leases.AcceptedIffSlack | application/shared/config.py:44-54 | settings are accepted if and only if they are positive and leave a heartbeat turn some positive delay before both the lease and the visibility timeout run out |
| Leases.ClaimsRaiseAttempts | application/shared/repository.py:192-217 | every successful claim in a run raises attempts |
| Leases.TimedExclusivity | application/worker/main.py:75-88 | while the gaps between a holder's stamps stay within the lease, it keeps the job and no claim of it succeeds |
| Leases.AcceptedKeepsHolder | application/shared/config.py:44-54 | under accepted settings a holder whose stamps come at most a heartbeat interval and the slack apart keeps the job, and no claim of it succeeds |
| Heartbeats.EndsHoldingIff | application/worker/main.py:71-91 | a heartbeat ends exactly by its process, its stop event or a raising renewal, or a refused renewal; it ends while its token holds the job if and only if it is one of the first three; with no stop requested the thread ending itself is a renewal that raised |
| Heartbeats.PacedInTime | application/worker/main.py:75-88 | a heartbeat whose wait and two calls keep to their budgets renews within one turn of each stamp |
| Heartbeats.HeartbeatKeepsHolder | application/worker/main.py:75-88 | under accepted settings a loop that waits its interval, and whose two calls together take no more than the slack, keeps the job for its holder, and no claim of it succeeds |
| Heartbeats.ExtensionHides | application/shared/adapters.py:95-100 | a successful extension hides the message for the visibility timeout from now, a failed one changes nothing |
| Heartbeats.ExtensionsHideMessage | application/worker/main.py:89-92 | while successful extensions come less than a visibility timeout apart, every receive of the message is a duplicate delivery |
| Heartbeats.HeartbeatHidesMessage | application/worker/main.py:75-104 | a heartbeat whose wait and two calls stay below the visibility timeout, and whose extensions work, keeps its message from being redelivered |
| Leases.BatchesStayDisjoint | application/shared/repository.py:105-136 | until its dispatcher marks it or the outbox lease runs out, a claimed row stays as claimed and is in no batch that anyone claims |
| Redelivery.ReceivesAreSpaced | infrastructure/modules/sqs/main.tf:20-32 | k receives that wait for the visibility timeout take at least (k - 1) timeouts |
| Redelivery.RedeliveryBound | application/shared/repository.py:205-212 | at most floor((lease + lag) / visibility) redeliveries come before the lease runs out |
| Redelivery.TurnedAwayRepeatedly | application/worker/main.py:256-260 | as many redeliveries as fit in the lease can all be received and turned away |
| Redelivery.ExhaustedIff | infrastructure/modules/sqs/main.tf:29-32 | one message of a dead holder can run out of receives within the lease if and only if receives + floor((lease + lag) / visibility) reach the limit |
| Redelivery.DeployedCrash | infrastructure/environments/development/queue.tf:7-8 | with the deployed values and lag below 60 at most 2 redeliveries are turned away, and after one receive that already exhausts the message |
| Stranding.StaysQueued | application/worker/main.py:256-275 | a message leaves the main queue only for want of receives or when its job is completed |
| Stranding.StrandedIff | infrastructure/modules/sqs/main.tf:29-32 | a dead holder's job with one message as its only carrier can be lost by an orderly run within the lease if and only if receives + floor((lease + lag) / visibility) reach the limit, and then also without any further failure |
| Stranding.CrashStrandsIff | infrastructure/modules/sqs/main.tf:29-32 | from empty tables, the crash of the worker at work on a job claimed `lag` after its receive can lose it if and only if 1 + floor((lease + lag) / visibility) reaches the limit |
| Stranding.CrashCanStrandJob | infrastructure/environments/development/queue.tf:7-8 | with the deployed values, for every lag below 60, there is a run from empty tables, whose only failure is the crash of the worker holding and working on the job, after which no continuation completes it |
| Witnesses.HeartbeatCanVanish | application/worker/main.py:77-79 | there is a run from empty tables in which one raising renewal ends the heartbeat of a worker that holds and works on its job |
| Witnesses.CanUnderReport | application/worker/main.py:217-222 | there is a dispatch call from empty tables that moves one row to published and hears of none |
| Agents.OthersLeave | application/worker/main.py:44-104 | steps of the others leave a worker where it is, and do no more to a heartbeat than stop it or end it with its process |
| Agents.OnlyMarksPublish | application/worker/main.py:217-219 | a step publishes a row if and only if it is a mark, by its dispatcher, that takes effect |
| Agents.ExactUnlessUnheard | application/worker/main.py:217-219 | the rows a worker moved are those it heard of and those it did not; counting the first is right if and only if no lost-reply mark took effect |
| Runtime.World.MarkJobProcessing | application/worker/main.py:113-116 | the claim as the worker makes it, among the others' steps |
| Runtime.World.GetStatus | application/worker/main.py:117-136 | the second transaction: the job is found, and found completed only if it is |
| Runtime.World.PutCsvReport | application/worker/main.py:150-157 | unless the call is not done, a report of exactly this claim, type and attempt is stored under the job's key; the key is returned if and only if the reply arrives |
| Runtime.World.CompleteJob | application/worker/main.py:158-161 | returned: the job is completed with this report of 3 rows; lost claim: the token does not hold it; raised if and only if no reply arrives |
| Runtime.World.LeaveHeartbeat | application/worker/main.py:71-73 | leaving the block stops the heartbeat and continues by how the block ended |
| Runtime.World.DeleteMessage | application/worker/main.py:257-275 | the request as it is made, for a completed job's message: acknowledged under the latest receipt it leaves the main queue; inside the `try` it may be seen to fail |
| Runtime.World.FailJob | application/worker/main.py:281-286 | the handler's fail_job |
| Runtime.World.ReceiveJob | application/worker/main.py:243-254 | the message offered is received, counted and hidden, unless it is not in the main queue, out of receives or not yet visible |
| Runtime.World.ClaimTheJob | application/worker/main.py:113-138 | an acquired claim, a completed duplicate, a job in progress elsewhere, or a process that ended before, between or after its calls |
| Runtime.World.CompleteClaimedJob | application/worker/main.py:141-174 | put, record, leave: how the block ended decides what comes next, and the process may end between any two of them |
| Runtime.World.ConsumeOneMessage | application/worker/main.py:233-286 | it is a run of the step system that begins by taking what is offered; it returns true if and only if its last act is an acknowledged delete, and then the received message's job is completed; in a steady world it returns, and is false only for a job in progress elsewhere or a lost claim |
| Runtime.World.ChangeVisibility | application/worker/main.py:89-104 | when it works the message is visible a visibility timeout from now; when it raises the thread goes on |
| Runtime.World.ClaimOutboxEvents | application/worker/main.py:202-204 | each row returned is claimed for this worker, once, with the payload in the table |
| Runtime.World.Publish | application/worker/main.py:209-216 | unless the call is not done, a new message with the row's job and correlation id is in the queue; an unsupported row is never sent |
| Runtime.World.MarkOutboxPublished | application/worker/main.py:217-219 | says exactly whether this mark moved the row |
| Runtime.World.MarkOutboxFailed | application/worker/main.py:220-222 | the handler's mark |
| Runtime.World.DispatchRows | application/worker/main.py:202-229 | every claimed row is handled once; the count is exactly the rows moved by marks whose reply arrived |
| Runtime.World.DispatchOutbox | application/worker/main.py:195-230 | the rows this call moved to published are exactly those it returns and those moved by lost-reply marks; it returns the number it moved if and only if no lost-reply mark took effect |
| Runtime.World.RunWorker | application/worker/main.py:315-336 | it is a run of the step system with exactly the given number of dispatches, each followed by a receive, ending at the loop's top unless the process ends, which a steady world rules out |
| Runtime.World.RunHeartbeat | application/worker/main.py:75-104 | every full turn renews once and extends once; it ends for lost ownership only when the token no longer holds the job, in mid-turn when a renewal raises before or after it took effect, and never for a failed extension |
| Service.ApplicationService.TryCreate | application/shared/repository.py:66-103 | insert by insert with rollback: all three rows or none, and a TypeError leaves none |
| Service.ApplicationService.CreateJob | application/api/service.py:13-20 | the tables, the reply and the publisher's list after every combination of failures of both attempts |
| Service.AtMostOneJob | application/api/service.py:13-20 | a job, with the given type and payload, is created if and only if one of the attempts committed, never two; its row has the correlation id if and only if there was one and the first attempt made it |
| Service.CorrelationLostIff | application/api/service.py:13-20 | a job loses its correlation id if and only if the repository takes none; with one that does, a TypeError of the first attempt means that no job is created |
| Migrations.BeforeIs | application/migrations.py:33-34 | one name comes before another if and only if it is a proper prefix, or has the smaller code point where they first differ |
| Migrations.Sorted | application/migrations.py:33-34 | the names in ascending order, each once |
| Migrations.OneListing | application/migrations.py:33-34 | there is only one such list |
| Migrations.MigrationDatabase.RunMigrations | application/migrations.py:17-43 | exactly the files not yet recorded, in name order, are executed text by text and recorded, if none of them fails and the commit takes effect, and nothing otherwise; it returns if and only if besides the reply arrives |
| Migrations.RerunChangesNothing | application/migrations.py:26-35 | a second run over the same files changes nothing, and applied = old plus all files |
| Migrations.MigratedOnce | application/migrations.py:17-43 | the outcome of a run is determined |
| Migrations.SortedExactlyIfNewFilesSortLast | application/migrations.py:33-34 | one run keeps the history sorted if and only if each new file sorts after every applied one |
| Migrations.MoveKeepsLock | application/migrations.py:17-43 | under the advisory lock a run's private tables are always the committed ones with a prefix of its files applied |
| Migrations.RunsAreSerial | application/migrations.py:17-43 | however runs overlap, fail and crash, the tables are those of the committed runs made one after another |
| Migrations.AppliedOnce | application/migrations.py:33-41 | over such a history each file is applied at most once and every file of a committed run is applied |
| Migrations.SortedHistory | application/migrations.py:33-41 | the history is the sorted list of all files if and only if new files have always sorted last |
| Migrations.MigrationsSafe | application/migrations.py:17-43 | all of this from an empty database |
| Numerals.DecimalReadsBack | application/worker/main.py:153 | the decimal text of a number reads back as it, with no leading zero |
| Numerals.DecimalInOrder | application/worker/main.py:153 | the units come last |
| Numerals.HexInOrder | application/shared/adapters.py:57 | lower-case digits, the units last |
| Csv.DictWriter.WriteRow | application/shared/adapters.py:117-120 | one write of one record and its line end |
| Csv.DictWriter.WriteReport | application/shared/adapters.py:117-120 | the header and then every row, one write each |
| Csv.RoundTrip | application/shared/adapters.py:110-148 | whatever the fields hold, the text written reads back under section 2 of RFC 4180 as exactly the rows written |
| Csv.QuotedOnlyWhereNeeded | application/shared/adapters.py:117-120 | a field stands as it is if and only if it has no comma, quote or line break and is not the one empty field of its record; else it is enclosed in quotes |
| Csv.ReportReadsBack | application/worker/main.py:150-156 | the report of any job reads back as its header and its three rows |
| Csv.PlainReportIs | application/worker/main.py:150-156 | the text of a report whose type needs no quotes, line by line |
| Csv.NewlineMatters | application/shared/adapters.py:116 | without newline="" a file would hold the text written if and only if the platform's separator is a line feed |
| Stores.EncodedOne | application/shared/adapters.py:116-146 | one character is encoded as the encoding says |
| Stores.EncodedAppend | application/shared/adapters.py:116-146 | and a text as its parts, one after another |
| Stores.EncodeChunks | application/shared/adapters.py:116-120 | a file's writes, each encoded on its own, make up the whole text encoded |
| Stores.LocalArtifactStore.PutCsvReport | application/shared/adapters.py:110-121 | one file appears under the report's key, holding the encoded header and rows |
| Stores.S3ArtifactStore.PutCsvReport | application/shared/adapters.py:132-148 | one object appears under the report's key, holding the encoded header and rows |
| Stores.PutBoth | application/shared/adapters.py:110-148 | given the same report both stores hold the same bytes under any encoding |
| Json.JoinedSame | application/shared/adapters.py:63 | a text survives joining of surrogates if and only if it has no split pair |
| Json.StringReadsBack | application/shared/adapters.py:63 | every string written reads back under section 7 of RFC 8259 as itself with split pairs joined |
| Json.Printable | application/shared/adapters.py:63 | what is written of a string is printable ASCII |
| Json.LoadsDumps | application/shared/adapters.py:63 | every flat object written reads back with nothing else changed |
| Wire.UuidRoundTrip | application/shared/adapters.py:57 | the text of any UUID has the form of section 4 of RFC 9562 and parses back to it |
| Wire.MessageReadsBack | application/shared/adapters.py:53-64 | the published body reads back as the same message |
| Wire.BodyText | application/shared/adapters.py:54-63 | the body of a message without correlation id, character by character |
| Wire.BodyTextCorrelated | application/shared/adapters.py:59-63 | a plain correlation id is one more member at the end |
| Wire.PublishedIsReceived | application/shared/adapters.py:75-88 | every published job id is received, whatever the correlation id |
| Wire.CorrelationSurvives | application/shared/adapters.py:59-60 | a correlation id comes back unchanged if and only if it has no split surrogate pair |
| Wire.StripIs | application/shared/adapters.py:108 | a stripped prefix is the part between its outer slashes |
| Wire.KeysDiffer | application/shared/adapters.py:113-114 | under one prefix two object keys are equal if and only if job and report are the same |
| Wire.KeyParts | application/shared/adapters.py:113-114 | the key is the stripped prefix, the job and the report, in this order, with slashes between and .csv at the end |

## Left out

- Runtime.World.RunWorker: the loop runs for a given number of turns, because Dafny methods must end; every number is covered.
- Runtime.World.RunHeartbeat: likewise for at most a given number of wake-ups; the length of a wait is not modelled there but in `Heartbeats`.
- Runtime.World.DeleteMessage: a delete outside the `try` that raises is the process ending before or after it, which `Runtime.World.DeleteDuplicate` covers.
- Leases.TimedExclusivity: states timing by clock readings of steps and assumes the holder does not itself complete or fail the job within the run.
- Stranding.StrandedIff: the runs it speaks of have forward clocks, no duplicate deliveries by the queue, and end within the lease; every other failure is allowed in them.
- Redelivery.ExhaustedIff: likewise, and it speaks of the message alone.
- Wire.PublishedIsReceived: the reader covers flat JSON objects of strings, natural numbers, true, false and null without white space; nested values, fractions and negative numbers are not read. Of what Python's `UUID` accepts beyond the standard form, signs, underscores and digits outside ASCII are not read.
- Csv.RoundTrip: text data is any character but comma, quote and line breaks, where RFC 4180 lists printable ASCII only.
- Service.ApplicationService.CreateJob: how the two attempts fail is a parameter, so every combination is covered; that a TypeError arises only at the call or inside the transaction's body follows application/shared/database.py:26-29.
- uuid4: ids are numbers that never repeat; the probability of a collision is not modelled.
- PostgreSQL isolation beyond atomic transactions, row locks skipped by a batch claim, and one timestamp for each transaction.
- Queue and dead-letter retention: messages never expire, and nobody moves them back from the dead-letter queue by hand.
- Receipt handles are numbered by receive; a delete with an outdated handle may succeed without removing the message.
- `process_job` (application/worker/main.py:177-192): the worker loop does not use it.
- Local runtime mode: its in-memory publisher delivers to nobody, so the no-loss theorem does not apply to it.
- Customers, health and readiness: single-branch facts.
- Routes, middleware, logging, metrics and tracing: they do not change job state.
- services/platform_app: a legacy path without tokens or leases.
- Terraform, permissions, networking and shell scripts, apart from the queue's timeout and receive limit.
- The database driver, the cloud client and the CSV and JSON libraries beyond the texts they produce.
