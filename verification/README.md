# Verification of the IT operations platform

This project models the two concurrent operations of the platform, and two smaller ones, and proves what they
keep. It is written for Dafny 4.11; `dafny verify dfyconfig.toml` checks all of it.

**Onboarding.** A new hire is one Postgres row, one LDAP entry and one in-memory job. Route handlers, background
pipelines, the sweeper, n8n callbacks, retry, rollback and offboard act on them, and their directory calls and commits
interleave in any order. A status write by job id is two steps, the SELECT that finds the row and the UPDATE that goes
by primary key, and others may act in between; of a task's own write by user id the columns that its UPDATE carries
are open, which is all that others can do to it between its SELECT and its UPDATE. `OnboardingRecords`, `Directory`
and `JobStore` are the stateful parts as classes. `OnboardingProtocol` is the whole operation as a transition system:
rows, directory, live tasks with program counters, handlers between two awaits, clock, and a history nobody's
behaviour depends on; every task and handler may vanish at any point. `OnboardingHandlers` and `OnboardingPipeline`
prove the handler and pipeline bodies against its steps. `OnboardingMoves`, `OnboardingInvariant` and
`OnboardingFencing` prove what every step keeps, `OnboardingTheorems`, `OnboardingStatus`, `OnboardingOffboarding` and
`OnboardingGroups` state the results over all runs, and `OnboardingLimits` and `OnboardingLateWrites` show by short
runs what cannot be had. Five hypotheses are explicit and separate:

- H1 `stagesFresh`: when the sweeper ticks, no task that has not dispatched yet has a row older than the stale timeout.
- H2 `callbacksDispatched`: n8n calls back only for job ids its webhook was called with.
- H3 `auditsSucceed`: the commit inside `write_audit_log` succeeds.
- H4 `rollbackAtomic`: rollback's directory delete and its row delete are one step, so neither a crash nor an
  exception comes between them.
- H5 `noLateRetry`: no retry of a user commits between the SELECT and the UPDATE of a status write (callback, refused
  dispatch, failure mark) that found this user's row. Nothing in the code rules such a retry out: the SELECT takes no
  lock and the UPDATE does not look at the job id.

Each theorem names the ones it needs. For each hypothesis there is a run that keeps the other four and ends with a row
whose recorded account does not exist. Without H5, a late callback also leaves COMPLETED on the row of a job that was
never dispatched, and a second pipeline beside a live one. `OnboardingTheorems.ReplacedJobWrites` says, without any
hypothesis, exactly which steps for a replaced job still change rows.

**The scan path.** `Subnet` decides what may be scanned, `SubnetText` reads and prints it. `HostScan` is the pool of
host tasks under the semaphore with an arbitrary scheduler, `Devices` the table and the health scores, `ScanJobs` the
job with its queue and its transaction, and `ScanTarget` joins these: what holds of the scan of any accepted subnet.
`SseRoundTrip` writes the event stream, `SseReader` and `SseFrames` read it in arbitrary chunks, and `ScanUi` is the
stream route, the reducer behind the dialog, and the theorem from the task pool to the screen.

**Token refresh** (`TokenRefresh`) is the 401 interceptor with its shared promise as a transition system.
**Passwords** (`Passwords`) are generated through an in-place shuffle and checked against the validator.
`IsoTime` prints and parses the timestamps the directory stores. `Common` and `ScanModel` hold shared datatypes.

Environment answers are parameters or nondeterministic choices, so the results hold for all of them: LDAP results,
also those the code ignores, and LDAP exceptions; failing flushes and commits; nmap replies and psutil values; n8n
reachability; random draws, clocks and lock contention.

## Where the code and its own texts disagree

The model follows the code.

- `backend/services/onboarding_pipeline.py:14-16` says Postgres and the directory are never allowed to disagree about
  whether the account exists. They can: an account exists that its row does not record, and a retry collides with it
  (`OnboardingLimits.RetryCanCollideWithItself`); a rollback leaves one to nobody
  (`OnboardingLimits.RollbackCanOrphanUnrecorded`, `OnboardingLimits.RollbackCanOrphanRefused`); and without any one
  of the five hypotheses a row records one that is gone. `OnboardingTheorems.RowsAndDirectoryAgree` says, under H1, H2
  and H5 and for every row, exactly when its account exists, `OnboardingTheorems.NoSelfCollision` exactly when a
  conflict is with the user's own entry, and `OnboardingTheorems.RollbackLeavesAccount` exactly when deleting a row
  leaves an account behind. The states these speak of are tied to steps of the run by `LostMeans` and `PurgedMeans`.
- `backend/middleware/audit_middleware.py:38-40` says a failed audit write does not roll back the operation it
  documents. The session is shared and rolled back at line 74, so the caller's flushed writes go with it
  (`OnboardingRecords.AuditThenCommit`, `OnboardingLimits.WithoutAudits`).
- `backend/models/onboarded_user.py:47` and the description at `backend/routers/onboard.py:308` say FAILED means
  that no directory account exists. One may exist, recorded (`OnboardingLimits.FailedCanHaveAccount`) or not
  (`OnboardingLimits.FailedCanHaveUnrecordedAccount`). `OnboardingStatus.FailedAccount` is the exact condition: the
  external id is recorded, or a task of the user ended between the LDAP add and the commit that records it.
- `backend/models/onboarded_user.py:75-77` says the job status stops changing at COMPLETED or FAILED. By
  `OnboardingStatus.OverChangesExactly` it changes exactly by a retry, by a status write (callback, refused dispatch,
  failure mark) that carries another status, and, without H1, H2 or H5, by a task of its user that has not dispatched.
  There is a run for each of them.
- `backend/routers/onboard.py:233-234` says rollback is never used on COMPLETED users. That holds for the handler's
  check; the row its delete finds may be COMPLETED (`OnboardingLimits.RollbackCanDeleteCompleted`), and it is exactly
  when a callback's UPDATE came between the two and no status change after it (`OnboardingStatus.RollbackOfCompleted`).
- `backend/services/provisioning/base.py:54-56` promises an idempotent offboarding. The second call answers with the first
  one's time exactly when the first one's description was written, was there before, or the times agree
  (`Directory.OffboardTwice`); the code ignores a refused write.
- `frontend/src/lib/sse.ts:20-22` says normalising the accumulated buffer handles split CRLF pairs. It does, except
  for streams with CR CR LF, and for exactly those the chunking shows (`SseReader.ChunkInvariance`).

## Model

| member | source | states |
|---|---|---|
| `OnboardingRecords.Session.UpsertOnboardingRecord` | backend/services/onboarding_record_service.py:33-71 | by user id: an existing row gets external id, job id, status and requester and keeps the rest; a new row is refused when its email is taken; nothing is committed |
| `OnboardingRecords.Session.UpdateOnboardingJobStatus` | backend/services/onboarding_record_service.py:74-87 | with nobody in between its SELECT and its UPDATE: the one row carrying the job id changes status, and its message only if one is given; no row is no error, two rows are |
| `OnboardingRecords.Session.FindByJob` | backend/services/onboarding_record_service.py:80-86 | the first half: the one row carrying the job id, with what the session has loaded of it; none, or an error for two |
| `OnboardingRecords.Session.FlushStatus` | backend/services/onboarding_record_service.py:84-87 | the second half, on whatever the rows are by then: the row of the user found gets the columns that differ from what was loaded; an UPDATE that meets no row raises |
| `OnboardingRecords.Session.CreatePendingOnboardingRecord` | backend/services/onboarding_record_service.py:99-130 | inserts the PENDING row, or on a taken email rolls the session back and reports the conflict |
| `OnboardingRecords.Session.MarkOffboarded` | backend/services/onboarding_record_service.py:90-96 | sets person status and time of an existing row and nothing else |
| `OnboardingRecords.Session.HardDeleteOnboardingRecord` | backend/services/onboarding_record_service.py:133-139 | removes exactly that row from the working copy and returns it |
| `OnboardingRecords.Session.WriteAuditLog` | backend/middleware/audit_middleware.py:43-80 | commits the caller's pending writes with the entry, or rolls both back, and never raises |
| `OnboardingRecords.AuditThenCommit` | backend/middleware/audit_middleware.py:43-80 | the caller's own commit afterwards cannot bring back writes a failed audit took |
| `OnboardingRecords.Session.Rollback` | backend/services/onboarding_pipeline.py:57 | pending writes are dropped, committed rows stay |
| `OnboardingRecords.Session.SweepStaleOnboardingJobs` | backend/services/onboarding_sweeper.py:34-73 | the loop over stale unlocked rows commits exactly the swept table and notifies each resolved job with the status its row got |
| `OnboardingRecords.SweepResolves` | backend/services/onboarding_sweeper.py:37-62 | every unlocked stale row becomes PARTIALLY_COMPLETE if it has an external id and FAILED otherwise, all other rows stay, a second sweep changes nothing, and swept rows are legal for retry and rollback |
| `OnboardingRecords.JobWriteIsFenced` | backend/services/onboarding_record_service.py:80-87 | a status write with nobody in between touches only rows carrying its job id, and of those only status, message (if one is given) and time |
| `OnboardingRecords.UndisturbedWrite` | backend/services/onboarding_record_service.py:80-87 | if nobody came between its halves, a status write is the write by job id |
| `OnboardingRecords.StatusWriteGoesByUser` | backend/services/onboarding_record_service.py:84-87 | the UPDATE of a status write touches only the row of the user its SELECT found, whatever job id that row carries by then, and of it only status, message and time; the table changes if and only if a column it carries, or the time, differs |
| `Directory.DirectoryServer.CreateUser` | backend/services/provisioning/ldap_provider.py:59-98 | conflict, refusal, an add or group edit whose answer is lost, a group failure that leaves the entry behind, or the entry, with its group membership unless an ignored refusal |
| `Directory.DirectoryServer.EnsureGroupMembership` | backend/services/provisioning/ldap_provider.py:102-122 | adds to an existing group, where a refusal is ignored, or creates the group, where it is an error, and the group and all others are then as `JoiningGroup` says |
| `Directory.DirectoryServer.DeleteMember` | backend/services/provisioning/ldap_provider.py:164-165 | a member is removed unless the server refuses, as it does for the last one (section 3.5 of RFC 4519), and the ignored result says which |
| `Directory.DirectoryServer.LeaveAllGroups` | backend/services/provisioning/ldap_provider.py:158-165 | the loop over groups leaves every group the specification says it leaves |
| `Directory.LeavingGroups` | backend/services/provisioning/ldap_provider.py:158-165 | the user leaves every group with another member that does not refuse, groups stay non-empty, other members stay, and leaving twice is leaving once |
| `Directory.JoiningGroup` | backend/services/provisioning/ldap_provider.py:102-122 | a new member is in the group of its department, the members already there stay, and no other group or entry changes |
| `Directory.NewEntry` | backend/services/provisioning/ldap_provider.py:64-79 | a new entry carries its user's number and fields and is not offboarded; other entries and the groups stay |
| `Directory.RemovingEntry` | backend/services/provisioning/ldap_provider.py:234-245 | deleting an entry leaves its groups first and takes that entry, if accepted, and nothing else |
| `Directory.DirectoryServer.DeactivateUser` | backend/services/provisioning/ldap_provider.py:138-188 | not found, the recorded time of an earlier offboarding with nothing changed, the offboarded directory with or without the tag as the server accepts it, or an exception before or behind the edits |
| `Directory.OffboardOnce` | backend/services/provisioning/ldap_provider.py:153-175 | the tag is there afterwards exactly if its write was accepted or it was there before, and then every later offboarding decodes its time and changes nothing |
| `Directory.OffboardTwice` | backend/services/provisioning/ldap_provider.py:138-188 | through the server, the second call answers with the first one's record if and only if the first tag was written, was there before, or the times agree; in the first two cases it changes nothing |
| `Directory.OthersUntouched` | backend/services/provisioning/ldap_provider.py:138-247 | offboarding and deleting one entry keep every other user's entries |
| `Directory.DirectoryServer.DeleteUser` | backend/services/provisioning/ldap_provider.py:225-247 | leaves the groups and deletes one entry with that employee number, as far as the server accepts it and without noticing if not; none is a no-op; or an exception before or behind the edits. Search and delete are one step here; in the code a DN freed and taken by another hire in between would be deleted |
| `IsoTime.IsoRoundTrip` | backend/services/provisioning/ldap_provider.py:153-172 | parsing a printed UTC timestamp gives it back, with and without microseconds |
| `JobStore.JobStore.CreateJob` | backend/core/job_store.py:31-34 | a new job with its initial status, no data and an empty queue; other jobs stay |
| `JobStore.JobStore.UpdateJobStatus` | backend/core/job_store.py:41-51 | unknown ids are ignored; else status and time are set, data merged and one event put; a key told anew takes the new value, every other key keeps its own |
| `JobStore.ToldOn` | backend/core/job_store.py:41-51 | what listeners are told in two stretches is the one after the other, with the data of both merged in that order |
| `JobStore.StreamProgress` | backend/routers/onboard.py:102-115 | the generator's loop delivers the snapshot and then what the stream function says, or reports an unknown job |
| `JobStore.StepsConsistent` | backend/core/job_store.py:41-51 | under any interleaving of writes and reads, deliveries followed by the queue are the puts in order, and known keys only grow |
| `JobStore.ReaderReceivesEverything` | backend/routers/onboard.py:107-113 | a sole reader gets the current snapshot and then every put since job creation in order, up to the first terminal one, each with at least the keys known when it was put |
| `OnboardingMoves.EveryStepMoves` | backend/services/onboarding_pipeline.py:66-256 | every step of every participant changes rows, tasks, directory, handlers, pending status writes and history only in the ways the invariants use; a status write goes to the row of the user its SELECT found, whatever that row carries |
| `OnboardingInvariant.KeepAlways` | backend/routers/onboard.py:58-366 | with no hypothesis, every step keeps: each row, task, entry, handler and pending status write belongs to one known user and job, emails are unique, no job id is on two rows, groups are inhabited |
| `OnboardingFencing.KeepFenced` | backend/routers/onboard.py:322-364 | under H1, H2 and H5, every step keeps: a live task's row carries its job id, a pending status write meets a row carrying its own job and no live task's, one live task a user, replaced jobs are nowhere, rows and directory agree, entries are accounted for |
| `OnboardingFencing.NobodyElseWrites` | backend/services/onboarding_record_service.py:74-87 | under H1, H2 and H5, no other participant writes the row of a task that has not dispatched, late status writes of replaced jobs included |
| `OnboardingTheorems.RowsAndDirectoryAgree` | backend/services/onboarding_pipeline.py:12-16 | in every reachable state under H1, H2 and H5, for every row: with an external id, it is the DN of the email and the account exists if and only if no unfinished rollback took it, under H3 and H4 always; without one, the account exists if and only if the user's task is between add and commit or one ended there |
| `OnboardingTheorems.PurgedMeans` | backend/routers/onboard.py:261-273 | an unfinished rollback took the account if and only if some earlier step deleted the entry of a row that no step has deleted since |
| `OnboardingTheorems.AccountHistory` | backend/services/onboarding_pipeline.py:73-80 | with no hypothesis, with or without a row, a user has an account if and only if a task added it and no rollback has deleted it since |
| `OnboardingTheorems.RollbackLeavesAccount` | backend/routers/onboard.py:261-273 | under H1, H2 and H5, deleting a row leaves an account behind if and only if it was there and this step does not delete it; for an unrecorded one, if a task ended or stands between add and commit |
| `OnboardingTheorems.RollbackSparesOtherEntries` | backend/routers/onboard.py:261-264 | a rollback's directory call, accepted or not, keeps the entries of all other users, whatever their emails; this rests on its search and its delete being one step |
| `OnboardingGroups.MembershipHistory` | backend/services/provisioning/ldap_provider.py:102-165 | with no hypothesis, an entry is in a group if and only if it was from the start or a task put it there, and no offboarding or rollback of that very entry, accepted by the server and with another member staying, has taken it out since |
| `OnboardingTheorems.ExternalIdIsWriteOnce` | backend/services/onboarding_record_service.py:57-65 | with no hypothesis, an external id once committed never changes while its row exists, and it is the DN the row's email determines |
| `OnboardingTheorems.JobIdsBelongToOneUser` | backend/routers/onboard.py:64-83 | over the whole run two rows that carry the same job id, at whatever times, are the same user's |
| `OnboardingTheorems.SupersededJobsAreFenced` | backend/routers/onboard.py:337-343 | under H1, H2 and H5, once a retry has replaced a job id no row carries it and no callback, failure mark or task step of that job changes any row |
| `OnboardingTheorems.LookupMeans` | backend/services/onboarding_record_service.py:80-86 | a pending status write's SELECT was an earlier step that found the user's row carrying the write's job, and it has been pending ever since |
| `OnboardingTheorems.ReplacedJobWrites` | backend/services/onboarding_record_service.py:80-87 | with no hypothesis, after a retry replaced a job, a step for that job changes a row if and only if it is its task's own write by user id, or a status write's UPDATE that finds something to change and whose SELECT came before the retry, or later after its task had put the id back |
| `OnboardingTheorems.LateWriteMeansLateRetry` | backend/routers/onboard.py:322-343 | a status write of a replaced job whose SELECT came before the retry makes that retry one that committed between SELECT and UPDATE, which H5 forbids |
| `OnboardingTheorems.FencedBeforeLateRetry` | backend/routers/onboard.py:322-343 | under H1 and H2, the fencing invariant holds in every state before which no retry committed between the halves of a status write of its user |
| `OnboardingTheorems.RetryStartsOnePipeline` | backend/routers/onboard.py:322-364 | under H1, H2 and H5, two retries in one run are never retries of the same job id |
| `OnboardingTheorems.ReplacedJobIsBack` | backend/routers/onboard.py:322-343 | with no hypothesis, after a retry replaced a job id a row carries it again if and only if a task of that very job, not dispatched, has written it back and nothing has replaced it since |
| `OnboardingTheorems.SecondRetryNeedsWriteBack` | backend/routers/onboard.py:322-343 | with no hypothesis, a second retry of a job id can succeed only after a task of that very job wrote its id back and nothing replaced it since; concurrent retries alone start one pipeline |
| `OnboardingTheorems.OnePipelinePerUser` | backend/routers/onboard.py:345-364 | under H1, H2 and H5, at most one task that has not dispatched is live for a user, and the row carries its job id |
| `OnboardingTheorems.NoSelfCollision` | backend/services/onboarding_pipeline.py:14-16 | under H1, H2 and H5, a create_user conflict is with the user's own entry if and only if an earlier task of this user ended between the add and the commit |
| `OnboardingTheorems.LostMeans` | backend/services/onboarding_pipeline.py:73-91 | a commit was lost if and only if at some earlier step a task of the user failed or crashed between the LDAP add and the commit |
| `OnboardingStatus.CompletedIsReported` | backend/routers/onboard.py:150-154 | with no hypothesis, a row is COMPLETED if and only if the UPDATE of a callback made it so at an earlier step and no step has changed the status since; that callback reported COMPLETED for the job the row carried when its SELECT found it |
| `OnboardingStatus.CompletedJobIsReported` | backend/routers/onboard.py:150-154 | under H1, H2 and H5 that job is the one the COMPLETED row still carries |
| `OnboardingTheorems.AnnouncedMeans` | backend/services/onboarding_pipeline.py:96-114 | the recorded EMAIL_SENDING milestone of a job is an earlier step that committed it |
| `OnboardingTheorems.DispatchedMeans` | backend/services/onboarding_pipeline.py:132-144 | the recorded dispatch of a job is an earlier step that called n8n for it |
| `OnboardingStatus.CompletedWentThroughDispatch` | backend/services/onboarding_pipeline.py:96-134 | under H1, H2, H3 and H5, a COMPLETED row has its external id set, and four earlier steps, in this order, are the EMAIL_SENDING commit, the n8n dispatch, the COMPLETED callback and the write of that callback, all for the job the row carries |
| `OnboardingStatus.FailedAccount` | backend/models/onboarded_user.py:47 | under H1, H2 and H5 a FAILED row has an account if and only if its external id is recorded and no rollback took the entry, or a task of its user ended between add and commit; under H3 and H4 without the proviso |
| `OnboardingStatus.OverChangesExactly` | backend/models/onboarded_user.py:74-77 | a COMPLETED or FAILED status changes at a step if and only if the step retries the row, is a status write on it that carries another status, or is a write of a status by a task of its user that has not dispatched; under H1, H2 and H5 never the third, and the second is for the job the row carries |
| `OnboardingStatus.RollbackOfCompleted` | backend/routers/onboard.py:243-273 | with no hypothesis, the row a rollback deletes is COMPLETED if and only if a callback's UPDATE brought COMPLETED strictly between the handler's check and the delete and no step changed the status after that; its SELECT may have come earlier |
| `OnboardingOffboarding.RestOfRowsMoves` | backend/routers/onboard.py:58-366 | what every step does to a row's person status, offboarding time, requester and message: marked by an audited offboarding only, requester by a full run only, message by retry, status write and sweeper as each of them says; a new row is ACTIVE without message |
| `OnboardingOffboarding.OffboardedExactly` | backend/routers/onboard.py:181-208 | with no hypothesis, a person is OFFBOARDED, with a time, if and only if an audited mark of an offboarding came at a step since which the row has been there |
| `OnboardingOffboarding.DoneMeans` | backend/routers/onboard.py:190-195 | the time an offboarding writes is the one its own directory call reported at an earlier step |
| `OnboardingOffboarding.OffboardingMeans` | backend/routers/onboard.py:177-188 | an offboarding under way goes back to a check that found its row COMPLETED |
| `OnboardingTheorems.NoRowStaysInProgress` | backend/services/scheduler.py:103-105 | with a tick a minute and the two-minute timeout, no row whose lock is free at the ticks stays in progress more than three minutes past its last update |
| `OnboardingTheorems.SweptRowsCanBeRecovered` | backend/services/onboarding_sweeper.py:34-73 | after a sweep, retry and rollback of each swept row are enabled |
| `OnboardingLimits.WithoutFreshStages` | backend/services/onboarding_sweeper.py:34-73 | a run under H2 to H5 that ends with a recorded account that does not exist |
| `OnboardingLimits.WithoutDispatchedCallbacks` | backend/routers/onboard.py:128-154 | the same under all hypotheses but H2 |
| `OnboardingLimits.WithoutAudits` | backend/routers/onboard.py:264-273 | the same under all hypotheses but H3 |
| `OnboardingLimits.WithoutAtomicRollback` | backend/routers/onboard.py:261-273 | the same under all hypotheses but H4 |
| `OnboardingLateWrites.WithoutTimelyRetries` | backend/services/onboarding_pipeline.py:55-61 | the same under all hypotheses but H5: a failure mark overtaken by sweeper and retry frees the row of the retried task for rollback |
| `OnboardingLimits.FailedCanHaveAccount` | backend/models/onboarded_user.py:47 | under all five hypotheses a FAILED row with a recorded, existing account is reachable |
| `OnboardingLimits.FailedCanHaveUnrecordedAccount` | backend/services/provisioning/ldap_provider.py:86-122 | under all five hypotheses a FAILED row with nothing recorded, no task and an existing account is reachable |
| `OnboardingLimits.RetryCanCollideWithItself` | backend/services/onboarding_pipeline.py:14-16 | under all five hypotheses a retry can meet its own user's entry |
| `OnboardingLimits.RollbackCanOrphanUnrecorded` | backend/routers/onboard.py:261-264 | under all five hypotheses a rollback of an unrecorded account can delete the row and leave the account |
| `OnboardingLimits.RollbackCanOrphanRefused` | backend/services/provisioning/ldap_provider.py:245 | under all five hypotheses a refused directory delete can leave the account without a row |
| `OnboardingLimits.RetryLeavesFailed` | backend/routers/onboard.py:337-343 | a retry takes a FAILED row to PENDING |
| `OnboardingLimits.CallbackLeavesCompleted` | backend/routers/onboard.py:150-154 | under all five hypotheses a callback can take a COMPLETED row to FAILED |
| `OnboardingLimits.RefusalLeavesCompleted` | backend/services/onboarding_pipeline.py:145-157 | under all five hypotheses a dispatch reported as failed can take a COMPLETED row to PARTIALLY_COMPLETE |
| `OnboardingLimits.FailureMarkLeavesCompleted` | backend/services/onboarding_pipeline.py:55-61 | under all five hypotheses a failure mark can take a COMPLETED row to FAILED |
| `OnboardingLimits.TaskLeavesFailedWithoutH1` | backend/services/onboarding_sweeper.py:58-62 | without H1 a slow task can take a FAILED row back to AD_CREATING |
| `OnboardingLimits.TaskLeavesFailedWithoutH2` | backend/services/onboarding_pipeline.py:96-114 | without H2 a task can take a FAILED row on to EMAIL_SENDING |
| `OnboardingLimits.RollbackCanDeleteCompleted` | backend/routers/onboard.py:247-264 | under all five hypotheses a rollback can delete a COMPLETED row |
| `OnboardingLateWrites.LateCallbackCompletes` | backend/routers/onboard.py:150-154 | without H5 a callback overtaken by a retry leaves COMPLETED on a row whose job was never dispatched and whose task has only started, and that task then writes over it |
| `OnboardingLateWrites.LateCallbackDoublesPipelines` | backend/routers/onboard.py:322-364 | without H5 a FAILED callback overtaken by a retry lets a second pipeline start beside a live one |
| `OnboardingLateWrites.LateCallbackRetriesTwice` | backend/routers/onboard.py:322-343 | without H5 one job id can be retried twice, after its task has put it back on the row |
| `OnboardingLateWrites.SlowTaskRetriesTwice` | backend/services/onboarding_pipeline.py:96-114 | without H1 as well, after a slow task has put its id back and failed |
| `OnboardingHandlers.OnboardUser` | backend/routers/onboard.py:58-98 | on a free email the handler is the Onboard step with a PENDING job; on a taken one, or if the database fails, rows stay and 409 or an error is reported |
| `OnboardingHandlers.ReportJobStatus` | backend/routers/onboard.py:128-154 | 401 and 404 change nothing; otherwise the job store is told and the handler, run with nobody in between, is the callback's two steps, which write the row carrying the job id, or on a database failure no row change and an error |
| `OnboardingHandlers.OffboardUser` | backend/routers/onboard.py:170-225 | 404 and 409 change nothing; an LDAP exception or a database failure leaves the row and at most the directory step behind; otherwise the handler is the check, directory and mark steps, whether or not the audit commits; success with its audit leaves the row OFFBOARDED with the time answered, and one audit entry |
| `OnboardingHandlers.RollbackOnboarding` | backend/routers/onboard.py:237-273 | 404 and 409 change nothing; an LDAP exception or a database failure, exactly when it is reported, keeps the row and leaves at most the directory step behind; otherwise the handler is the check and commit steps, with the row back if the audit fails; success with its audit leaves one audit entry and no row |
| `OnboardingHandlers.RetryOnboarding` | backend/routers/onboard.py:315-366 | 404 and 409 change nothing; otherwise the handler is the Retry step: a fresh job id, PENDING, no message; a failing commit leaves only the new job in the store; a full pipeline is scheduled if no external id is recorded and a resumed one with the requested rotation otherwise |
| `OnboardingPipeline.RunOnboardingPipeline` | backend/services/onboarding_pipeline.py:66-165 | whatever the directory, each flush and commit, the audit and n8n answer, the body follows a path of protocol steps called for by exactly these answers, ends the task, and leaves rows and directory as that path does; the listeners of the job are told exactly AD_CREATING, then EMAIL_SENDING if the run got past that commit and FAILED if not, then PARTIALLY_COMPLETE if n8n was not reached, then FAILED if that could not be written |
| `OnboardingPipeline.ResumeOnboardingPipeline` | backend/services/onboarding_pipeline.py:168-256 | the same for a resumed run, with and without password rotation, and without a row; the listeners are told the same, with AD_CREATING only once the row is claimed, and FAILED if there is no row |
| `OnboardingPipeline.MarkJobFailed` | backend/services/onboarding_pipeline.py:48-63 | listeners are told, pending writes are dropped, and the row carrying the job id is FAILED with the message, or unchanged if that write fails |
| `OnboardingPipeline.Dispatch` | backend/services/onboarding_pipeline.py:119-157 | a dispatch that succeeds changes no row; one that fails leaves PARTIALLY_COMPLETE with its reason on the row carrying the job id, FAILED if that cannot be written, or nothing if that cannot either; the listeners are told EMAIL_SENDING, and PARTIALLY_COMPLETE and FAILED only then |
| `OnboardingPipeline.OnlyDispatchKeepsListening` | backend/services/onboarding_pipeline.py:132-157 | no pipeline ever tells COMPLETED, and the listeners of a run get a terminal status from it if and only if n8n did not take it over |
| `Subnet.ValidationVerdicts` | backend/schemas/scan.py:33-70 | each answer of the validator exactly when it is given: not IPv4 CIDR, IPv6, an address outside the private ranges, more than 1024 addresses, or accepted |
| `Subnet.WithinMeansPrivate` | backend/schemas/scan.py:15-19 | lying in an allowed supernet is having private addresses only (section 3 of RFC 1918) |
| `Subnet.AcceptedExactly` | backend/schemas/scan.py:48-70 | accepted if and only if the prefix is at least 22 and the masked base, equivalently the given address, is private |
| `Subnet.HostsOfAccepted` | backend/services/scanner.py:211-213 | an accepted subnet has 1 to 1022 hosts, exactly the block without its two ends where it has room, all private, each once and in order |
| `Subnet.ValidationIsStable` | backend/schemas/scan.py:67-70 | validating the normalised subnet again gives the same subnet |
| `SubnetText.NetworkRoundTrip` | backend/schemas/scan.py:48-70 | reading a printed network gives back its base and prefix |
| `SubnetText.AddressText` | backend/schemas/scan.py:33-47 | a bare address is read as a network of one, and with a prefix length behind a slash it keeps that |
| `SubnetText.NormalisedTextIsStable` | backend/schemas/scan.py:47-70 | whatever text was accepted, the normalised text is accepted again and comes back unchanged |
| `SubnetText.HostNamesDiffer` | backend/services/scanner.py:211-212 | the printed hosts of an accepted subnet are pairwise different |
| `HostScan.EverySchedule` | backend/services/scanner.py:215-259 | for every schedule: at most 50 tasks inside the semaphore, progress events with strictly rising counts within 1..total, at most three turns a task, and no task can run exactly when all are over |
| `HostScan.StepIsSound` | backend/services/scanner.py:220-251 | each turn of a task keeps the slot count, the order in which tasks were counted and the events that order determines, and uses up a turn |
| `HostScan.NeverStuck` | backend/services/scanner.py:215-222 | while a task is not over some task can run |
| `ScanModel.EndingMeans` | backend/services/scanner.py:106-251 | what an answer of nmap means: not listed is down with nothing known, listed keeps status, hostname and MAC, up and probed has the latency and what the probe found if it found anything; no result exactly for a ping that could not be made or failed and a probe that could not be made |
| `ScanJobs.Registry.CreateJob` | backend/services/scanner.py:86-94 | a fresh running job with an empty queue under that id, other jobs kept |
| `ScanJobs.TaskPool.RunTask` | backend/services/scanner.py:220-251 | one turn of the task body is one step of the pool |
| `ScanJobs.TaskPool.RunAll` | backend/services/scanner.py:253 | whatever runnable task the event loop picks, all tasks end |
| `ScanJobs.SurvivorsExactly` | backend/services/scanner.py:255-260 | the hosts that come back are exactly those whose task gives a result, once and in host order |
| `ScanJobs.AsyncScanSubnet` | backend/services/scanner.py:207-267 | the returned list is a function of hosts, replies and local values that names no schedule; the queue grows by the events of a complete schedule, also when local introspection then raises |
| `ScanJobs.EveryResultIsReported` | backend/services/scanner.py:244-251 | whatever the schedule, a finished scan has sent as many progress events as it returns results, one naming each host that gave one |
| `ScanJobs.QueueOfScan` | backend/services/scanner.py:356-416 | the queue of a job is rising progress followed by exactly one terminal event, last |
| `ScanJobs.RunScan` | backend/services/scanner.py:337-429 | unknown jobs change nothing; otherwise one terminal event, complete with the counts or error, last; rows and snapshots are the whole scan's, or untouched on a failure of the subnet, of local introspection, or anywhere before the commit; the counts are those of the answers: online the hosts listed as up whose probe could be made, offline those listed as down or not listed |
| `ScanJobs.UpAndDownAreAll` | backend/services/scanner.py:373-374 | online and offline add up to the number of results |
| `ScanJobs.CountsOfReplies` | backend/services/scanner.py:373-374 | the results counted as up and down are exactly the hosts whose answer was online and offline, whatever local introspection adds |
| `ScanJobs.TableAfterScan` | backend/services/scanner.py:378-384 | after a committed scan each host's row is, field by field, what nmap's answer for that host (and, for the local host, introspection) makes of its old row, at the time its result was written; every other row is unchanged |
| `ScanTarget.NormalisedNetwork` | backend/services/scanner.py:211 | parsing the normalised text again gives the network that was accepted |
| `ScanTarget.AcceptedTarget` | backend/services/scanner.py:211-213 | the scan of any accepted subnet has 1 to 1022 hosts, pairwise different, each the name of a private address |
| `ScanTarget.AcceptedScanEnds` | backend/services/scanner.py:215-259 | for every schedule such a scan takes at most 3066 turns, never with more than 50 tasks inside, and its counts stay within 1022 |
| `ScanTarget.AcceptedScanTable` | backend/services/scanner.py:378-384 | a committed scan of any accepted subnet changes only rows of private addresses, each, field by field, as nmap's answer for its own host says |
| `Devices.UpsertDevice` | backend/services/scanner.py:275-329 | field by field: up gives a row Online, seen now, with the result's hostname, MAC, OS, latency and ports, and cpu and memory from the result or else from the old row; down turns an existing row Offline and nothing else, and creates none; every other row stays |
| `Devices.EachRow` | backend/services/scanner.py:378-384 | after a list of results each row depends on its own result and its own old value only, and is what that result says field by field |
| `Devices.OrderDoesNotMatter` | backend/services/scanner.py:378-384 | the same results in any order give the same table |
| `Devices.RowsAfterScan` | backend/services/scanner.py:278-281 | the rows afterwards are exactly the old ones and the hosts that were up: a host that is down never creates one |
| `Devices.DeviceDb.RecordScan` | backend/services/scanner.py:376-387 | all rows and snapshots of the scan, or, on a failure at any upsert or at the commit, none |
| `Devices.ComputeHealthScore` | backend/services/scanner.py:435-458 | none exactly for hosts that are down, otherwise one of 100, 80, 60, 40, 20, and 100 when nothing is known; each of cpu and memory costs 20 above 80 and another 20 above 95 |
| `Devices.SnapshotsAre` | backend/services/scanner.py:378-384 | one snapshot for each host that is up, in order, with its own address and score, and none for the others |
| `SseReader.BoundaryIsLeftmost` | frontend/src/lib/sse.ts:82 | the boundary found is the leftmost blank line |
| `SseReader.NormalizeAgain` | frontend/src/lib/sse.ts:75-79 | without CR CR LF, normalising what was left over together with the next chunk is normalising the whole |
| `SseReader.SplitGoesOn` | frontend/src/lib/sse.ts:81-86 | cutting frames commutes with appending: only the leftover meets what follows |
| `SseReader.ChunksDoNotMatter` | frontend/src/lib/sse.ts:69-87 | without CR CR LF every chunking gives the frames and the leftover of the whole stream read at once |
| `SseReader.ChunkInvariance` | frontend/src/lib/sse.ts:69-87 | every chunking of a stream reads like one chunk if and only if the stream has no CR CR LF |
| `SseFrames.ProcessFrame` | frontend/src/lib/sse.ts:102-124 | a comment-only frame is a heartbeat; otherwise the last event field, or "message", and the data fields joined by LF |
| `SseFrames.TrimMeans` | frontend/src/lib/sse.ts:111-113 | trimming takes all white space off both ends and nothing else |
| `SseFrames.OpenEventStream` | frontend/src/lib/sse.ts:66-87 | the nested loops report the interpreted frames of the reading function in order and keep its leftover |
| `SseRoundTrip.NormalizeBody` | backend/routers/scan.py:123-131 | CRLF-framed and LF-framed blocks normalise to the same text |
| `SseRoundTrip.RoundTrip` | frontend/src/lib/sse.ts:66-124 | any blocks of comment, event and data lines with newline-free trimmed values, CRLF- or LF-framed and in any chunks, are reported exactly, in order, one heartbeat a comment block, with nothing left over |
| `ScanUi.StreamScanProgress` | backend/routers/scan.py:107-129 | the generator yields a comment for each timeout and a block for each event, up to a disconnect or a terminal event |
| `ScanUi.ServedUpTo` | backend/routers/scan.py:107-129 | the rounds served are those up to the first disconnect, which is not served, or terminal event, which is the last |
| `ScanUi.UiFollowsEvents` | frontend/src/hooks/useScanStream.ts:104-137 | the reducer's state is that of the events alone: heartbeats change nothing and encoded data comes back |
| `ScanUi.MalformedFrame` | frontend/src/hooks/useScanStream.ts:104-147 | a progress, complete or error frame that does not parse shows the connection error, keeps the rest of the view, and nothing after it is read |
| `ScanUi.ProgressShown` | frontend/src/hooks/useScanStream.ts:105-117 | while events report progress, every field shown is that of the last of them |
| `ScanUi.PercentIsNearest` | frontend/src/hooks/useScanStream.ts:112-115 | the percentage shown is the nearest integer to scanned over found, halves up, and 0 for nothing found |
| `ScanUi.ProgressNeverFalls` | frontend/src/hooks/useScanStream.ts:107-127 | over a scan's events the rounded percentage stays in 0..100, the host count within the subnet, and neither falls |
| `ScanUi.EndToEnd` | frontend/src/hooks/useScanStream.ts:82-147 | for every schedule, heartbeat pattern and chunking, percentage and host count shown after k chunks are in range and no further than after more of them, and in the end the outcome is shown, with its message if it failed |
| `ScanUi.SuccessIsShown` | frontend/src/hooks/useScanStream.ts:118-129 | a successful scan ends in complete with the number of hosts answered as online found and online plus offline in total |
| `TokenRefresh.Client.AttachToken` | frontend/src/lib/api.ts:12-19 | the request interceptor is the Transmit step: the current token if somebody is signed in, otherwise the header already there |
| `TokenRefresh.Client.RefreshAccessToken` | frontend/src/lib/api.ts:41-53 | a refresh in flight is shared, otherwise exactly one is started |
| `TokenRefresh.Client.OnResponse` | frontend/src/lib/api.ts:55-84 | the interceptor up to its await is the Reply step: settle, join the refresh once, or reject |
| `TokenRefresh.Client.AfterRefresh` | frontend/src/lib/api.ts:63-80 | the interceptor behind its await is the Resume step: store the token only for a signed-in user and resend, or sign out and reject |
| `TokenRefresh.SingleFlight` | frontend/src/lib/api.ts:39-53 | in every reachable state at most one interceptor refresh call is in flight, and there were never more calls than requests that met a 401 |
| `TokenRefresh.ReplyMeans` | frontend/src/lib/api.ts:39-84 | in every run the first 401 of a request makes it wait, marked, for the call the others share or, if there is none, for a new one that is in flight from then on; a 2xx answers it, everything else, a second 401 included, rejects it, and neither makes a call |
| `TokenRefresh.TransmitMeans` | frontend/src/lib/api.ts:12-19 | what goes out carries the signed-in user's token if that is not empty, else the header it has |
| `TokenRefresh.CallMeans` | frontend/src/lib/api.ts:41-53 | a call lands once with its result while it is the shared one, and its end frees the place |
| `TokenRefresh.ResumeMeans` | frontend/src/lib/api.ts:63-80 | behind its await a request is resent with the token granted, which the signed-in user then has, or rejected and the user signed out |
| `TokenRefresh.ApplicationMeans` | frontend/src/lib/api.ts:4-9 | a new request sets out unmarked and unsent; signing in and out change the user and nothing else |
| `TokenRefresh.MeanwhileShares` | frontend/src/lib/api.ts:24-27 | a 401 arriving while a call is in flight waits for that call and starts none |
| `TokenRefresh.ResultsAreFixed` | frontend/src/lib/api.ts:64 | what a refresh call landed with never changes |
| `TokenRefresh.WaitersShareTheResult` | frontend/src/lib/api.ts:63-79 | any two requests that waited for the same refresh call, however far apart they go on, go on with its one result: resent with its token, or rejected and signed out |
| `TokenRefresh.AtMostTwice` | frontend/src/lib/api.ts:60-71 | every request is sent at most twice and waits for at most one refresh |
| `TokenRefresh.EveryRequestSettles` | frontend/src/lib/api.ts:55-85 | n requests cause at most 7 n interceptor steps, and when none is left to take every request is answered or rejected |
| `TokenRefresh.SignedOutStays` | frontend/src/lib/api.ts:65-68 | once nobody is signed in only a login changes that; a refresh completing later does not |
| `TokenRefresh.IdentityStays` | frontend/src/lib/api.ts:66-68 | between logins the interceptor changes nothing about the signed-in user but the token |
| `Passwords.AcceptedExactly` | backend/services/password_policy.py:44-55 | the validator accepts exactly the passwords of length 16 or more with a character of each class |
| `Passwords.RefusedFor` | backend/services/password_policy.py:44-55 | a refused password is told the first requirement it fails, in the order length, upper, lower, digit, symbol |
| `Passwords.CountIgnoresOrder` | backend/services/password_policy.py:40 | equal multisets have equally many characters of a class, whatever the order |
| `Passwords.Shuffle` | backend/services/password_policy.py:40 | whatever positions are drawn, the in-place shuffle is the specified sequence of swaps and keeps the multiset |
| `Passwords.EveryOrderCanCome` | backend/services/password_policy.py:25-40 | for every order of the characters there are positions to draw with which the shuffle ends in it |
| `Passwords.GenerateSecurePassword` | backend/services/password_policy.py:22-41 | for every length and every random outcome: refused below 16, otherwise exactly that long, over the alphabet, two of each class, and accepted by the validator |

## Left out

- The ORM's identity map beyond what it does to an UPDATE: which values a status write has loaded and which of job id and status a task's UPDATE carries are arbitrary, so the results hold for any staleness. `requested_by` is always written, and an offboarding that writes the values already there leaves the time as it was.
- The protocol's state has no job store: what stream listeners are told is stated per job queue, handler and pipeline, and not related to the rows over runs. The callback handler tells the listeners before a write that may fail.
- Directory calls are atomic, also the search by employee number and the delete by DN, except that adding the entry and joining the group are two steps a failure or crash can separate. An exception amid the edits of one call appears as that call with the edits not reached refused, and the caller gone.
- DNs are compared exactly: no case folding, no escaping of commas, filters or spaces in uids and department names.
- Error and status texts are shortened, and the ids inside the EMAIL_SENDING payload are omitted; which branch sets which text is kept.
- The local provider (no external directory, so `external_id` stays null) and the unimplemented Graph provider.
- The row locks of the retry handler and the sweeper: checking and changing a row are one step, which is what the lock makes of them. The deletes of a rollback and the mark of an offboarding go by user id, and are one step each at their commit.
- A commit that succeeds although its caller gets an error: in the method contracts a failing write is not made, in the protocol it is a step followed by Raise.
- Two readers competing for one job queue; the onboarding and the scan reader are each the only one.
- Subnet text in mask notation, IPv6 and malformed text: what `ip_network` makes of them is a parameter; addresses with and without a prefix length are parsed.
- The semaphore's FIFO order: any waiting task may take a free slot, so the results hold for more schedules than asyncio has.
- Parsing of nmap's output structures and of the interface list of psutil: their results are parameters.
- Device ids, `created_at` and `updated_at`: rows and snapshots are keyed by the unique IP address.
- Devices.ComputeHealthScore: uses real arithmetic, as does the percentage shown; binary floating point is not modelled.
- JSON text: `json.dumps`, `JSON.parse` and the schema are one pair of functions that undo each other on one trimmed line; counts beyond 2^53 are not distinguished from exact ones.
- Stream errors, aborts and UTF-8 decoding: a chunk is a sequence of characters, possibly empty.
- The event-stream writer of sse-starlette is not part of this model; the wire form is the one of section 9.2.5 of the HTML Living Standard.
- The audit entries of a scan, and POST /scan with its 403 and 429 branches, the cooldown and query invalidation.
- Refresh calls made by the bootstrap hook rather than by the interceptor.
- The inline stream reader of useOnboarding.ts, an LF-only variant of the same loop.
- Authentication, rate limiting, dashboards, device listing, reports, SMTP, n8n's own workflows and the user interface components.
