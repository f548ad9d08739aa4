/**
 What a write that comes late does, as short runs about one user: a status write whose UPDATE comes after a retry
 its SELECT came before, without H5, and a slow task's write that takes the row back, without H1.
 */
module OnboardingLateWrites {
  import opened Common
  import opened OnboardingModel
  import opened OnboardingRecords
  import opened Directory
  import opened OnboardingProtocol
  import opened OnboardingFencing
  import opened OnboardingTheorems
  import opened OnboardingLimits

  /** All hypotheses but H5. */
  const LATE := Hypotheses(true, true, true, true, false)

  /** All hypotheses but H1. */
  const SLOW := Hypotheses(false, true, true, true, true)

  const NOW: nat := 3 * MINUTE

  function RowOf(job: JobId, externalId: Option<Dn>, st: JobStatus, err: Option<ErrorText>): Row {
    Row(HIRE, ACTIVE, externalId, Some(job), st, "admin", err, None, NOW)
  }

  function TaskAt(kind: Kind, pc: Pc): Task {
    Task(USER, kind, HIRE, "admin", pc)
  }

  /** Where a run stands, with the tasks of several jobs in view. */
  ghost predicate Stage(h: Hypotheses, s: State, row: Option<Row>, entry: bool, tasks: map<JobId, Task>,
                        jobs: set<JobId>)
  {
    && Reachable(h, s) && s.now == NOW && s.lastSweep <= NOW
    && s.rows == (if row.Some? then map[USER := row.value] else map[])
    && s.dir.entries == (if entry then map[ENTRY := Entry(USER, HIRE, "active")] else map[])
    && s.tasks == tasks && s.past.owner.Keys == jobs
  }

  // ---------------------------------------------------------------- the steps the runs are made of

  lemma Retries(h: Hypotheses, s: State, row: Row, entry: bool, tasks: map<JobId, Task>, jobs: set<JobId>,
                job: JobId, newJob: JobId)
    returns (s': State)
    requires Stage(h, s, Some(row), entry, tasks, jobs) && newJob !in jobs
    requires row == RowOf(job, row.externalId, row.jobStatus, row.errorMessage) && Retryable(row.jobStatus)
    requires h.noLateRetry ==> !WritePending(s, USER)
    ensures var kind := if row.externalId.None? then Full else Resumed(false);
            Stage(h, s', Some(RowOf(newJob, row.externalId, PENDING, None)), entry,
                  tasks[newJob := TaskAt(kind, Start)], jobs + {newJob})
    ensures s'.handlers == s.handlers && s'.past.dispatchedAt == s.past.dispatchedAt
    ensures s'.past.retriedAs == s.past.retriedAs[job := newJob]
  {
    var e := Retry(USER, job, newJob, false, "admin");
    assert RowsAfter(s, e) == map[USER := RowOf(newJob, row.externalId, PENDING, None)];
    s' := Goes(h, s, e);
  }

  /** A resumed run's first write, whether or not it carries the job id the row has already. */
  lemma Claims(h: Hypotheses, s: State, row: Row, entry: bool, tasks: map<JobId, Task>, jobs: set<JobId>, j: JobId,
               columns: Columns)
    returns (s': State)
    requires Stage(h, s, Some(row), entry, tasks, jobs) && j in tasks && tasks[j] == TaskAt(Resumed(false), Start)
    requires row.jobId.Some? && row == RowOf(row.jobId.value, row.externalId, row.jobStatus, row.errorMessage)
    requires columns.status && (columns.jobId || row.jobId == Some(j))
    ensures Stage(h, s', Some(RowOf(j, row.externalId, AD_CREATING, row.errorMessage)), entry,
                  tasks[j := TaskAt(Resumed(false), Recorded)], jobs)
    ensures s'.handlers == s.handlers && s'.past.retriedAs == s.past.retriedAs
  {
    var e := Claim(j, columns);
    assert RowsAfter(s, e)[USER] == RowOf(j, row.externalId, AD_CREATING, row.errorMessage);
    s' := Goes(h, s, e);
  }

  lemma Fails(h: Hypotheses, s: State, row: Row, entry: bool, tasks: map<JobId, Task>, jobs: set<JobId>, j: JobId)
    returns (s': State)
    requires Stage(h, s, Some(row), entry, tasks, jobs) && j in tasks && PreDispatch(tasks[j])
    ensures Stage(h, s', Some(row), entry, tasks[j := tasks[j].(pc := Failing)], jobs)
    ensures s'.handlers == s.handlers && s'.past.retriedAs == s.past.retriedAs
  {
    s' := Goes(h, s, Raise(j));
  }

  /** The first half of the failure mark. */
  lemma FindsToMark(h: Hypotheses, s: State, row: Row, entry: bool, tasks: map<JobId, Task>, jobs: set<JobId>, j: JobId)
    returns (s': State, found: Pending)
    requires Stage(h, s, Some(row), entry, tasks, jobs) && At(s, j, Failing) && row.jobId == Some(j)
    ensures Stage(h, s', Some(row), entry, tasks[j := tasks[j].(pc := Marking(found))], jobs)
    ensures found.write == StatusWrite(j, USER, FAILED, None, LoadedFrom(row))
    ensures s'.handlers == s.handlers && s'.past.retriedAs == s.past.retriedAs
  {
    var e := MarkFailed(j, None, Some(USER), LoadedFrom(row));
    assert USER in Holders(s.rows, j);
    found := LookupOf(s, e).value;
    assert RowsAfter(s, e) == s.rows;
    s' := Goes(h, s, e);
  }

  /** The second half, on whatever the row carries by then. */
  lemma Marks(h: Hypotheses, s: State, row: Row, entry: bool, tasks: map<JobId, Task>, jobs: set<JobId>, j: JobId,
              found: Pending)
    returns (s': State)
    requires Stage(h, s, Some(row), entry, tasks, jobs) && At(s, j, Marking(found)) && found.write.user == USER
    ensures Stage(h, s', Some(Flushed(row, found.write, NOW)), entry, tasks - {j}, jobs)
    ensures s'.handlers == s.handlers && s'.past.retriedAs == s.past.retriedAs
  {
    assert PendingOf(s, OfTask(j)) == Some(found);
    assert WriteOf(s, Marked(j)) == Some(found.write);
    s' := Goes(h, s, Marked(j));
  }

  // ---------------------------------------------------------------- a callback late behind a retry

  const SWEPT := RowOf(JOB, Some(ENTRY), PARTIALLY_COMPLETE, Some(NoConfirmation(STALE_MINUTES)))

  /** Dispatched, but without a callback in time: the sweeper gives the job up. */
  lemma GivenUp(h: Hypotheses) returns (s: State)
    ensures Stands(h, s, NOW, true) && Shows(s, Some(SWEPT), true, None, None)
  {
    s := Beginning(h);
    s := Announces(h, s, 0);
    s := Posts(h, s, 0, RowAt(Some(ENTRY), EMAIL_SENDING, None, 0));
    s := Accepts(h, s, 0, RowAt(Some(ENTRY), EMAIL_SENDING, None, 0));
    s := Waits(h, s, NOW, true, RowAt(Some(ENTRY), EMAIL_SENDING, None, 0), None);
    s := Sweeps(h, s, NOW, true, EMAIL_SENDING, None);
  }

  const RESUMED: map<JobId, Task> := map[RETRIED := TaskAt(Resumed(false), Start)]

  /** The callback's SELECT finds the row, then a retry replaces the job. */
  lemma Overtaken(st: JobStatus) returns (s: State, found: Pending)
    requires st in {FAILED, COMPLETED}
    ensures Stage(LATE, s, Some(RowOf(RETRIED, Some(ENTRY), PENDING, None)), true, RESUMED, {JOB, RETRIED})
    ensures CALLBACK in s.handlers && s.handlers[CALLBACK].pc == CallbackFound(found)
    ensures found.write == StatusWrite(JOB, USER, st, None, LoadedFrom(SWEPT))
    ensures JOB in s.past.retriedAs && RETRIED !in s.past.dispatchedAt
  {
    s := GivenUp(LATE);
    s := CallsBack(LATE, s, NOW, true, SWEPT, st, None, None);
    found := s.handlers[CALLBACK].pc.found;
    NotDispatched(LATE, s);
    s := Retries(LATE, s, SWEPT, true, map[], {JOB}, JOB, RETRIED);
  }

  /** Only drawn jobs are dispatched. */
  lemma NotDispatched(h: Hypotheses, s: State)
    requires Stands(h, s, NOW, true)
    ensures RETRIED !in s.past.dispatchedAt
  {
    var r :| Ends(r, h, s);
    AlwaysHolds(r, h, |r.states| - 1);
  }

  /** The callback's UPDATE then hits the retry's row. */
  lemma WritesLate(st: JobStatus) returns (s: State)
    requires st in {FAILED, COMPLETED}
    ensures Stage(LATE, s, Some(RowOf(RETRIED, Some(ENTRY), st, None)), true, RESUMED, {JOB, RETRIED})
    ensures JOB in s.past.retriedAs && RETRIED !in s.past.dispatchedAt
  {
    var found;
    s, found := Overtaken(st);
    assert PendingOf(s, OfHandler(CALLBACK)) == Some(found);
    assert WriteOf(s, CallbackWrite(CALLBACK)) == Some(found.write);
    s := Goes(LATE, s, CallbackWrite(CALLBACK));
  }

  /**
   Without H5, a late COMPLETED callback: the row is COMPLETED and carries a job that was never dispatched and whose
   task has only started; that task then writes over COMPLETED.
   */
  lemma LateCallbackCompletes() returns (s: State, e: Step)
    ensures Reachable(LATE, s) && USER in s.rows && JOB in s.past.retriedAs
    ensures s.rows[USER].jobStatus == COMPLETED && s.rows[USER].jobId == Some(RETRIED)
    ensures Live(s, RETRIED) && s.tasks[RETRIED].user == USER && RETRIED !in s.past.dispatchedAt
    ensures e.Claim? && ChangesFinal(LATE, s, e, COMPLETED, AD_CREATING)
  {
    s := WritesLate(COMPLETED);
    e := Claim(RETRIED, STATUS_ONLY);
    assert RowsAfter(s, e)[USER] == RowOf(RETRIED, Some(ENTRY), AD_CREATING, None);
  }

  const BOTH: map<JobId, Task> :=
    map[RETRIED := TaskAt(Resumed(false), Start), AGAIN := TaskAt(Resumed(false), Start)]

  lemma RetriesAgain() returns (s: State)
    ensures Stage(LATE, s, Some(RowOf(AGAIN, Some(ENTRY), PENDING, None)), true, BOTH, {JOB, RETRIED, AGAIN})
    ensures RETRIED in s.past.retriedAs
  {
    s := WritesLate(FAILED);
    s := Retries(LATE, s, RowOf(RETRIED, Some(ENTRY), FAILED, None), true, RESUMED, {JOB, RETRIED}, RETRIED, AGAIN);
    assert RESUMED[AGAIN := TaskAt(Resumed(false), Start)] == BOTH;
    assert {JOB, RETRIED} + {AGAIN} == {JOB, RETRIED, AGAIN};
  }

  /** Without H5, a late FAILED callback: the retry's job can be retried while its task is live; then there are two. */
  lemma LateCallbackDoublesPipelines() returns (s: State)
    ensures Reachable(LATE, s) && Live(s, RETRIED) && Live(s, AGAIN)
    ensures s.tasks[RETRIED].user == s.tasks[AGAIN].user
  {
    s := RetriesAgain();
  }

  /** The task of a replaced job takes the row back. */
  lemma ClaimsBack() returns (s: State)
    ensures Stage(LATE, s, Some(RowOf(RETRIED, Some(ENTRY), AD_CREATING, None)), true,
                  BOTH[RETRIED := TaskAt(Resumed(false), Recorded)], {JOB, RETRIED, AGAIN})
    ensures RETRIED in s.past.retriedAs
  {
    s := RetriesAgain();
    s := Claims(LATE, s, RowOf(AGAIN, Some(ENTRY), PENDING, None), true, BOTH, {JOB, RETRIED, AGAIN}, RETRIED,
                Columns(true, true));
  }

  /** The retry of a job that a retry has already replaced. */
  ghost predicate RetriesTwice(h: Hypotheses, s: State, e: Step) {
    Reachable(h, s) && Enabled(s, e) && Allowed(h, s, e) && e.Retry? && e.job in s.past.retriedAs
  }

  /** And the job can be retried a second time, once its task has written its id back and failed. */
  lemma LateCallbackRetriesTwice() returns (s: State, e: Step)
    ensures RetriesTwice(LATE, s, e)
  {
    s := ClaimsBack();
    s := FailsAndMarks(LATE, s, RowOf(RETRIED, Some(ENTRY), AD_CREATING, None),
                       BOTH[RETRIED := TaskAt(Resumed(false), Recorded)], {JOB, RETRIED, AGAIN}, RETRIED);
    e := Retry(USER, RETRIED, 13, false, "admin");
  }

  /** A task's failure, marked on its row with nothing in between. */
  lemma FailsAndMarks(h: Hypotheses, s: State, row: Row, tasks: map<JobId, Task>, jobs: set<JobId>, j: JobId)
    returns (s': State)
    requires Stage(h, s, Some(row), true, tasks, jobs) && j in tasks && PreDispatch(tasks[j])
    requires row == RowOf(j, row.externalId, row.jobStatus, row.errorMessage) && row.jobStatus != FAILED
    ensures Stage(h, s', Some(row.(jobStatus := FAILED)), true, tasks - {j}, jobs)
    ensures s'.handlers == s.handlers && s'.past.retriedAs == s.past.retriedAs
  {
    var found;
    s' := Fails(h, s, row, true, tasks, jobs, j);
    var failing := tasks[j := tasks[j].(pc := Failing)];
    s', found := FindsToMark(h, s', row, true, failing, jobs, j);
    var marking := failing[j := failing[j].(pc := Marking(found))];
    s' := Marks(h, s', row, true, marking, jobs, j, found);
    assert marking - {j} == tasks - {j};
  }

  // ---------------------------------------------------------------- a failure mark late behind a retry

  lemma FailsAtOnce() returns (s: State)
    ensures Stands(LATE, s, 0, false) && Shows(s, Some(RowAt(None, PENDING, None, 0)), false, Some(Failing), None)
  {
    s := Onboards(LATE);
    s := Goes(LATE, s, Raise(JOB));
  }

  /** The task failed before it added anything, and has found the row for its failure mark. */
  lemma FindsAtOnce() returns (s: State, found: Pending)
    ensures Stands(LATE, s, 0, false)
    ensures Shows(s, Some(RowAt(None, PENDING, None, 0)), false, Some(Marking(found)), None)
    ensures found.write == StatusWrite(JOB, USER, FAILED, None, Loaded(PENDING, None))
  {
    s := FailsAtOnce();
    var e := MarkFailed(JOB, None, Some(USER), Loaded(PENDING, None));
    assert USER in Holders(s.rows, JOB);
    found := LookupOf(s, e).value;
    assert RowsAfter(s, e) == s.rows;
    s := Goes(LATE, s, e);
  }

  lemma GivesUp(s: State, found: Pending) returns (s': State)
    requires Stands(LATE, s, 0, false)
    requires Shows(s, Some(RowAt(None, PENDING, None, 0)), false, Some(Marking(found)), None)
    ensures Stage(LATE, s', Some(RowOf(JOB, None, FAILED, Some(NoProgress(STALE_MINUTES)))), false,
                  map[JOB := TaskAt(Full, Marking(found))], {JOB})
    ensures s'.handlers == map[]
  {
    s' := Goes(LATE, s, Tick(NOW));
    s' := SweepsMarking(s', found);
  }

  lemma SweepsMarking(s: State, found: Pending) returns (s': State)
    requires Stands(LATE, s, NOW, false)
    requires Shows(s, Some(RowAt(None, PENDING, None, 0)), false, Some(Marking(found)), None)
    ensures Stage(LATE, s', Some(RowOf(JOB, None, FAILED, Some(NoProgress(STALE_MINUTES)))), false,
                  map[JOB := TaskAt(Full, Marking(found))], {JOB})
    ensures s'.handlers == map[]
  {
    s' := Goes(LATE, s, Sweep({}));
  }

  function Two(found: Pending, pc: Pc): map<JobId, Task> {
    map[JOB := TaskAt(Full, Marking(found)), RETRIED := TaskAt(Full, pc)]
  }

  /** Before the failure mark is written, sweeper and retry come by. */
  lemma MarkOvertaken() returns (s: State, found: Pending)
    ensures Stage(LATE, s, Some(RowOf(RETRIED, None, PENDING, None)), false, Two(found, Start), {JOB, RETRIED})
    ensures found.write == StatusWrite(JOB, USER, FAILED, None, Loaded(PENDING, None)) && s.handlers == map[]
  {
    s, found := FindsAtOnce();
    s := GivesUp(s, found);
    var marking := map[JOB := TaskAt(Full, Marking(found))];
    s := Retries(LATE, s, RowOf(JOB, None, FAILED, Some(NoProgress(STALE_MINUTES))), false, marking, {JOB}, JOB,
                 RETRIED);
    assert marking[RETRIED := TaskAt(Full, Start)] == Two(found, Start);
  }

  lemma Provisions(s: State, found: Pending) returns (s': State)
    requires Stage(LATE, s, Some(RowOf(RETRIED, None, PENDING, None)), false, Two(found, Start), {JOB, RETRIED})
    ensures Stage(LATE, s', Some(RowOf(RETRIED, None, PENDING, None)), true, Two(found, Created), {JOB, RETRIED})
    ensures s'.handlers == s.handlers
  {
    HireNamesEntry();
    s' := Goes(LATE, s, Create(RETRIED));
    s' := Goes(LATE, s', JoinGroup(RETRIED, true));
  }

  lemma RecordsRetried(s: State, found: Pending) returns (s': State)
    requires Stage(LATE, s, Some(RowOf(RETRIED, None, PENDING, None)), true, Two(found, Created), {JOB, RETRIED})
    ensures Stage(LATE, s', Some(RowOf(RETRIED, Some(ENTRY), AD_CREATING, None)), true, Two(found, Recorded),
                  {JOB, RETRIED})
    ensures s'.handlers == s.handlers
  {
    HireNamesEntry();
    var e := Record(RETRIED, STATUS_ONLY);
    assert RowsAfter(s, e)[USER] == RowOf(RETRIED, Some(ENTRY), AD_CREATING, None);
    s' := Goes(LATE, s, e);
  }

  lemma SecuresRetried(s: State, found: Pending) returns (s': State)
    requires Stage(LATE, s, Some(RowOf(RETRIED, Some(ENTRY), AD_CREATING, None)), true, Two(found, Recorded),
                   {JOB, RETRIED})
    ensures Stage(LATE, s', Some(RowOf(RETRIED, Some(ENTRY), AD_CREATING, None)), true, Two(found, PasswordSet),
                  {JOB, RETRIED})
    ensures s'.handlers == s.handlers
  {
    HireNamesEntry();
    s' := Goes(LATE, s, SetPassword(RETRIED));
  }

  const SECURED: map<JobId, Task> := map[RETRIED := TaskAt(Full, PasswordSet)]

  /** The late mark: FAILED, on the row of a task at work. */
  lemma MarksLate() returns (s: State)
    ensures Stage(LATE, s, Some(RowOf(RETRIED, Some(ENTRY), FAILED, None)), true, SECURED, {JOB, RETRIED})
    ensures s.handlers == map[]
  {
    var found;
    s, found := MarkOvertaken();
    s := Provisions(s, found);
    s := RecordsRetried(s, found);
    s := SecuresRetried(s, found);
    s := Marks(LATE, s, RowOf(RETRIED, Some(ENTRY), AD_CREATING, None), true, Two(found, PasswordSet), {JOB, RETRIED},
               JOB, found);
    assert Two(found, PasswordSet) - {JOB} == SECURED;
  }

  lemma ChecksRetried(s: State) returns (s': State)
    requires Stage(LATE, s, Some(RowOf(RETRIED, Some(ENTRY), FAILED, None)), true, SECURED, {JOB, RETRIED})
    requires s.handlers == map[]
    ensures Stage(LATE, s', Some(RowOf(RETRIED, Some(ENTRY), FAILED, None)), true, SECURED, {JOB, RETRIED})
    ensures HANDLER in s'.handlers && s'.handlers[HANDLER].user == USER
    ensures s'.handlers[HANDLER].pc == RollbackChecked(true)
  {
    s' := Goes(LATE, s, RollbackCheck(HANDLER, USER));
  }

  lemma RollsBackRetried(s: State) returns (s': State)
    requires Stage(LATE, s, Some(RowOf(RETRIED, Some(ENTRY), FAILED, None)), true, SECURED, {JOB, RETRIED})
    requires HANDLER in s.handlers && s.handlers[HANDLER].user == USER
    requires s.handlers[HANDLER].pc == RollbackChecked(true)
    ensures Stage(LATE, s', None, false, SECURED, {JOB, RETRIED})
  {
    assert Matching(s.dir, USER) == {ENTRY};
    s' := Goes(LATE, s, RollbackCommit(HANDLER, ENTRY, ACCEPTED, true));
  }

  lemma AnnouncesRetried(s: State) returns (s': State)
    requires Stage(LATE, s, None, false, SECURED, {JOB, RETRIED})
    ensures Reachable(LATE, s') && s'.dir.entries == map[]
    ensures s'.rows == map[USER := RowOf(RETRIED, Some(ENTRY), EMAIL_SENDING, None)]
  {
    HireNamesEntry();
    s' := Goes(LATE, s, Announce(RETRIED, Columns(true, true), true));
  }

  /** Without H5, a late failure mark frees a live task's row for rollback, and the task inserts it again. */
  lemma WithoutTimelyRetries() returns (s: State)
    ensures Reachable(LATE, s) && Dangling(s)
  {
    s := MarksLate();
    s := ChecksRetried(s);
    s := RollsBackRetried(s);
    s := AnnouncesRetried(s);
    assert USER in s.rows;
  }

  // ---------------------------------------------------------------- a slow task's own write

  const ANNOUNCING: map<JobId, Task> :=
    map[JOB := TaskAt(Full, PasswordSet), RETRIED := TaskAt(Resumed(false), Start)]

  /** Without H1, the sweeper gives a task up that is only slow, and a retry replaces its job. */
  lemma SlowTaskReplaced() returns (s: State)
    ensures Stage(SLOW, s, Some(RowOf(RETRIED, Some(ENTRY), PENDING, None)), true, ANNOUNCING, {JOB, RETRIED})
    ensures JOB in s.past.retriedAs && s.handlers == map[]
  {
    s := Beginning(SLOW);
    s := Waits(SLOW, s, NOW, false, RowAt(Some(ENTRY), AD_CREATING, None, 0), Some(PasswordSet));
    s := Sweeps(SLOW, s, NOW, false, AD_CREATING, Some(PasswordSet));
    var slow := map[JOB := TaskAt(Full, PasswordSet)];
    s := Retries(SLOW, s, SWEPT, true, slow, {JOB}, JOB, RETRIED);
    assert slow[RETRIED := TaskAt(Resumed(false), Start)] == ANNOUNCING;
  }

  /** The slow task then writes its id back. */
  lemma AnnouncesBack() returns (s: State)
    ensures Stage(SLOW, s, Some(RowOf(JOB, Some(ENTRY), EMAIL_SENDING, None)), true,
                  ANNOUNCING[JOB := TaskAt(Full, Announced)], {JOB, RETRIED})
    ensures JOB in s.past.retriedAs && s.handlers == map[]
  {
    HireNamesEntry();
    s := SlowTaskReplaced();
    var e := Announce(JOB, Columns(true, true), true);
    assert RowsAfter(s, e)[USER] == RowOf(JOB, Some(ENTRY), EMAIL_SENDING, None);
    s := Goes(SLOW, s, e);
  }

  /** Without H1, a job that has been retried can be retried again, once its task has written its id back and failed. */
  lemma SlowTaskRetriesTwice() returns (s: State, e: Step)
    ensures RetriesTwice(SLOW, s, e)
  {
    s := AnnouncesBack();
    s := FailsAndMarks(SLOW, s, RowOf(JOB, Some(ENTRY), EMAIL_SENDING, None),
                       ANNOUNCING[JOB := TaskAt(Full, Announced)], {JOB, RETRIED}, JOB);
    e := Retry(USER, JOB, AGAIN, false, "admin");
  }
}
