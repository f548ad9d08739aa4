/**
 What can happen, as short runs about one user. Per hypothesis there is one that keeps the other four and ends
 with a row whose recorded entry does not exist. The rest, under all five hypotheses unless they say otherwise,
 show accounts that no row knows, statuses that change or rows that go although they ought to be final, and what a
 retry between the two halves of a status write does.
 */
module OnboardingLimits {
  import opened Common
  import opened OnboardingModel
  import opened OnboardingRecords
  import opened Directory
  import opened OnboardingProtocol

  const USER: UserId := 1
  const JOB: JobId := 10
  const RETRIED: JobId := 11
  const AGAIN: JobId := 12
  const HANDLER: nat := 0
  const CALLBACK: nat := 1
  const HIRE := Profile("Ada", "Lane", "a@b", "IT", "Engineer")
  const ENTRY := UserDn("a")
  const ACCEPTED := Answer({}, true)

  /** A task's write to the row of its own job changes the status and finds its job id there. */
  const STATUS_ONLY := Columns(false, true)

  lemma HireNamesEntry()
    ensures DnOf(HIRE.email) == ENTRY
  {
    assert LocalPart("a@b") == ['a'] + LocalPart("a@b"[1..]);
  }

  /** The state as far as the runs below look at it. */
  ghost predicate Shows(s: State, row: Option<Row>, entry: bool, pc: Option<Pc>, handler: Option<HandlerPc>) {
    && s.rows == (if row.Some? then map[USER := row.value] else map[])
    && s.dir.entries == (if entry then map[ENTRY := Entry(USER, HIRE, "active")] else map[])
    && s.tasks == (if pc.Some? then map[JOB := Task(USER, Full, HIRE, "admin", pc.value)] else map[])
    && s.handlers.Keys == (if handler.Some? then {HANDLER} else {})
    && (handler.Some? ==> s.handlers[HANDLER].user == USER && s.handlers[HANDLER].pc == handler.value)
  }

  function RowAt(externalId: Option<Dn>, st: JobStatus, err: Option<ErrorText>, updatedAt: nat): Row {
    Row(HIRE, ACTIVE, externalId, Some(JOB), st, "admin", err, None, updatedAt)
  }

  // ---------------------------------------------------------------- growing a run

  ghost predicate Ends(r: Run, h: Hypotheses, s: State) {
    IsRun(r, h) && r.states[|r.states| - 1] == s
  }

  ghost predicate Reachable(h: Hypotheses, s: State) {
    exists r :: Ends(r, h, s)
  }

  lemma Grow(h: Hypotheses, s: State, e: Step)
    requires Reachable(h, s) && Enabled(s, e) && Allowed(h, s, e)
    ensures Reachable(h, Next(s, e))
  {
    var r :| Ends(r, h, s);
    var r' := Run(r.states + [Next(s, e)], r.steps + [e]);
    forall i | 0 <= i < |r'.steps| ensures RunStep(r', h, i) {
      if i < |r.steps| {
        StepKept(r, r', h, i);
      }
    }
    assert Ends(r', h, Next(s, e));
  }

  lemma StepKept(r: Run, r': Run, h: Hypotheses, i: nat)
    requires IsRun(r, h) && i < |r.steps| < |r'.steps| && |r'.states| == |r'.steps| + 1
    requires r'.steps[i] == r.steps[i] && r'.states[i] == r.states[i] && r'.states[i + 1] == r.states[i + 1]
    ensures RunStep(r', h, i)
  {
    assert RunStep(r, h, i);
  }

  /** One more step, component by component. */
  lemma Goes(h: Hypotheses, s: State, e: Step) returns (s': State)
    requires Reachable(h, s) && Enabled(s, e) && Allowed(h, s, e)
    ensures Reachable(h, s')
    ensures s'.rows == RowsAfter(s, e) && s'.dir == DirAfter(s, e) && s'.tasks == TasksAfter(s, e)
    ensures s'.handlers == HandlersAfter(s, e)
    ensures s'.now == (if e.Tick? then s.now + e.elapsed else s.now)
    ensures s'.lastSweep == (if e.Sweep? then s.now else s.lastSweep)
    ensures s'.past.dispatchedAt == DispatchedAfter(s, e) && s'.past.owner == OwnerAfter(s, e)
    ensures s'.past.retriedAs == RetriedAfter(s, e)
  {
    Grow(h, s, e);
    s' := Next(s, e);
  }

  /** A reachable state with the clock and the dispatched jobs in view. */
  ghost predicate Stands(h: Hypotheses, s: State, now: nat, posted: bool) {
    && Reachable(h, s) && s.now == now && s.lastSweep <= now
    && (posted <==> JOB in s.past.dispatchedAt) && s.past.owner.Keys == {JOB}
  }

  // ---------------------------------------------------------------- the steps the runs are made of

  lemma Onboards(h: Hypotheses) returns (s: State)
    ensures Stands(h, s, 0, false) && Shows(s, Some(RowAt(None, PENDING, None, 0)), false, Some(Start), None)
  {
    var s0 := State(map[], Contents(map[], map[]), map[], map[], 0, 0,
        History(0, map[], map[], map[], map[], map[], {}, {}));
    assert Ends(Run([s0], []), h, s0);
    var e := Onboard(USER, JOB, HIRE, "admin");
    assert RowsAfter(s0, e) == map[USER := RowAt(None, PENDING, None, 0)];
    s := Goes(h, s0, e);
  }

  lemma Creates(h: Hypotheses, s: State, now: nat, row: Row) returns (s': State)
    requires Stands(h, s, now, false) && Shows(s, Some(row), false, Some(Start), None)
    ensures Stands(h, s', now, false) && Shows(s', Some(row), true, Some(Added), None)
  {
    HireNamesEntry();
    s' := Goes(h, s, Create(JOB));
  }

  lemma Joins(h: Hypotheses, s: State, now: nat, row: Row) returns (s': State)
    requires Stands(h, s, now, false) && Shows(s, Some(row), true, Some(Added), None)
    ensures Stands(h, s', now, false) && Shows(s', Some(row), true, Some(Created), None)
  {
    s' := Goes(h, s, JoinGroup(JOB, true));
  }

  lemma Records(h: Hypotheses, s: State, now: nat) returns (s': State)
    requires Stands(h, s, now, false) && Shows(s, Some(RowAt(None, PENDING, None, now)), true, Some(Created), None)
    ensures Stands(h, s', now, false)
    ensures Shows(s', Some(RowAt(Some(ENTRY), AD_CREATING, None, now)), true, Some(Recorded), None)
  {
    HireNamesEntry();
    assert RowsAfter(s, Record(JOB, STATUS_ONLY))[USER] == RowAt(Some(ENTRY), AD_CREATING, None, now);
    s' := Goes(h, s, Record(JOB, STATUS_ONLY));
  }

  lemma SetsPassword(h: Hypotheses, s: State, now: nat, row: Row) returns (s': State)
    requires Stands(h, s, now, false) && Shows(s, Some(row), true, Some(Recorded), None)
    ensures Stands(h, s', now, false) && Shows(s', Some(row), true, Some(PasswordSet), None)
  {
    HireNamesEntry();
    s' := Goes(h, s, SetPassword(JOB));
  }

  /** The common beginning: the account exists, is recorded, and has its password. */
  lemma Beginning(h: Hypotheses) returns (s: State)
    ensures Stands(h, s, 0, false)
    ensures Shows(s, Some(RowAt(Some(ENTRY), AD_CREATING, None, 0)), true, Some(PasswordSet), None)
  {
    s := Onboards(h);
    s := Creates(h, s, 0, RowAt(None, PENDING, None, 0));
    s := Joins(h, s, 0, RowAt(None, PENDING, None, 0));
    s := Records(h, s, 0);
    s := SetsPassword(h, s, 0, RowAt(Some(ENTRY), AD_CREATING, None, 0));
  }

  lemma Announces(h: Hypotheses, s: State, now: nat) returns (s': State)
    requires Stands(h, s, now, false)
    requires Shows(s, Some(RowAt(Some(ENTRY), AD_CREATING, None, now)), true, Some(PasswordSet), None)
    ensures Stands(h, s', now, false)
    ensures Shows(s', Some(RowAt(Some(ENTRY), EMAIL_SENDING, None, now)), true, Some(Announced), None)
  {
    HireNamesEntry();
    s' := Goes(h, s, Announce(JOB, STATUS_ONLY, true));
  }

  /** The full run's second upsert inserts the row a rollback deleted. */
  lemma AnnouncesUnderRollback(h: Hypotheses, s: State, now: nat, posted: bool) returns (s': State)
    requires Stands(h, s, now, posted) && Shows(s, None, false, Some(PasswordSet), None)
    ensures Stands(h, s', now, posted)
    ensures Shows(s', Some(RowAt(Some(ENTRY), EMAIL_SENDING, None, now)), false, Some(Announced), None)
  {
    HireNamesEntry();
    s' := Goes(h, s, Announce(JOB, STATUS_ONLY, true));
  }

  lemma Posts(h: Hypotheses, s: State, now: nat, row: Row) returns (s': State)
    requires Stands(h, s, now, false) && Shows(s, Some(row), true, Some(Announced), None)
    ensures Stands(h, s', now, true) && Shows(s', Some(row), true, Some(Posted), None)
  {
    s' := Goes(h, s, Post(JOB));
  }

  lemma Accepts(h: Hypotheses, s: State, now: nat, row: Row) returns (s': State)
    requires Stands(h, s, now, true) && Shows(s, Some(row), true, Some(Posted), None)
    ensures Stands(h, s', now, true) && Shows(s', Some(row), true, None, None)
  {
    s' := Goes(h, s, Accepted(JOB));
  }

  lemma Waits(h: Hypotheses, s: State, elapsed: nat, posted: bool, row: Row, pc: Option<Pc>) returns (s': State)
    requires Stands(h, s, 0, posted) && Shows(s, Some(row), true, pc, None)
    ensures Stands(h, s', elapsed, posted) && Shows(s', Some(row), true, pc, None)
  {
    s' := Goes(h, s, Tick(elapsed));
  }

  lemma Sweeps(h: Hypotheses, s: State, now: nat, posted: bool, st: JobStatus, pc: Option<Pc>) returns (s': State)
    requires Stands(h, s, now, posted) && Shows(s, Some(RowAt(Some(ENTRY), st, None, 0)), true, pc, None)
    requires InProgress(st) && now > STALE_TIMEOUT && (h.stagesFresh ==> pc.None?)
    ensures Stands(h, s', now, posted)
    ensures Shows(s', Some(RowAt(Some(ENTRY), PARTIALLY_COMPLETE, Some(NoConfirmation(STALE_MINUTES)), now)), true,
            pc, None)
  {
    s' := Goes(h, s, Sweep({}));
  }

  lemma Reports(h: Hypotheses, s: State, now: nat, posted: bool, row: Row, st: JobStatus, pc: Option<Pc>,
                handler: Option<HandlerPc>)
    returns (s': State)
    requires Stands(h, s, now, posted) && Shows(s, Some(row), true, pc, handler) && row.jobId == Some(JOB)
    requires row.updatedAt == now
    requires st in {FAILED, COMPLETED} && (h.callbacksDispatched ==> posted)
    ensures Stands(h, s', now, posted) && Shows(s', Some(row.(jobStatus := st)), true, pc, handler)
  {
    var w := StatusWrite(JOB, USER, st, None, LoadedFrom(row));
    s' := CallsBack(h, s, now, posted, row, st, pc, handler);
    s' := Updates(h, s', now, posted, row, w, pc, handler);
  }

  /** The first half: the SELECT finds the row. */
  lemma CallsBack(h: Hypotheses, s: State, now: nat, posted: bool, row: Row, st: JobStatus, pc: Option<Pc>,
                  handler: Option<HandlerPc>)
    returns (s': State)
    requires Stands(h, s, now, posted) && Shows(s, Some(row), true, pc, handler) && row.jobId == Some(JOB)
    requires st in {FAILED, COMPLETED} && (h.callbacksDispatched ==> posted)
    ensures Stands(h, s', now, posted)
    ensures ShowsFound(s', row, pc, handler, StatusWrite(JOB, USER, st, None, LoadedFrom(row)))
  {
    var e := Callback(CALLBACK, JOB, st, None, Some(USER), LoadedFrom(row));
    assert USER in Holders(s.rows, JOB);
    assert RowsAfter(s, e) == s.rows;
    s' := Goes(h, s, e);
  }

  /** As `Shows`, with a callback's status write pending. */
  ghost predicate ShowsFound(s: State, row: Row, pc: Option<Pc>, handler: Option<HandlerPc>, w: StatusWrite) {
    && s.rows == map[USER := row]
    && s.dir.entries == map[ENTRY := Entry(USER, HIRE, "active")]
    && s.tasks == (if pc.Some? then map[JOB := Task(USER, Full, HIRE, "admin", pc.value)] else map[])
    && s.handlers.Keys == (if handler.Some? then {HANDLER, CALLBACK} else {CALLBACK})
    && s.handlers[CALLBACK].pc.CallbackFound? && s.handlers[CALLBACK].pc.found.write == w
    && (handler.Some? ==> s.handlers[HANDLER].user == USER && s.handlers[HANDLER].pc == handler.value)
  }

  /** The second half. */
  lemma Updates(h: Hypotheses, s: State, now: nat, posted: bool, row: Row, w: StatusWrite, pc: Option<Pc>,
                handler: Option<HandlerPc>)
    returns (s': State)
    requires Stands(h, s, now, posted) && ShowsFound(s, row, pc, handler, w) && w.user == USER
    ensures Stands(h, s', now, posted) && Shows(s', Some(Flushed(row, w, now)), true, pc, handler)
  {
    var e := CallbackWrite(CALLBACK);
    assert PendingOf(s, OfHandler(CALLBACK)) == Some(s.handlers[CALLBACK].pc.found);
    assert WriteOf(s, e) == Some(w);
    assert RowsAfter(s, e) == StatusFlushed(s.rows, w, now);
    s' := Goes(h, s, e);
  }

  lemma Fails(h: Hypotheses, s: State, now: nat, posted: bool, row: Row, pc: Pc) returns (s': State)
    requires Stands(h, s, now, posted) && Shows(s, Some(row), true, Some(pc), None)
    requires pc != Failing && !pc.Marking?
    ensures Stands(h, s', now, posted) && Shows(s', Some(row), true, Some(Failing), None)
  {
    assert RowsAfter(s, Raise(JOB)) == s.rows && DirAfter(s, Raise(JOB)) == s.dir;
    s' := Goes(h, s, Raise(JOB));
  }

  lemma MarksFailed(h: Hypotheses, s: State, now: nat, posted: bool, row: Row) returns (s': State)
    requires Stands(h, s, now, posted) && Shows(s, Some(row), true, Some(Failing), None)
    requires row.jobId == Some(JOB) && row.updatedAt == now
    ensures Stands(h, s', now, posted) && Shows(s', Some(row.(jobStatus := FAILED)), true, None, None)
  {
    var found;
    s', found := FindsToMark(h, s, now, posted, row);
    s' := Marks(h, s', now, posted, row, found);
  }

  lemma FindsToMark(h: Hypotheses, s: State, now: nat, posted: bool, row: Row) returns (s': State, found: Pending)
    requires Stands(h, s, now, posted) && Shows(s, Some(row), true, Some(Failing), None) && row.jobId == Some(JOB)
    ensures Stands(h, s', now, posted) && Shows(s', Some(row), true, Some(Marking(found)), None)
    ensures found.write == StatusWrite(JOB, USER, FAILED, None, LoadedFrom(row))
  {
    var e := MarkFailed(JOB, None, Some(USER), LoadedFrom(row));
    assert USER in Holders(s.rows, JOB);
    found := LookupOf(s, e).value;
    assert RowsAfter(s, e) == s.rows;
    s' := Goes(h, s, e);
  }

  lemma Marks(h: Hypotheses, s: State, now: nat, posted: bool, row: Row, found: Pending) returns (s': State)
    requires Stands(h, s, now, posted) && Shows(s, Some(row), true, Some(Marking(found)), None)
    requires found.write.user == USER
    ensures Stands(h, s', now, posted) && Shows(s', Some(Flushed(row, found.write, now)), true, None, None)
  {
    assert PendingOf(s, OfTask(JOB)) == Some(found);
    assert WriteOf(s, Marked(JOB)) == Some(found.write);
    s' := Goes(h, s, Marked(JOB));
  }

  /** A failure behind the first commit: FAILED, recorded, and with its account. */
  lemma FailsRecorded(h: Hypotheses) returns (s: State)
    ensures Stands(h, s, 0, false) && Shows(s, Some(RowAt(Some(ENTRY), FAILED, None, 0)), true, None, None)
  {
    s := Beginning(h);
    s := Fails(h, s, 0, false, RowAt(Some(ENTRY), AD_CREATING, None, 0), PasswordSet);
    s := MarksFailed(h, s, 0, false, RowAt(Some(ENTRY), AD_CREATING, None, 0));
  }

  /** A failure right behind the LDAP add, as when the department's group cannot be created. */
  lemma FailsUnrecorded(h: Hypotheses) returns (s: State)
    ensures Stands(h, s, 0, false) && Shows(s, Some(RowAt(None, FAILED, None, 0)), true, None, None)
  {
    s := Onboards(h);
    s := Creates(h, s, 0, RowAt(None, PENDING, None, 0));
    s := Fails(h, s, 0, false, RowAt(None, PENDING, None, 0), Added);
    s := MarksFailed(h, s, 0, false, RowAt(None, PENDING, None, 0));
  }

  lemma ChecksRollback(h: Hypotheses, s: State, now: nat, posted: bool, row: Row, pc: Option<Pc>) returns (s': State)
    requires Stands(h, s, now, posted) && Shows(s, Some(row), true, pc, None) && Retryable(row.jobStatus)
    requires row.externalId.Some?
    ensures Stands(h, s', now, posted) && Shows(s', Some(row), true, pc, Some(RollbackChecked(true)))
  {
    s' := Goes(h, s, RollbackCheck(HANDLER, USER));
  }

  lemma RollsBack(h: Hypotheses, s: State, now: nat, posted: bool, row: Row, pc: Option<Pc>, audited: bool)
    returns (s': State)
    requires Stands(h, s, now, posted) && Shows(s, Some(row), true, pc, Some(RollbackChecked(true)))
    requires h.auditsSucceed ==> audited
    ensures Stands(h, s', now, posted) && Shows(s', if audited then None else Some(row), false, pc, None)
  {
    assert Matching(s.dir, USER) == {ENTRY};
    s' := Goes(h, s, RollbackCommit(HANDLER, ENTRY, ACCEPTED, audited));
  }

  lemma PurgesOnly(h: Hypotheses, s: State, now: nat, row: Row) returns (s': State)
    requires Stands(h, s, now, false) && Shows(s, Some(row), true, None, Some(RollbackChecked(true)))
    requires !h.rollbackAtomic
    ensures Stands(h, s', now, false) && Shows(s', Some(row), false, None, Some(RollbackPurged))
  {
    assert Matching(s.dir, USER) == {ENTRY};
    s' := Goes(h, s, RollbackDirectory(HANDLER, ENTRY, ACCEPTED));
  }

  // ---------------------------------------------------------------- one hypothesis at a time

  /** A row whose recorded external id names no entry. */
  ghost predicate Dangling(s: State) {
    exists u :: u in s.rows && s.rows[u].externalId.Some? && s.rows[u].externalId.value !in s.dir.entries
  }

  lemma ShownDangling(s: State, st: JobStatus, updatedAt: nat, pc: Option<Pc>, handler: Option<HandlerPc>)
    requires Shows(s, Some(RowAt(Some(ENTRY), st, None, updatedAt)), false, pc, handler)
    ensures Dangling(s)
  {
    assert USER in s.rows;
  }

  /** Without H1, the sweeper frees a live task's row for rollback, and the task inserts it again. */
  lemma WithoutFreshStages() returns (s: State)
    ensures Reachable(Hypotheses(false, true, true, true, true), s) && Dangling(s)
  {
    var h := Hypotheses(false, true, true, true, true);
    s := Beginning(h);
    s := Waits(h, s, 3 * MINUTE, false, RowAt(Some(ENTRY), AD_CREATING, None, 0), Some(PasswordSet));
    s := Sweeps(h, s, 3 * MINUTE, false, AD_CREATING, Some(PasswordSet));
    var row := RowAt(Some(ENTRY), PARTIALLY_COMPLETE, Some(NoConfirmation(STALE_MINUTES)), 3 * MINUTE);
    s := ChecksRollback(h, s, 3 * MINUTE, false, row, Some(PasswordSet));
    s := RollsBack(h, s, 3 * MINUTE, false, row, Some(PasswordSet), true);
    s := AnnouncesUnderRollback(h, s, 3 * MINUTE, false);
    ShownDangling(s, EMAIL_SENDING, 3 * MINUTE, Some(Announced), None);
  }

  /** Without H2, a callback for a job that never dispatched does the same. */
  lemma WithoutDispatchedCallbacks() returns (s: State)
    ensures Reachable(Hypotheses(true, false, true, true, true), s) && Dangling(s)
  {
    var h := Hypotheses(true, false, true, true, true);
    s := Beginning(h);
    s := Reports(h, s, 0, false, RowAt(Some(ENTRY), AD_CREATING, None, 0), FAILED, Some(PasswordSet), None);
    s := ChecksRollback(h, s, 0, false, RowAt(Some(ENTRY), FAILED, None, 0), Some(PasswordSet));
    s := RollsBack(h, s, 0, false, RowAt(Some(ENTRY), FAILED, None, 0), Some(PasswordSet), true);
    s := AnnouncesUnderRollback(h, s, 0, false);
    ShownDangling(s, EMAIL_SENDING, 0, Some(Announced), None);
  }

  /** Without H3, the failed audit write brings the deleted row back, but not the entry. */
  lemma WithoutAudits() returns (s: State)
    ensures Reachable(Hypotheses(true, true, false, true, true), s) && Dangling(s)
  {
    var h := Hypotheses(true, true, false, true, true);
    s := FailsRecorded(h);
    s := ChecksRollback(h, s, 0, false, RowAt(Some(ENTRY), FAILED, None, 0), None);
    s := RollsBack(h, s, 0, false, RowAt(Some(ENTRY), FAILED, None, 0), None, false);
    ShownDangling(s, FAILED, 0, None, None);
  }

  /** Without H4, the rollback can stop between its two deletes. */
  lemma WithoutAtomicRollback() returns (s: State)
    ensures Reachable(Hypotheses(true, true, true, false, true), s) && Dangling(s)
  {
    var h := Hypotheses(true, true, true, false, true);
    s := FailsRecorded(h);
    s := ChecksRollback(h, s, 0, false, RowAt(Some(ENTRY), FAILED, None, 0), None);
    s := PurgesOnly(h, s, 0, RowAt(Some(ENTRY), FAILED, None, 0));
    ShownDangling(s, FAILED, 0, None, Some(RollbackPurged));
  }

  const ALL := Hypotheses(true, true, true, true, true)

  // ---------------------------------------------------------------- accounts

  /** FAILED with the account recorded and there. */
  lemma FailedCanHaveAccount() returns (s: State)
    ensures Reachable(ALL, s)
    ensures exists u ::
              && u in s.rows && s.rows[u].jobStatus == FAILED && s.rows[u].externalId.Some?
              && s.rows[u].externalId.value in s.dir.entries
  {
    s := FailsRecorded(ALL);
    assert USER in s.rows;
  }

  /** FAILED with nothing recorded, no task left, and the account there all the same. */
  lemma FailedCanHaveUnrecordedAccount() returns (s: State)
    ensures Reachable(ALL, s) && s.tasks == map[]
    ensures exists u ::
              u in s.rows && s.rows[u].jobStatus == FAILED && s.rows[u].externalId.None? && Matching(s.dir, u) != {}
  {
    s := FailsUnrecorded(ALL);
    assert USER in s.rows && ENTRY in Matching(s.dir, USER);
  }

  /** The retry of such a row collides with its own user's entry. */
  lemma RetryCanCollideWithItself() returns (s: State, e: Step)
    ensures Reachable(ALL, s) && Enabled(s, e) && Allowed(ALL, s, e) && e.CreateConflict? && e.job in s.tasks
    ensures var t := s.tasks[e.job];
            DnOf(t.profile.email) in s.dir.entries && s.dir.entries[DnOf(t.profile.email)].employeeNumber == t.user
  {
    HireNamesEntry();
    s := FailsUnrecorded(ALL);
    Grow(ALL, s, Retry(USER, JOB, RETRIED, true, "admin"));
    s := Next(s, Retry(USER, JOB, RETRIED, true, "admin"));
    e := CreateConflict(RETRIED);
  }

  lemma ChecksUnrecorded(h: Hypotheses, s: State, row: Row) returns (s': State)
    requires Stands(h, s, 0, false) && Shows(s, Some(row), true, None, None)
    requires Retryable(row.jobStatus) && row.externalId.None?
    ensures Stands(h, s', 0, false) && Shows(s', Some(row), true, None, Some(RollbackChecked(false)))
  {
    s' := Goes(h, s, RollbackCheck(HANDLER, USER));
  }

  /** The rollback of such a row deletes it and leaves the account to nobody. */
  lemma RollbackCanOrphanUnrecorded() returns (s: State)
    ensures Reachable(ALL, s) && s.rows == map[] && s.tasks == map[] && Matching(s.dir, USER) != {}
  {
    s := FailsUnrecorded(ALL);
    s := ChecksUnrecorded(ALL, s, RowAt(None, FAILED, None, 0));
    var e := RollbackCommit(HANDLER, ENTRY, ACCEPTED, true);
    Grow(ALL, s, e);
    assert ENTRY in Matching(Next(s, e).dir, USER);
    s := Next(s, e);
  }

  /** A delete the server refuses goes unnoticed, and so does what it leaves behind. */
  lemma RollbackCanOrphanRefused() returns (s: State)
    ensures Reachable(ALL, s) && s.rows == map[] && s.tasks == map[] && Matching(s.dir, USER) != {}
  {
    s := FailsRecorded(ALL);
    s := ChecksRollback(ALL, s, 0, false, RowAt(Some(ENTRY), FAILED, None, 0), None);
    assert Matching(s.dir, USER) == {ENTRY};
    var e := RollbackCommit(HANDLER, ENTRY, Answer({}, false), true);
    Grow(ALL, s, e);
    assert ENTRY in Matching(Next(s, e).dir, USER);
    s := Next(s, e);
  }

  // ---------------------------------------------------------------- final statuses

  /** The step changes the status of a COMPLETED or FAILED row that stays. */
  ghost predicate ChangesFinal(h: Hypotheses, s: State, e: Step, from: JobStatus, to: JobStatus) {
    && Reachable(h, s) && Enabled(s, e) && Allowed(h, s, e) && from in {COMPLETED, FAILED} && from != to
    && USER in s.rows && USER in Next(s, e).rows
    && s.rows[USER].jobStatus == from && Next(s, e).rows[USER].jobStatus == to
  }

  lemma RetryLeavesFailed() returns (s: State, e: Step)
    ensures e.Retry? && ChangesFinal(ALL, s, e, FAILED, PENDING)
  {
    s := FailsRecorded(ALL);
    e := Retry(USER, JOB, RETRIED, true, "admin");
  }

  /** n8n has been called and has reported COMPLETED; how the call itself ended is still open. */
  lemma CompletesWhilePosted() returns (s: State)
    ensures Stands(ALL, s, 0, true) && Shows(s, Some(RowAt(Some(ENTRY), COMPLETED, None, 0)), true, Some(Posted), None)
  {
    s := Beginning(ALL);
    s := Announces(ALL, s, 0);
    s := Posts(ALL, s, 0, RowAt(Some(ENTRY), EMAIL_SENDING, None, 0));
    s := Reports(ALL, s, 0, true, RowAt(Some(ENTRY), EMAIL_SENDING, None, 0), COMPLETED, Some(Posted), None);
  }

  lemma CallbackLeavesCompleted() returns (s: State, e: Step)
    ensures e.CallbackWrite? && ChangesFinal(ALL, s, e, COMPLETED, FAILED)
  {
    s := CalledBackWhileCompleted();
    var found := s.handlers[CALLBACK].pc.found;
    e := CallbackWrite(CALLBACK);
    assert PendingOf(s, OfHandler(CALLBACK)) == Some(found);
    WritesOver(s, e, OfHandler(CALLBACK), found);
  }

  lemma CalledBackWhileCompleted() returns (s: State)
    ensures Stands(ALL, s, 0, true)
    ensures ShowsFound(s, RowAt(Some(ENTRY), COMPLETED, None, 0), Some(Posted), None,
                       StatusWrite(JOB, USER, FAILED, None, Loaded(COMPLETED, None)))
  {
    s := CompletesWhilePosted();
    s := CallsBack(ALL, s, 0, true, RowAt(Some(ENTRY), COMPLETED, None, 0), FAILED, Some(Posted), None);
  }

  /** Any status write that found the COMPLETED row. */
  lemma WritesOver(s: State, e: Step, p: Writer, found: Pending)
    requires Reachable(ALL, s) && s.rows.Keys == {USER} && s.rows[USER].jobStatus == COMPLETED
    requires WriterOf(e) == Some(p) && PendingOf(s, p) == Some(found) && Enabled(s, e) && Allowed(ALL, s, e)
    requires found.write.user == USER && found.write.to != COMPLETED && SetsStatus(found.write)
    ensures ChangesFinal(ALL, s, e, COMPLETED, found.write.to)
  {
    assert RowsAfter(s, e) == StatusFlushed(s.rows, found.write, s.now);
  }

  /** The call reached n8n, but its answer did not reach us. */
  lemma RefusalLeavesCompleted() returns (s: State, e: Step)
    ensures e.Noted? && ChangesFinal(ALL, s, e, COMPLETED, PARTIALLY_COMPLETE)
  {
    var found;
    s, found := RefusedWhileCompleted();
    e := Noted(JOB);
    assert PendingOf(s, OfTask(JOB)) == Some(found);
    WritesOver(s, e, OfTask(JOB), found);
  }

  lemma RefusedWhileCompleted() returns (s: State, found: Pending)
    ensures Stands(ALL, s, 0, true)
    ensures Shows(s, Some(RowAt(Some(ENTRY), COMPLETED, None, 0)), true, Some(Noting(found)), None)
    ensures found.write == StatusWrite(JOB, USER, PARTIALLY_COMPLETE, Some(UNREACHABLE), Loaded(COMPLETED, None))
  {
    s := CompletesWhilePosted();
    s, found := FindsToNote(s, RowAt(Some(ENTRY), COMPLETED, None, 0));
  }

  lemma FindsToNote(s: State, row: Row) returns (s': State, found: Pending)
    requires Stands(ALL, s, 0, true) && Shows(s, Some(row), true, Some(Posted), None) && row.jobId == Some(JOB)
    ensures Stands(ALL, s', 0, true) && Shows(s', Some(row), true, Some(Noting(found)), None)
    ensures found.write == StatusWrite(JOB, USER, PARTIALLY_COMPLETE, Some(UNREACHABLE), LoadedFrom(row))
  {
    var e := Refused(JOB, Some(USER), LoadedFrom(row));
    assert USER in Holders(s.rows, JOB);
    found := LookupOf(s, e).value;
    assert RowsAfter(s, e) == s.rows;
    s' := Goes(ALL, s, e);
  }

  lemma CompletesAndFails() returns (s: State)
    ensures Stands(ALL, s, 0, true)
    ensures Shows(s, Some(RowAt(Some(ENTRY), COMPLETED, None, 0)), true, Some(Failing), None)
  {
    s := CompletesWhilePosted();
    s := Fails(ALL, s, 0, true, RowAt(Some(ENTRY), COMPLETED, None, 0), Posted);
  }

  lemma FailureMarkLeavesCompleted() returns (s: State, e: Step)
    ensures e.Marked? && ChangesFinal(ALL, s, e, COMPLETED, FAILED)
  {
    var found;
    s := CompletesAndFails();
    s, found := FindsToMark(ALL, s, 0, true, RowAt(Some(ENTRY), COMPLETED, None, 0));
    e := Marked(JOB);
    assert PendingOf(s, OfTask(JOB)) == Some(found);
    WritesOver(s, e, OfTask(JOB), found);
  }

  /** Without H2, a callback comes too early and the task then writes over it. */
  lemma TaskLeavesFailedWithoutH2() returns (s: State, e: Step)
    ensures e.Announce? && ChangesFinal(Hypotheses(true, false, true, true, true), s, e, FAILED, EMAIL_SENDING)
  {
    var h := Hypotheses(true, false, true, true, true);
    s := Beginning(h);
    s := Reports(h, s, 0, false, RowAt(Some(ENTRY), AD_CREATING, None, 0), FAILED, Some(PasswordSet), None);
    e := Announce(JOB, STATUS_ONLY, true);
    AnnouncesOver(h, s);
  }

  lemma AnnouncesOver(h: Hypotheses, s: State)
    requires Stands(h, s, 0, false)
    requires Shows(s, Some(RowAt(Some(ENTRY), FAILED, None, 0)), true, Some(PasswordSet), None)
    ensures ChangesFinal(h, s, Announce(JOB, STATUS_ONLY, true), FAILED, EMAIL_SENDING)
  {
    assert RowsAfter(s, Announce(JOB, STATUS_ONLY, true)) == UpsertedFor(s, JOB, EMAIL_SENDING, STATUS_ONLY).value;
  }

  /** Without H1, the sweeper gives a task up that is only slow. */
  lemma TaskLeavesFailedWithoutH1() returns (s: State, e: Step)
    ensures e.Record? && ChangesFinal(Hypotheses(false, true, true, true, true), s, e, FAILED, AD_CREATING)
  {
    var h := Hypotheses(false, true, true, true, true);
    var row := RowAt(None, PENDING, None, 0);
    s := Onboards(h);
    s := Creates(h, s, 0, row);
    s := Joins(h, s, 0, row);
    s := Waits(h, s, 3 * MINUTE, false, row, Some(Created));
    s := SweepsUnrecorded(h, s, 3 * MINUTE, Some(Created));
    e := Record(JOB, STATUS_ONLY);
    RecordsOver(h, s, 3 * MINUTE);
  }

  lemma RecordsOver(h: Hypotheses, s: State, now: nat)
    requires Stands(h, s, now, false)
    requires Shows(s, Some(RowAt(None, FAILED, Some(NoProgress(STALE_MINUTES)), now)), true, Some(Created), None)
    ensures ChangesFinal(h, s, Record(JOB, STATUS_ONLY), FAILED, AD_CREATING)
  {
    assert RowsAfter(s, Record(JOB, STATUS_ONLY)) == UpsertedFor(s, JOB, AD_CREATING, STATUS_ONLY).value;
  }

  lemma SweepsUnrecorded(h: Hypotheses, s: State, now: nat, pc: Option<Pc>) returns (s': State)
    requires Stands(h, s, now, false) && Shows(s, Some(RowAt(None, PENDING, None, 0)), true, pc, None)
    requires now > STALE_TIMEOUT && !h.stagesFresh
    ensures Stands(h, s', now, false)
    ensures Shows(s', Some(RowAt(None, FAILED, Some(NoProgress(STALE_MINUTES)), now)), true, pc, None)
  {
    s' := Goes(h, s, Sweep({}));
  }

  /**
   "Never use on COMPLETED users" holds for the handler's check, not for its delete: under all five
   hypotheses, a late COMPLETED callback between the two makes the rollback delete a COMPLETED row.
   */
  lemma RollbackCanDeleteCompleted() returns (s: State, e: Step)
    ensures Reachable(ALL, s) && Enabled(s, e) && Allowed(ALL, s, e)
    ensures exists u :: u in s.rows && s.rows[u].jobStatus == COMPLETED && u !in Next(s, e).rows
  {
    var h := ALL;
    s := Beginning(h);
    s := Announces(h, s, 0);
    s := Posts(h, s, 0, RowAt(Some(ENTRY), EMAIL_SENDING, None, 0));
    s := Accepts(h, s, 0, RowAt(Some(ENTRY), EMAIL_SENDING, None, 0));
    s := Waits(h, s, 3 * MINUTE, true, RowAt(Some(ENTRY), EMAIL_SENDING, None, 0), None);
    s := Sweeps(h, s, 3 * MINUTE, true, EMAIL_SENDING, None);
    var row := RowAt(Some(ENTRY), PARTIALLY_COMPLETE, Some(NoConfirmation(STALE_MINUTES)), 3 * MINUTE);
    s := ChecksRollback(h, s, 3 * MINUTE, true, row, None);
    s := Reports(h, s, 3 * MINUTE, true, row, COMPLETED, None, Some(RollbackChecked(true)));
    e := RollbackCommit(HANDLER, ENTRY, ACCEPTED, true);
    DeletesAtCommit(s, row.(jobStatus := COMPLETED));
  }

  lemma DeletesAtCommit(s: State, row: Row)
    requires Shows(s, Some(row), true, None, Some(RollbackChecked(true)))
    ensures Enabled(s, RollbackCommit(HANDLER, ENTRY, ACCEPTED, true))
    ensures USER in s.rows && s.rows[USER] == row
    ensures USER !in Next(s, RollbackCommit(HANDLER, ENTRY, ACCEPTED, true)).rows
  {
    assert Matching(s.dir, USER) == {ENTRY};
  }
}
