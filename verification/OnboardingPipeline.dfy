/**
 The two pipelines of backend/services/onboarding_pipeline.py as they run when nobody interferes:
 every way through them, whatever the directory, the database and n8n answer, is a path of the
 protocol's steps from the task's start to its end.
 */
module OnboardingPipeline {
  import opened Common
  import opened OnboardingModel
  import opened OnboardingRecords
  import opened Directory
  import opened OnboardingProtocol
  import JobStore

  /** How the outside answers, call by call; a database write that fails raises, unless the code catches it. */
  datatype Answers = Answers(
    add: Write,               // the LDAP add
    group: Write,             // the group edit behind it
    recorded: bool,           // the first commit of a run: external_id, or in a resumed run the claim of the row
    passwordAccepted: bool,
    announced: bool,          // EMAIL_SENDING: the flush of a full run, the commit of a resumed one
    auditCommitted: bool,     // write_audit_log's own commit, whose failure is swallowed
    settled: bool,            // a full run's commit behind it
    dispatched: bool,         // n8n was reached
    noted: bool,              // the commit that says it was not
    failureNoted: bool)       // the commit of FAILED

  /** set_password fails when the entry is gone or the server refuses. */
  predicate PasswordFails(dir: Contents, profile: Profile, accepted: bool) {
    !accepted || DnOf(profile.email) !in dir.entries
  }

  /** An exception, and only where one of these answers raises one. */
  predicate RaiseCalledFor(s: State, j: JobId, a: Answers)
    requires j in s.tasks
  {
    var t := s.tasks[j];
    match t.pc
    case Start => if t.kind == Full then !a.add.accepted else !a.recorded
    case Added => !a.add.answered || (!a.group.accepted && (t.profile.department !in s.dir.groups || !a.group.answered))
    case Created => !a.group.answered || !a.recorded || UpsertedFor(s, j, AD_CREATING, Columns(true, true)).None?
    case Recorded => t.kind != Resumed(false) && PasswordFails(s.dir, t.profile, a.passwordAccepted)
    case PasswordSet => !a.announced
    case Announced => t.kind == Full && !a.settled
    case Posted => !a.dispatched && !a.noted
    case Noting(_) => !a.noted
    case Failing => false
    case Marking(_) => false
  }

  /** The SELECT of a status write sees the row as it is. */
  predicate LoadsFresh(rows: Table, found: Option<UserId>, loaded: Loaded) {
    match found case Some(u) => u in rows && loaded == LoadedFrom(rows[u]) case None => true
  }

  /** The step is the one these answers call for: a task vanishes only where its failure cannot be noted. */
  predicate CalledFor(s: State, e: Step, a: Answers) {
    Actor(e).Some? && e.job in s.tasks &&
    var t := s.tasks[e.job];
    match e
    case Create(_) => a.add.accepted
    case JoinGroup(_, added) => a.add.answered && added == a.group.accepted && (added || a.group.answered)
    case Record(_, columns) =>
      a.group.answered && a.recorded && columns == UpsertColumns(s.rows, t.user, e.job, AD_CREATING)
    case Claim(_, columns) =>
      a.recorded && columns == UpsertColumns(s.rows, t.user, e.job, AD_CREATING)
    case SetPassword(_) => t.kind != Resumed(false) ==> !PasswordFails(s.dir, t.profile, a.passwordAccepted)
    case Announce(_, columns, audited) =>
      && a.announced && columns == UpsertColumns(s.rows, t.user, e.job, EMAIL_SENDING)
      && (t.kind == Full ==> audited == a.auditCommitted)
    case Post(_) => t.kind == Full ==> a.settled
    case Accepted(_) => a.dispatched
    case Refused(_, found, loaded) => !a.dispatched && LoadsFresh(s.rows, found, loaded)
    case Noted(_) => a.noted
    case Raise(j) => RaiseCalledFor(s, j, a)
    case MarkFailed(_, _, found, loaded) => LoadsFresh(s.rows, found, loaded)
    case Marked(_) => a.failureNoted
    case Crash(_) => (t.pc == Failing || t.pc.Marking?) && !a.failureNoted
    case _ => true
  }

  /** The state after the steps, as long as each is enabled, called for, and taken by j's task. */
  function After(s: State, steps: seq<Step>, j: JobId, a: Answers): Option<State> {
    if steps == [] then Some(s)
    else
      var e := steps[|steps| - 1];
      match After(s, steps[..|steps| - 1], j, a)
      case Some(m) => if Actor(e) == Some(j) && Enabled(m, e) && CalledFor(m, e, a) then Some(Next(m, e)) else None
      case None => None
  }

  /** The steps the answers call for lead from s to s'. */
  ghost predicate Leads(s: State, s': State, j: JobId, a: Answers) {
    exists steps :: After(s, steps, j, a) == Some(s')
  }

  /** A state as far as its task, the rows and the directory go. */
  ghost predicate Standing(s: State, j: JobId, t: Task, rows: Table, dir: Contents, now: nat) {
    j in s.tasks && s.tasks[j] == t && s.rows == rows && s.dir == dir && s.now == now
  }

  ghost predicate Ended(s: State, j: JobId, rows: Table, dir: Contents) {
    j !in s.tasks && s.rows == rows && s.dir == dir
  }

  lemma Goes(a: Answers, s0: State, s: State, j: JobId, t: Task, rows: Table, dir: Contents, now: nat, e: Step)
    returns (s': State)
    requires Leads(s0, s, j, a) && Standing(s, j, t, rows, dir, now) && Actor(e) == Some(j) && Enabled(s, e)
    requires CalledFor(s, e, a)
    ensures s' == Next(s, e) && Leads(s0, s', j, a)
    ensures s'.now == now && s'.dir == DirAfter(s, e) && s'.rows == RowsAfter(s, e) && s'.tasks == TasksAfter(s, e)
  {
    var steps :| After(s0, steps, j, a) == Some(s);
    s' := Next(s, e);
    assert (steps + [e])[..|steps|] == steps;
    assert After(s0, steps + [e], j, a) == Some(s');
  }

  /** Nobody but u carries j. */
  ghost predicate OnlyHolder(rows: Table, j: JobId, u: UserId) {
    forall v | v in rows && rows[v].jobId == Some(j) :: v == u
  }

  // ---------------------------------------------------------------- the steps, one lemma each

  lemma Fails(a: Answers, s0: State, s: State, j: JobId, t: Task, rows: Table, dir: Contents, now: nat)
    returns (s': State)
    requires Leads(s0, s, j, a) && Standing(s, j, t, rows, dir, now) && CalledFor(s, Raise(j), a)
    ensures Leads(s0, s', j, a) && Standing(s', j, t.(pc := Failing), rows, dir, now)
  {
    s' := Goes(a, s0, s, j, t, rows, dir, now, Raise(j));
  }

  /** The first half of a status write finds the row, the second writes it. */
  lemma FoundAndWritten(a: Answers, s0: State, s: State, j: JobId, t: Task, rows: Table, dir: Contents, now: nat,
                        e: Step, p: Pending)
    returns (s': State)
    requires Leads(s0, s, j, a) && Standing(s, j, t, rows, dir, now) && (e.Refused? || e.MarkFailed?)
    requires Actor(e) == Some(j) && Enabled(s, e) && CalledFor(s, e, a) && LookupOf(s, e) == Some(p)
    requires if e.Refused? then a.noted else a.failureNoted
    requires Holders(rows, j) == {p.write.user} && p.write.job == j && p.write.loaded == LoadedFrom(rows[p.write.user])
    ensures Leads(s0, s', j, a) && Ended(s', j, JobStatusSet(rows, j, p.write.to, p.write.err, now), dir)
  {
    var m := Found(a, s0, s, j, t, rows, dir, now, e, p);
    s' := Written(a, s0, m, j, t.(pc := if e.Refused? then Noting(p) else Marking(p)), rows, dir, now, p);
    UndisturbedWrite(rows, p.write, now);
  }

  lemma Found(a: Answers, s0: State, s: State, j: JobId, t: Task, rows: Table, dir: Contents, now: nat, e: Step,
              p: Pending)
    returns (s': State)
    requires Leads(s0, s, j, a) && Standing(s, j, t, rows, dir, now) && (e.Refused? || e.MarkFailed?)
    requires Actor(e) == Some(j) && Enabled(s, e) && CalledFor(s, e, a) && LookupOf(s, e) == Some(p)
    ensures Leads(s0, s', j, a)
    ensures Standing(s', j, t.(pc := if e.Refused? then Noting(p) else Marking(p)), rows, dir, now)
  {
    assert RowsAfter(s, e) == rows;
    s' := Goes(a, s0, s, j, t, rows, dir, now, e);
  }

  lemma Written(a: Answers, s0: State, s: State, j: JobId, t: Task, rows: Table, dir: Contents, now: nat, p: Pending)
    returns (s': State)
    requires Leads(s0, s, j, a) && Standing(s, j, t, rows, dir, now) && CanFlush(rows, p.write)
    requires (t.pc == Noting(p) && a.noted) || (t.pc == Marking(p) && a.failureNoted)
    ensures Leads(s0, s', j, a) && Ended(s', j, StatusFlushed(rows, p.write, now), dir)
  {
    assert PendingOf(s, OfTask(j)) == Some(p);
    if t.pc.Noting? {
      WriteEffect(s, Noted(j), j, p);
      s' := Goes(a, s0, s, j, t, rows, dir, now, Noted(j));
    } else {
      WriteEffect(s, Marked(j), j, p);
      s' := Goes(a, s0, s, j, t, rows, dir, now, Marked(j));
    }
  }

  lemma WriteEffect(s: State, e: Step, j: JobId, p: Pending)
    requires WriterOf(e) == Some(OfTask(j)) && PendingOf(s, OfTask(j)) == Some(p) && CanFlush(s.rows, p.write)
    requires if s.tasks[j].pc.Noting? then e.Noted? else e.Marked?
    ensures Enabled(s, e) && TasksAfter(s, e) == s.tasks - {j} && DirAfter(s, e) == s.dir
    ensures RowsAfter(s, e) == StatusFlushed(s.rows, p.write, s.now)
  {
  }

  /** No row carries the job any more: the task ends, and changes nothing. */
  lemma NoneFound(a: Answers, s0: State, s: State, j: JobId, t: Task, rows: Table, dir: Contents, now: nat, e: Step)
    returns (s': State)
    requires Leads(s0, s, j, a) && Standing(s, j, t, rows, dir, now) && (e.Refused? || e.MarkFailed?)
    requires Actor(e) == Some(j) && Enabled(s, e) && CalledFor(s, e, a) && e.found.None?
    ensures Leads(s0, s', j, a) && Ended(s', j, rows, dir)
  {
    assert RowsAfter(s, e) == rows && TasksAfter(s, e) == s.tasks - {j};
    s' := Goes(a, s0, s, j, t, rows, dir, now, e);
  }

  lemma NoHolder(rows: Table, j: JobId, u: UserId, st: JobStatus, err: Option<ErrorText>, now: nat)
    requires OnlyHolder(rows, j, u) && u !in Holders(rows, j)
    ensures Holders(rows, j) == {} && JobStatusSet(rows, j, st, err, now) == rows
  {
    assert Holders(rows, j) == {};
    JobWriteIsFenced(rows, j, st, err, now);
  }

  /** The failure mark that gets through, whether or not it finds the row. */
  lemma FailureNoted(a: Answers, s0: State, s: State, j: JobId, t: Task, rows: Table, dir: Contents, now: nat,
                     err: Option<ErrorText>)
    returns (s': State)
    requires Leads(s0, s, j, a) && Standing(s, j, t, rows, dir, now) && t.pc == Failing && OnlyHolder(rows, j, t.user)
    requires a.failureNoted
    ensures Leads(s0, s', j, a) && Ended(s', j, JobStatusSet(rows, j, FAILED, err, now), dir)
  {
    if t.user in Holders(rows, j) {
      var e := MarkFailed(j, err, Some(t.user), LoadedFrom(rows[t.user]));
      assert Holders(rows, j) == {t.user};
      s' := FoundAndWritten(a, s0, s, j, t, rows, dir, now, e, LookupOf(s, e).value);
    } else {
      NoHolder(rows, j, t.user, FAILED, err, now);
      s' := NoneFound(a, s0, s, j, t, rows, dir, now, MarkFailed(j, err, None, Loaded(FAILED, None)));
    }
  }

  lemma MarkedFailed(a: Answers, s0: State, s: State, j: JobId, t: Task, rows: Table, dir: Contents, now: nat,
                     err: Option<ErrorText>)
    returns (s': State)
    requires Leads(s0, s, j, a) && Standing(s, j, t, rows, dir, now) && t.pc == Failing && OnlyHolder(rows, j, t.user)
    ensures Leads(s0, s', j, a)
    ensures Ended(s', j, if a.failureNoted then JobStatusSet(rows, j, FAILED, err, now) else rows, dir)
  {
    if a.failureNoted {
      s' := FailureNoted(a, s0, s, j, t, rows, dir, now, err);
    } else {
      s' := Goes(a, s0, s, j, t, rows, dir, now, Crash(j));
    }
  }

  lemma CreateRefused(a: Answers, s0: State, s: State, j: JobId, t: Task, rows: Table, dir: Contents, now: nat)
    returns (s': State)
    requires Leads(s0, s, j, a) && Standing(s, j, t, rows, dir, now) && t.pc == Start && t.kind == Full
    requires DnOf(t.profile.email) in dir.entries || !a.add.accepted
    ensures Leads(s0, s', j, a) && Standing(s', j, t.(pc := Failing), rows, dir, now)
  {
    if DnOf(t.profile.email) in dir.entries {
      s' := Goes(a, s0, s, j, t, rows, dir, now, CreateConflict(j));
    } else {
      s' := Fails(a, s0, s, j, t, rows, dir, now);
    }
  }

  lemma EntryAdded(a: Answers, s0: State, s: State, j: JobId, t: Task, rows: Table, dir: Contents, now: nat)
    returns (s': State)
    requires Leads(s0, s, j, a) && Standing(s, j, t, rows, dir, now) && t.pc == Start && t.kind == Full
    requires DnOf(t.profile.email) !in dir.entries && a.add.accepted
    ensures Leads(s0, s', j, a) && Standing(s', j, t.(pc := Added), rows, WithEntry(dir, t.user, t.profile), now)
  {
    s' := Goes(a, s0, s, j, t, rows, dir, now, Create(j));
  }

  /** An ignored refusal leaves the groups as they were; the account counts as created all the same. */
  lemma GroupJoined(a: Answers, s0: State, s: State, j: JobId, t: Task, rows: Table, dir: Contents, now: nat)
    returns (s': State)
    requires Leads(s0, s, j, a) && Standing(s, j, t, rows, dir, now) && t.pc == Added && t.kind == Full
    requires a.add.answered && (a.group.accepted || (a.group.answered && t.profile.department in dir.groups))
    ensures Leads(s0, s', j, a)
    ensures Standing(s', j, t.(pc := Created), rows,
                     if a.group.accepted then Joined(dir, t.profile.department, DnOf(t.profile.email)) else dir, now)
  {
    s' := Goes(a, s0, s, j, t, rows, dir, now, JoinGroup(j, a.group.accepted));
  }

  lemma AccountRecorded(a: Answers, s0: State, s: State, j: JobId, t: Task, rows: Table, dir: Contents, now: nat,
                        after: Table)
    returns (s': State)
    requires Leads(s0, s, j, a) && Standing(s, j, t, rows, dir, now) && t.pc == Created && t.kind == Full
    requires Upserted(rows, Account(t), j, t.actor, AD_CREATING, now) == Some(after) && a.group.answered && a.recorded
    ensures Leads(s0, s', j, a) && Standing(s', j, t.(pc := Recorded), after, dir, now)
  {
    UndisturbedUpsert(rows, Account(t), j, t.actor, AD_CREATING, now);
    s' := Goes(a, s0, s, j, t, rows, dir, now, Record(j, UpsertColumns(rows, t.user, j, AD_CREATING)));
  }

  lemma RowClaimed(a: Answers, s0: State, s: State, j: JobId, t: Task, rows: Table, dir: Contents, now: nat)
    returns (s': State)
    requires Leads(s0, s, j, a) && Standing(s, j, t, rows, dir, now) && t.pc == Start && t.kind.Resumed? && a.recorded
    ensures Leads(s0, s', j, a)
    ensures if t.user in rows
            then Standing(s', j, t.(pc := Recorded), ClaimedRow(rows, t.user, j, now), dir, now)
            else Ended(s', j, rows, dir)
  {
    s' := Goes(a, s0, s, j, t, rows, dir, now, Claim(j, UpsertColumns(rows, t.user, j, AD_CREATING)));
  }

  function ClaimedRow(rows: Table, u: UserId, j: JobId, now: nat): Table
    requires u in rows
  {
    rows[u := Touched(rows[u], rows[u].(jobId := Some(j), jobStatus := AD_CREATING), now)]
  }

  lemma PasswordDone(a: Answers, s0: State, s: State, j: JobId, t: Task, rows: Table, dir: Contents, now: nat)
    returns (s': State)
    requires Leads(s0, s, j, a) && Standing(s, j, t, rows, dir, now) && t.pc == Recorded
    requires t.kind == Resumed(false) || !PasswordFails(dir, t.profile, a.passwordAccepted)
    ensures Leads(s0, s', j, a) && Standing(s', j, t.(pc := PasswordSet), rows, dir, now)
  {
    s' := Goes(a, s0, s, j, t, rows, dir, now, SetPassword(j));
  }

  lemma FullAnnounced(a: Answers, s0: State, s: State, j: JobId, t: Task, rows: Table, dir: Contents, now: nat,
                      after: Table, audited: bool)
    returns (s': State)
    requires Leads(s0, s, j, a) && Standing(s, j, t, rows, dir, now) && t.pc == PasswordSet && t.kind == Full
    requires Upserted(rows, Account(t), j, t.actor, EMAIL_SENDING, now) == Some(after)
    requires audited == a.auditCommitted && a.announced
    ensures Leads(s0, s', j, a) && Standing(s', j, t.(pc := Announced), if audited then after else rows, dir, now)
  {
    UndisturbedUpsert(rows, Account(t), j, t.actor, EMAIL_SENDING, now);
    s' := Goes(a, s0, s, j, t, rows, dir, now, Announce(j, UpsertColumns(rows, t.user, j, EMAIL_SENDING), audited));
  }

  lemma ResumedAnnounced(a: Answers, s0: State, s: State, j: JobId, t: Task, rows: Table, dir: Contents, now: nat)
    returns (s': State)
    requires Leads(s0, s, j, a) && Standing(s, j, t, rows, dir, now) && t.pc == PasswordSet && t.kind.Resumed?
    requires t.user in rows && a.announced
    ensures Leads(s0, s', j, a)
    ensures Standing(s', j, t.(pc := Announced),
            rows[t.user := Touched(rows[t.user], rows[t.user].(jobStatus := EMAIL_SENDING), now)], dir, now)
  {
    s' := Goes(a, s0, s, j, t, rows, dir, now, Announce(j, UpsertColumns(rows, t.user, j, EMAIL_SENDING), true));
  }

  lemma DispatchTried(a: Answers, s0: State, s: State, j: JobId, t: Task, rows: Table, dir: Contents, now: nat)
    returns (s': State)
    requires Leads(s0, s, j, a) && Standing(s, j, t, rows, dir, now) && t.pc == Announced
    requires (t.kind == Full ==> a.settled)
    ensures Leads(s0, s', j, a) && Standing(s', j, t.(pc := Posted), rows, dir, now)
  {
    s' := Goes(a, s0, s, j, t, rows, dir, now, Post(j));
  }

  lemma Answered(a: Answers, s0: State, s: State, j: JobId, t: Task, rows: Table, dir: Contents, now: nat)
    returns (s': State)
    requires Leads(s0, s, j, a) && Standing(s, j, t, rows, dir, now) && t.pc == Posted && (a.dispatched || a.noted)
    requires OnlyHolder(rows, j, t.user)
    ensures Leads(s0, s', j, a)
    ensures Ended(s', j, if a.dispatched then rows else Undispatched(rows, j, now), dir)
  {
    if a.dispatched {
      s' := Goes(a, s0, s, j, t, rows, dir, now, Accepted(j));
    } else {
      s' := RefusalNoted(a, s0, s, j, t, rows, dir, now);
    }
  }

  lemma RefusalNoted(a: Answers, s0: State, s: State, j: JobId, t: Task, rows: Table, dir: Contents, now: nat)
    returns (s': State)
    requires Leads(s0, s, j, a) && Standing(s, j, t, rows, dir, now) && t.pc == Posted && !a.dispatched && a.noted
    requires OnlyHolder(rows, j, t.user)
    ensures Leads(s0, s', j, a) && Ended(s', j, Undispatched(rows, j, now), dir)
  {
    if t.user in Holders(rows, j) {
      var e := Refused(j, Some(t.user), LoadedFrom(rows[t.user]));
      assert Holders(rows, j) == {t.user};
      s' := FoundAndWritten(a, s0, s, j, t, rows, dir, now, e, LookupOf(s, e).value);
    } else {
      NoHolder(rows, j, t.user, PARTIALLY_COMPLETE, Some(UNREACHABLE), now);
      s' := NoneFound(a, s0, s, j, t, rows, dir, now, Refused(j, None, Loaded(FAILED, None)));
    }
  }

  function Undispatched(rows: Table, j: JobId, now: nat): Table {
    JobStatusSet(rows, j, PARTIALLY_COMPLETE, Some(UNREACHABLE), now)
  }

  /** What create_user leaves of the directory for these answers. */
  function DirAfterCreate(dir: Contents, t: Task, a: Answers): Contents {
    var dn := DnOf(t.profile.email);
    if dn in dir.entries || !a.add.accepted then dir
    else if !a.add.answered || !a.group.accepted then WithEntry(dir, t.user, t.profile)
    else Joined(WithEntry(dir, t.user, t.profile), t.profile.department, dn)
  }

  predicate CreateFails(dir: Contents, t: Task, a: Answers) {
    || DnOf(t.profile.email) in dir.entries || !a.add.accepted || !a.add.answered || !a.group.answered
    || (!a.group.accepted && t.profile.department !in dir.groups)
  }

  /** create_user failed: at the add, behind it, or behind the group edit, with the entry left in place. */
  lemma NotCreated(a: Answers, s: State, j: JobId, t: Task, rows: Table, dir: Contents, now: nat)
    returns (m: State, u: Task)
    requires Leads(s, s, j, a) && Standing(s, j, t, rows, dir, now) && t.pc == Start && t.kind == Full
    requires CreateFails(dir, t, a)
    ensures Leads(s, m, j, a) && Standing(m, j, u, rows, DirAfterCreate(dir, t, a), now) && u.user == t.user
    ensures u.pc == Failing || RaiseCalledFor(m, j, a)
  {
    if DnOf(t.profile.email) in dir.entries || !a.add.accepted {
      m := CreateRefused(a, s, s, j, t, rows, dir, now);
      u := t.(pc := Failing);
    } else {
      m, u := NotJoined(a, s, j, t, rows, dir, now);
    }
  }

  /** The entry was added, and then its answer, the group edit, or the answer to that failed. */
  lemma NotJoined(a: Answers, s: State, j: JobId, t: Task, rows: Table, dir: Contents, now: nat)
    returns (m: State, u: Task)
    requires Leads(s, s, j, a) && Standing(s, j, t, rows, dir, now) && t.pc == Start && t.kind == Full
    requires CreateFails(dir, t, a) && DnOf(t.profile.email) !in dir.entries && a.add.accepted
    ensures Leads(s, m, j, a) && Standing(m, j, u, rows, DirAfterCreate(dir, t, a), now) && u.user == t.user
    ensures RaiseCalledFor(m, j, a)
  {
    m := EntryAdded(a, s, s, j, t, rows, dir, now);
    u := t.(pc := Added);
    if a.add.answered && a.group.accepted {
      m := GroupJoined(a, s, m, j, u, rows, WithEntry(dir, t.user, t.profile), now);
      u := t.(pc := Created);
    }
  }

  // ---------------------------------------------------------------- what the listeners are told

  function AccountData(profile: Profile): JobStore.Data {
    map["email" := profile.email, "department" := profile.department, "job_title" := profile.jobTitle]
  }

  const INTERNAL := "Internal error"
  const RETRY_FAILED := "Internal error during retry"
  const LDAP_ERROR := "LDAP error"
  const PASSWORD_FAILED := "LDAP password set failed"
  const NO_RECORD := "Original onboarding record not found"

  /** From the dispatch on. Only the callback tells COMPLETED. */
  function DispatchStatuses(a: Answers): seq<JobStatus> {
    [EMAIL_SENDING] + if a.dispatched then [] else UndispatchedStatuses(a)
  }

  function UndispatchedStatuses(a: Answers): seq<JobStatus> {
    [PARTIALLY_COMPLETE] + if a.noted then [] else [FAILED]
  }

  function DispatchData(profile: Profile, message: string, a: Answers): JobStore.Data {
    AccountData(profile) + if a.dispatched then map[] else UndispatchedData(message, a)
  }

  function UndispatchedData(message: string, a: Answers): JobStore.Data {
    map["warning" := "n8n unreachable"] + if a.noted then map[] else map["error" := message]
  }

  /** A full run gets past its EMAIL_SENDING commit. */
  predicate FullRunAnnounces(rows: Table, dir: Contents, t: Task, a: Answers) {
    !CreateFails(dir, t, a) && AccountAnnounces(rows, t, a) && a.passwordAccepted
  }

  /** The database lets a full run's commits through; the first is refused if another row has the email. */
  predicate AccountAnnounces(rows: Table, t: Task, a: Answers) {
    a.recorded && (t.user in rows || !EmailTaken(rows, t.profile.email)) && a.announced && a.settled
  }

  /** So does a resumed one. */
  predicate ResumedRunAnnounces(rows: Table, dir: Contents, t: Task, a: Answers)
    requires t.kind.Resumed?
  {
    && a.recorded && t.user in rows && a.announced
    && (t.kind.rotate ==> a.passwordAccepted && DnOf(t.profile.email) in dir.entries)
  }

  function FullRunError(rows: Table, dir: Contents, t: Task, a: Answers): string {
    if CreateFails(dir, t, a) then LDAP_ERROR else AccountError(rows, t, a)
  }

  function AccountError(rows: Table, t: Task, a: Answers): string {
    if (a.recorded && (t.user in rows || !EmailTaken(rows, t.profile.email))) && !a.passwordAccepted
    then PASSWORD_FAILED else INTERNAL
  }

  /** What a run tells that has told AD_CREATING. */
  function RunStatuses(announced: bool, a: Answers): seq<JobStatus> {
    if announced then DispatchStatuses(a) else [FAILED]
  }

  function FullRunNotes(rows: Table, dir: Contents, t: Task, a: Answers): JobStore.Data {
    if FullRunAnnounces(rows, dir, t, a) then DispatchData(t.profile, INTERNAL, a)
    else map["error" := FullRunError(rows, dir, t, a)]
  }

  function AccountNotes(rows: Table, t: Task, a: Answers): JobStore.Data {
    if AccountAnnounces(rows, t, a) && a.passwordAccepted then DispatchData(t.profile, INTERNAL, a)
    else map["error" := AccountError(rows, t, a)]
  }

  // ---------------------------------------------------------------- the pipelines

  ghost predicate InStep(db: Session, server: DirectoryServer, rows: Table, dir: Contents)
    reads db, server
  {
    db.committed == db.working == rows && server.Model() == dir
  }

  /**
   The in-memory job first, for live listeners, then the row, after a rollback of whatever was pending. That the
   row cannot be written is only logged.
   */
  method MarkJobFailed(db: Session, jobs: JobStore.JobStore, j: JobId, message: string, noted: bool, now: nat)
    requires |Holders(db.committed, j)| <= 1
    modifies db, jobs
    ensures db.committed == db.working
    ensures db.committed == if noted then JobStatusSet(old(db.committed), j, FAILED, Some(Text(message)), now)
                            else old(db.committed)
    ensures jobs.jobs == if j in old(jobs.jobs)
                         then old(jobs.jobs)[j :=
                             JobStore.Updated(old(jobs.jobs)[j], FAILED, map["error" := message], now)]
                         else old(jobs.jobs)
    ensures JobStore.Told(old(jobs.jobs), jobs.jobs, j, [FAILED], map["error" := message], now)
    ensures db.audit == old(db.audit)
  {
    jobs.UpdateJobStatus(j, FAILED, map["error" := message], now);
    db.Rollback();
    var _ := db.UpdateOnboardingJobStatus(j, FAILED, Some(Text(message)), now);
    if noted {
      db.Commit();
    } else {
      db.Rollback();
    }
  }

  lemma SoleHolder(rows: Table, j: JobId, u: UserId)
    requires forall v | v in rows && rows[v].jobId == Some(j) :: v == u
    ensures |Holders(rows, j)| <= 1
  {
    assert Holders(rows, j) <= {u};
    if u in Holders(rows, j) {
      assert Holders(rows, j) == {u};
    } else {
      assert Holders(rows, j) == {};
    }
  }

  /** An exception in the pipeline: the task moves to its failure write and ends with it. */
  method GiveUp(db: Session, jobs: JobStore.JobStore, j: JobId, message: string, now: nat, answers: Answers,
                ghost s: State, ghost m: State, ghost t: Task, ghost dir: Contents)
    returns (ghost s': State)
    requires Leads(s, m, j, answers) && Standing(m, j, t, db.committed, dir, now) && OnlyHolder(db.committed, j, t.user)
    requires t.pc == Failing || (j in m.tasks && RaiseCalledFor(m, j, answers))
    modifies db, jobs
    ensures Leads(s, s', j, answers) && Ended(s', j, db.committed, dir)
    ensures db.working == db.committed
    ensures db.committed == if answers.failureNoted
                            then JobStatusSet(old(db.committed), j, FAILED, Some(Text(message)), now)
                                else old(db.committed)
    ensures JobStore.Told(old(jobs.jobs), jobs.jobs, j, [FAILED], map["error" := message], now)
    ensures db.audit == old(db.audit)
  {
    ghost var failed := m;
    if t.pc != Failing {
      failed := Fails(answers, s, m, j, t, db.committed, dir, now);
    }
    s' := MarkedFailed(answers, s, failed, j, t.(pc := Failing), db.committed, dir, now, Some(Text(message)));
    SoleHolder(db.committed, j, t.user);
    MarkJobFailed(db, jobs, j, message, answers.failureNoted, now);
  }

  lemma DispatchTold(a: map<JobId, JobStore.Job>, b: map<JobId, JobStore.Job>, c: map<JobId, JobStore.Job>, j: JobId,
                     profile: Profile, message: string, answers: Answers, now: nat)
    requires JobStore.Told(a, b, j, [EMAIL_SENDING], AccountData(profile), now)
    requires if answers.dispatched then c == b
             else JobStore.Told(b, c, j, UndispatchedStatuses(answers), UndispatchedData(message, answers), now)
    ensures JobStore.Told(a, c, j, DispatchStatuses(answers), DispatchData(profile, message, answers), now)
  {
    if answers.dispatched {
      assert [EMAIL_SENDING] + [] == [EMAIL_SENDING];
      assert AccountData(profile) + map[] == AccountData(profile);
    } else {
      JobStore.ToldOn(a, b, c, j, [EMAIL_SENDING], AccountData(profile), UndispatchedStatuses(answers),
                      UndispatchedData(message, answers), now);
    }
  }

  lemma UndispatchedTold(a: map<JobId, JobStore.Job>, b: map<JobId, JobStore.Job>, c: map<JobId, JobStore.Job>,
                         j: JobId, message: string, answers: Answers, now: nat)
    requires JobStore.Told(a, b, j, [PARTIALLY_COMPLETE], map["warning" := "n8n unreachable"], now)
    requires if answers.noted then c == b else JobStore.Told(b, c, j, [FAILED], map["error" := message], now)
    ensures JobStore.Told(a, c, j, UndispatchedStatuses(answers), UndispatchedData(message, answers), now)
  {
    if answers.noted {
      assert [PARTIALLY_COMPLETE] + [] == [PARTIALLY_COMPLETE];
      assert UndispatchedData(message, answers) == map["warning" := "n8n unreachable"];
    } else {
      JobStore.ToldOn(a, b, c, j, [PARTIALLY_COMPLETE], map["warning" := "n8n unreachable"], [FAILED],
                      map["error" := message], now);
    }
  }

  /** The statuses of a run, one by one. */
  lemma RunSpelledOut(announced: bool, a: Answers)
    ensures RunStatuses(announced, a)
            == (if announced then [EMAIL_SENDING] else [FAILED])
               + (if announced && !a.dispatched then [PARTIALLY_COMPLETE] else [])
               + (if announced && !a.dispatched && !a.noted then [FAILED] else [])
  {
  }

  /** No pipeline tells COMPLETED. A run n8n has taken over leaves its listeners waiting, and only such a run does. */
  lemma OnlyDispatchKeepsListening(announced: bool, a: Answers)
    ensures var told := RunStatuses(announced, a);
            && COMPLETED !in told
            && ((exists st :: st in told && JobStore.Terminal(st)) <==> !(announced && a.dispatched))
  {
    var told := RunStatuses(announced, a);
    assert FAILED in told || PARTIALLY_COMPLETE in told <==> !(announced && a.dispatched);
  }

  /** A run's statuses, with AD_CREATING told first or not at all. */
  lemma RunTold(a: map<JobId, JobStore.Job>, b: map<JobId, JobStore.Job>, c: map<JobId, JobStore.Job>, j: JobId,
                creating: bool, announced: bool, data: JobStore.Data, answers: Answers, now: nat)
    requires if creating then JobStore.Told(a, b, j, [AD_CREATING], map[], now) else b == a
    requires JobStore.Told(b, c, j, RunStatuses(announced, answers), data, now)
    ensures JobStore.Told(a, c, j,
                          (if creating then [AD_CREATING] else [])
                            + (if announced then [EMAIL_SENDING] else [FAILED])
                            + (if announced && !answers.dispatched then [PARTIALLY_COMPLETE] else [])
                            + (if announced && !answers.dispatched && !answers.noted then [FAILED] else []),
                          data, now)
  {
    RunSpelledOut(announced, answers);
    var first := if creating then [AD_CREATING] else [];
    assert first + RunStatuses(announced, answers)
        == first + (if announced then [EMAIL_SENDING] else [FAILED])
             + (if announced && !answers.dispatched then [PARTIALLY_COMPLETE] else [])
             + (if announced && !answers.dispatched && !answers.noted then [FAILED] else []);
    if creating {
      JobStore.ToldOn(a, b, c, j, [AD_CREATING], map[], RunStatuses(announced, answers), data, now);
      assert map[] + data == data;
    } else {
      assert first + RunStatuses(announced, answers) == RunStatuses(announced, answers);
    }
  }

  /** From the EMAIL_SENDING commit on: tell the listeners, call n8n, and note when it cannot be reached. */
  method Dispatch(db: Session, jobs: JobStore.JobStore, j: JobId, profile: Profile, message: string, answers: Answers,
                  now: nat, ghost s: State, ghost m: State, ghost t: Task, ghost dir: Contents)
    returns (ghost s': State)
    requires Leads(s, m, j, answers) && Standing(m, j, t, db.committed, dir, now) && t.pc == Announced
    requires t.kind == Full ==> answers.settled
    requires db.committed == db.working && OnlyHolder(db.committed, j, t.user)
    modifies db, jobs
    ensures Leads(s, s', j, answers) && Ended(s', j, db.committed, dir)
    ensures db.working == db.committed
    ensures db.committed == if answers.dispatched then old(db.committed)
                            else if answers.noted then Undispatched(old(db.committed), j, now)
                            else if answers.failureNoted
                            then JobStatusSet(old(db.committed), j, FAILED, Some(Text(message)), now)
                            else old(db.committed)
    ensures JobStore.Told(old(jobs.jobs), jobs.jobs, j,
                          [EMAIL_SENDING]
                            + (if !answers.dispatched then [PARTIALLY_COMPLETE] else [])
                            + (if !answers.dispatched && !answers.noted then [FAILED] else []),
                          DispatchData(profile, message, answers), now)
    ensures db.audit == old(db.audit)
  {
    ghost var before := jobs.jobs;
    ghost var posted := DispatchTried(answers, s, m, j, t, db.committed, dir, now);
    jobs.UpdateJobStatus(j, EMAIL_SENDING, AccountData(profile), now);
    ghost var sending := jobs.jobs;
    if answers.dispatched {
      s' := Answered(answers, s, posted, j, t.(pc := Posted), db.committed, dir, now);
    } else {
      s' := NoteUndispatched(db, jobs, j, message, answers, now, s, posted, t.(pc := Posted), dir);
    }
    DispatchTold(before, sending, jobs.jobs, j, profile, message, answers, now);
    RunSpelledOut(true, answers);
  }

  method NoteUndispatched(db: Session, jobs: JobStore.JobStore, j: JobId, message: string, answers: Answers, now: nat,
                          ghost s: State, ghost m: State, ghost t: Task, ghost dir: Contents)
    returns (ghost s': State)
    requires Leads(s, m, j, answers) && Standing(m, j, t, db.committed, dir, now) && t.pc == Posted
    requires !answers.dispatched
    requires db.committed == db.working && OnlyHolder(db.committed, j, t.user)
    modifies db, jobs
    ensures Leads(s, s', j, answers) && Ended(s', j, db.committed, dir)
    ensures db.working == db.committed
    ensures db.committed == if answers.noted then Undispatched(old(db.committed), j, now)
                            else if answers.failureNoted
                            then JobStatusSet(old(db.committed), j, FAILED, Some(Text(message)), now)
                            else old(db.committed)
    ensures JobStore.Told(old(jobs.jobs), jobs.jobs, j, UndispatchedStatuses(answers),
                          UndispatchedData(message, answers), now)
    ensures db.audit == old(db.audit)
  {
    ghost var before := jobs.jobs;
    jobs.UpdateJobStatus(j, PARTIALLY_COMPLETE, map["warning" := "n8n unreachable"], now);
    ghost var warned := jobs.jobs;
    if !answers.noted {
      s' := GiveUp(db, jobs, j, message, now, answers, s, m, t, dir);
      UndispatchedTold(before, warned, jobs.jobs, j, message, answers, now);
      return;
    }
    s' := Answered(answers, s, m, j, t, db.committed, dir, now);
    SoleHolder(db.committed, j, t.user);
    var _ := db.UpdateOnboardingJobStatus(j, PARTIALLY_COMPLETE, Some(UNREACHABLE), now);
    db.Commit();
    UndispatchedTold(before, warned, jobs.jobs, j, message, answers, now);
  }

  method RunOnboardingPipeline(db: Session, server: DirectoryServer, jobs: JobStore.JobStore, j: JobId, u: UserId,
                               actor: string, profile: Profile, answers: Answers, now: nat, ghost s: State)
    returns (ghost s': State)
    requires Standing(s, j, Task(u, Full, profile, actor, Start), db.committed, server.Model(), now)
    requires db.working == db.committed && OnlyHolder(db.committed, j, u)
    modifies db, server, jobs
    ensures Leads(s, s', j, answers) && j !in s'.tasks && InStep(db, server, s'.rows, s'.dir)
    ensures var announced := FullRunAnnounces(s.rows, s.dir, s.tasks[j], answers);
            JobStore.Told(old(jobs.jobs), jobs.jobs, j,
                          [AD_CREATING]
                            + (if announced then [EMAIL_SENDING] else [FAILED])
                            + (if announced && !answers.dispatched then [PARTIALLY_COMPLETE] else [])
                            + (if announced && !answers.dispatched && !answers.noted then [FAILED] else []),
                          if announced then DispatchData(profile, INTERNAL, answers)
                          else map["error" := FullRunError(s.rows, s.dir, s.tasks[j], answers)],
                          now)
    ensures db.audit in {old(db.audit), old(db.audit) + [AuditEntry(actor, "user.onboard", u)]}
  {
    ghost var before := jobs.jobs;
    ghost var announced := FullRunAnnounces(s.rows, s.dir, s.tasks[j], answers);
    jobs.UpdateJobStatus(j, AD_CREATING, map[], now);
    ghost var creating := jobs.jobs;
    s' := CreateAccount(db, server, jobs, j, u, actor, profile, answers, now, s);
    RunTold(before, creating, jobs.jobs, j, true, announced,
            FullRunNotes(s.rows, s.dir, s.tasks[j], answers), answers, now);
  }

  method CreateAccount(db: Session, server: DirectoryServer, jobs: JobStore.JobStore, j: JobId, u: UserId,
                       actor: string, profile: Profile, answers: Answers, now: nat, ghost s: State)
    returns (ghost s': State)
    requires Standing(s, j, Task(u, Full, profile, actor, Start), db.committed, server.Model(), now)
    requires db.working == db.committed && OnlyHolder(db.committed, j, u)
    modifies db, server, jobs
    ensures Leads(s, s', j, answers) && j !in s'.tasks && InStep(db, server, s'.rows, s'.dir)
    ensures var t := Task(u, Full, profile, actor, Start);
            JobStore.Told(old(jobs.jobs), jobs.jobs, j,
                          RunStatuses(FullRunAnnounces(s.rows, s.dir, t, answers), answers),
                          FullRunNotes(s.rows, s.dir, t, answers), now)
    ensures db.audit in {old(db.audit), old(db.audit) + [AuditEntry(actor, "user.onboard", u)]}
  {
    ghost var t := Task(u, Full, profile, actor, Start);
    assert After(s, [], j, answers) == Some(s);
    ghost var dir, rows := server.Model(), db.committed;
    var created := server.CreateUser(u, profile, answers.add, answers.group);
    assert server.Model() == DirAfterCreate(dir, t, answers) && (created.Err? <==> CreateFails(dir, t, answers));
    if created.Err? {
      s', t := NotCreated(answers, s, j, t, rows, dir, now);
      s' := GiveUp(db, jobs, j, LDAP_ERROR, now, answers, s, s', t, server.Model());
      return;
    }
    s' := EntryAdded(answers, s, s, j, t, rows, dir, now);
    s' := GroupJoined(answers, s, s', j, t.(pc := Added), rows, WithEntry(dir, u, profile), now);
    s' := RecordAccount(db, server, jobs, j, u, actor, profile, created.value, answers, now, s, s');
  }

  method CommitUpsert(db: Session, p: Provisioned, j: JobId, actor: string, st: JobStatus, stored: bool, now: nat)
    returns (ok: bool)
    requires db.working == db.committed
    modifies db
    ensures var after := Upserted(old(db.committed), p, j, actor, st, now);
            && (ok <==> stored && after.Some?)
            && (if ok then db.working == db.committed == after.value else db.committed == old(db.committed))
    ensures db.audit == old(db.audit)
  {
    var upserted := db.UpsertOnboardingRecord(p, j, actor, st, now);
    if upserted.Err? || !stored {
      return false;
    }
    db.Commit();
    ok := true;
  }

  /** The second upsert shares its transaction with the audit entry, and its fate. */
  method AuditUpsert(db: Session, p: Provisioned, j: JobId, actor: string, answers: Answers, now: nat)
    returns (ok: bool)
    requires db.working == db.committed && p.userId in db.committed
    modifies db
    ensures ok == answers.announced
    ensures db.committed == if ok && answers.auditCommitted
                            then Upserted(old(db.committed), p, j, actor, EMAIL_SENDING, now).value
                            else old(db.committed)
    ensures ok ==> db.working == db.committed
    ensures db.audit == if ok && answers.auditCommitted
                        then old(db.audit) + [AuditEntry(actor, "user.onboard", p.userId)] else old(db.audit)
  {
    var _ := db.UpsertOnboardingRecord(p, j, actor, EMAIL_SENDING, now);
    if !answers.announced {
      return false;
    }
    db.WriteAuditLog(AuditEntry(actor, "user.onboard", p.userId), answers.auditCommitted);
    ok := true;
  }

  lemma NotRecorded(a: Answers, m: State, j: JobId, t: Task, rows: Table, dir: Contents, now: nat)
    requires Standing(m, j, t, rows, dir, now) && t.pc == Created
    requires !a.recorded || Upserted(rows, Account(t), j, t.actor, AD_CREATING, now).None?
    ensures RaiseCalledFor(m, j, a)
  {
  }

  /** The first upsert, in a commit of its own: from here on a retry can tell that the account exists. */
  method RecordAccount(db: Session, server: DirectoryServer, jobs: JobStore.JobStore, j: JobId, u: UserId,
                       actor: string, profile: Profile, provisioned: Provisioned, answers: Answers, now: nat,
                       ghost s: State, ghost m: State)
    returns (ghost s': State)
    requires Leads(s, m, j, answers)
    requires Standing(m, j, Task(u, Full, profile, actor, Created), db.committed, server.Model(), now)
    requires db.working == db.committed && OnlyHolder(db.committed, j, u) && answers.group.answered
    requires provisioned == Provisioned(u, Some(DnOf(profile.email)), profile) && DnOf(profile.email) in server.entries
    modifies db, jobs
    ensures Leads(s, s', j, answers) && j !in s'.tasks && InStep(db, server, s'.rows, s'.dir)
    ensures var t := Task(u, Full, profile, actor, Start);
            JobStore.Told(old(jobs.jobs), jobs.jobs, j,
                          RunStatuses(AccountAnnounces(old(db.committed), t, answers) && answers.passwordAccepted,
                                      answers),
                          AccountNotes(old(db.committed), t, answers), now)
    ensures db.audit in {old(db.audit), old(db.audit) + [AuditEntry(actor, "user.onboard", u)]}
  {
    ghost var t, rows, dir := Task(u, Full, profile, actor, Created), db.committed, server.Model();
    var recorded := CommitUpsert(db, provisioned, j, actor, AD_CREATING, answers.recorded, now);
    if !recorded {
      NotRecorded(answers, m, j, t, rows, dir, now);
      s' := GiveUp(db, jobs, j, INTERNAL, now, answers, s, m, t, dir);
      return;
    }
    s' := AccountRecorded(answers, s, m, j, t, rows, dir, now, db.committed);
    UpsertKeepsHolder(rows, provisioned, j, actor, AD_CREATING, now, db.committed);
    s' := SecureAccount(db, server, jobs, j, u, actor, profile, provisioned, answers, now, s, s');
  }

  lemma UpsertKeepsHolder(rows: Table, p: Provisioned, j: JobId, actor: string, st: JobStatus, now: nat, after: Table)
    requires OnlyHolder(rows, j, p.userId) && Upserted(rows, p, j, actor, st, now) == Some(after)
    ensures OnlyHolder(after, j, p.userId) && p.userId in after
  {
  }

  method SecureAccount(db: Session, server: DirectoryServer, jobs: JobStore.JobStore, j: JobId, u: UserId,
                       actor: string, profile: Profile, provisioned: Provisioned, answers: Answers, now: nat,
                       ghost s: State, ghost m: State)
    returns (ghost s': State)
    requires Leads(s, m, j, answers)
    requires Standing(m, j, Task(u, Full, profile, actor, Recorded), db.committed, server.Model(), now)
    requires db.working == db.committed && OnlyHolder(db.committed, j, u) && u in db.committed
    requires provisioned == Provisioned(u, Some(DnOf(profile.email)), profile) && DnOf(profile.email) in server.entries
    modifies db, jobs
    ensures Leads(s, s', j, answers) && j !in s'.tasks && InStep(db, server, s'.rows, s'.dir)
    ensures var told := answers.passwordAccepted && answers.announced && answers.settled;
            JobStore.Told(old(jobs.jobs), jobs.jobs, j, RunStatuses(told, answers),
                          if told then DispatchData(profile, INTERNAL, answers)
                          else map["error" := if answers.passwordAccepted then INTERNAL else PASSWORD_FAILED], now)
    ensures db.audit in {old(db.audit), old(db.audit) + [AuditEntry(actor, "user.onboard", u)]}
  {
    ghost var t, dir := Task(u, Full, profile, actor, Recorded), server.Model();
    if PasswordFails(server.Model(), profile, answers.passwordAccepted) {
      s' := GiveUp(db, jobs, j, PASSWORD_FAILED, now, answers, s, m, t, dir);
      return;
    }
    s' := PasswordDone(answers, s, m, j, t, db.committed, dir, now);
    s' := AnnounceAccount(db, server, jobs, j, u, actor, profile, provisioned, answers, now, s, s');
  }

  method AnnounceAccount(db: Session, server: DirectoryServer, jobs: JobStore.JobStore, j: JobId, u: UserId,
                         actor: string, profile: Profile, provisioned: Provisioned, answers: Answers, now: nat,
                         ghost s: State, ghost m: State)
    returns (ghost s': State)
    requires Leads(s, m, j, answers)
    requires Standing(m, j, Task(u, Full, profile, actor, PasswordSet), db.committed, server.Model(), now)
    requires db.working == db.committed && OnlyHolder(db.committed, j, u) && u in db.committed
    requires provisioned == Provisioned(u, Some(DnOf(profile.email)), profile)
    modifies db, jobs
    ensures Leads(s, s', j, answers) && j !in s'.tasks && InStep(db, server, s'.rows, s'.dir)
    ensures var told := answers.announced && answers.settled;
            JobStore.Told(old(jobs.jobs), jobs.jobs, j, RunStatuses(told, answers),
                          if told then DispatchData(profile, INTERNAL, answers) else map["error" := INTERNAL], now)
    ensures db.audit == if answers.announced && answers.auditCommitted
                        then old(db.audit) + [AuditEntry(actor, "user.onboard", u)] else old(db.audit)
  {
    ghost var t, rows, dir := Task(u, Full, profile, actor, PasswordSet), db.committed, server.Model();
    ghost var after := Upserted(rows, provisioned, j, actor, EMAIL_SENDING, now).value;
    var announced := AuditUpsert(db, provisioned, j, actor, answers, now);
    if !announced {
      s' := GiveUp(db, jobs, j, INTERNAL, now, answers, s, m, t, dir);
      return;
    }
    s' := FullAnnounced(answers, s, m, j, t, rows, dir, now, after, answers.auditCommitted);
    UpsertKeepsHolder(rows, provisioned, j, actor, EMAIL_SENDING, now, after);
    s' := SettleAccount(db, jobs, j, profile, answers, now, s, s', t.(pc := Announced), dir);
  }

  method SettleAccount(db: Session, jobs: JobStore.JobStore, j: JobId, profile: Profile, answers: Answers, now: nat,
                       ghost s: State, ghost m: State, ghost t: Task, ghost dir: Contents)
    returns (ghost s': State)
    requires Leads(s, m, j, answers) && Standing(m, j, t, db.committed, dir, now) && t.pc == Announced && t.kind == Full
    requires db.committed == db.working && OnlyHolder(db.committed, j, t.user)
    modifies db, jobs
    ensures Leads(s, s', j, answers) && Ended(s', j, db.committed, dir) && db.working == db.committed
    ensures JobStore.Told(old(jobs.jobs), jobs.jobs, j, RunStatuses(answers.settled, answers),
                          if answers.settled then DispatchData(profile, INTERNAL, answers)
                          else map["error" := INTERNAL], now)
    ensures db.audit == old(db.audit)
  {
    if !answers.settled {
      s' := GiveUp(db, jobs, j, INTERNAL, now, answers, s, m, t, dir);
      return;
    }
    db.Commit();
    RunSpelledOut(true, answers);
    s' := Dispatch(db, jobs, j, profile, INTERNAL, answers, now, s, m, t, dir);
  }

  method ResumeOnboardingPipeline(db: Session, server: DirectoryServer, jobs: JobStore.JobStore, j: JobId, u: UserId,
                                  actor: string, rotate: bool, answers: Answers, now: nat,
                                  ghost profile: Profile, ghost s: State)
    returns (ghost s': State)
    requires Standing(s, j, Task(u, Resumed(rotate), profile, actor, Start), db.committed, server.Model(), now)
    requires u in db.committed ==> db.committed[u].profile == profile
    requires db.working == db.committed && OnlyHolder(db.committed, j, u)
    modifies db, jobs
    ensures Leads(s, s', j, answers) && j !in s'.tasks && InStep(db, server, s'.rows, s'.dir)
    ensures u !in old(db.committed) && answers.recorded ==> db.committed == old(db.committed)
    ensures var announced := ResumedRunAnnounces(s.rows, s.dir, s.tasks[j], answers);
            JobStore.Told(old(jobs.jobs), jobs.jobs, j,
                          (if answers.recorded && u in s.rows then [AD_CREATING] else [])
                            + (if announced then [EMAIL_SENDING] else [FAILED])
                            + (if announced && !answers.dispatched then [PARTIALLY_COMPLETE] else [])
                            + (if announced && !answers.dispatched && !answers.noted then [FAILED] else []),
                          if announced then DispatchData(profile, RETRY_FAILED, answers)
                          else map["error" := if answers.recorded && u !in s.rows then NO_RECORD else RETRY_FAILED],
                          now)
    ensures db.audit == old(db.audit)
  {
    ghost var before := jobs.jobs;
    ghost var announced := ResumedRunAnnounces(s.rows, s.dir, s.tasks[j], answers);
    var claimed;
    if u in db.working && answers.recorded {
      s', claimed := ClaimRow(db, server, jobs, j, u, actor, rotate, answers, now, profile, s);
      ghost var creating := jobs.jobs;
      s' := SecureResumed(db, server, jobs, j, u, actor, rotate, claimed.profile, answers, now, s, s');
      RunTold(before, creating, jobs.jobs, j, true, announced,
              if announced then DispatchData(profile, RETRY_FAILED, answers) else map["error" := RETRY_FAILED],
              answers, now);
    } else {
      s' := NothingClaimed(db, server, jobs, j, u, actor, rotate, answers, now, profile, s);
      RunTold(before, before, jobs.jobs, j, false, false,
              map["error" := if answers.recorded then NO_RECORD else RETRY_FAILED], answers, now);
    }
  }

  /** The row points at this job before anything else can fail. */
  method ClaimRow(db: Session, server: DirectoryServer, jobs: JobStore.JobStore, j: JobId, u: UserId,
                  actor: string, rotate: bool, answers: Answers, now: nat, ghost profile: Profile, ghost s: State)
    returns (ghost s': State, record: Row)
    requires Standing(s, j, Task(u, Resumed(rotate), profile, actor, Start), db.committed, server.Model(), now)
    requires u in db.committed && db.committed[u].profile == profile && answers.recorded
    requires db.working == db.committed && OnlyHolder(db.committed, j, u)
    modifies db, jobs
    ensures Leads(s, s', j, answers) && record.profile == profile
    ensures Standing(s', j, Task(u, Resumed(rotate), profile, actor, Recorded), db.committed, server.Model(), now)
    ensures db.working == db.committed && OnlyHolder(db.committed, j, u) && u in db.committed
    ensures JobStore.Told(old(jobs.jobs), jobs.jobs, j, [AD_CREATING], map[], now)
    ensures db.audit == old(db.audit)
  {
    assert After(s, [], j, answers) == Some(s);
    s' := RowClaimed(answers, s, s, j, Task(u, Resumed(rotate), profile, actor, Start), db.committed, server.Model(),
                     now);
    record := db.working[u];
    db.working := db.working[u := Touched(record, record.(jobId := Some(j), jobStatus := AD_CREATING), now)];
    db.Commit();
    jobs.UpdateJobStatus(j, AD_CREATING, map[], now);
  }

  /** There is no row to resume, or it cannot be read or claimed. */
  method NothingClaimed(db: Session, server: DirectoryServer, jobs: JobStore.JobStore, j: JobId, u: UserId,
                        actor: string, rotate: bool, answers: Answers, now: nat, ghost profile: Profile, ghost s: State)
    returns (ghost s': State)
    requires Standing(s, j, Task(u, Resumed(rotate), profile, actor, Start), db.committed, server.Model(), now)
    requires db.working == db.committed && OnlyHolder(db.committed, j, u)
    requires u !in db.committed || !answers.recorded
    modifies db, jobs
    ensures Leads(s, s', j, answers) && j !in s'.tasks && InStep(db, server, s'.rows, s'.dir)
    ensures answers.recorded ==> db.committed == old(db.committed)
    ensures JobStore.Told(old(jobs.jobs), jobs.jobs, j, RunStatuses(false, answers),
                          map["error" := if answers.recorded then NO_RECORD else RETRY_FAILED], now)
    ensures db.audit == old(db.audit)
  {
    ghost var t, dir := Task(u, Resumed(rotate), profile, actor, Start), server.Model();
    assert After(s, [], j, answers) == Some(s);
    if answers.recorded {
      s' := RowClaimed(answers, s, s, j, t, db.committed, dir, now);
      jobs.UpdateJobStatus(j, FAILED, map["error" := NO_RECORD], now);
    } else {
      s' := GiveUp(db, jobs, j, RETRY_FAILED, now, answers, s, s, t, dir);
    }
  }

  method SecureResumed(db: Session, server: DirectoryServer, jobs: JobStore.JobStore, j: JobId, u: UserId,
                       actor: string, rotate: bool, profile: Profile, answers: Answers, now: nat,
                       ghost s: State, ghost m: State)
    returns (ghost s': State)
    requires Leads(s, m, j, answers)
    requires Standing(m, j, Task(u, Resumed(rotate), profile, actor, Recorded), db.committed, server.Model(), now)
    requires db.working == db.committed && OnlyHolder(db.committed, j, u) && u in db.committed
    modifies db, jobs
    ensures Leads(s, s', j, answers) && j !in s'.tasks && InStep(db, server, s'.rows, s'.dir)
    ensures var told := && answers.announced
                        && (rotate ==> !PasswordFails(server.Model(), profile, answers.passwordAccepted));
            JobStore.Told(old(jobs.jobs), jobs.jobs, j, RunStatuses(told, answers),
                          if told then DispatchData(profile, RETRY_FAILED, answers)
                          else map["error" := RETRY_FAILED], now)
    ensures db.audit == old(db.audit)
  {
    ghost var t, dir := Task(u, Resumed(rotate), profile, actor, Recorded), server.Model();
    if rotate && PasswordFails(server.Model(), profile, answers.passwordAccepted) {
      s' := GiveUp(db, jobs, j, RETRY_FAILED, now, answers, s, m, t, dir);
      return;
    }
    s' := PasswordDone(answers, s, m, j, t, db.committed, dir, now);
    s' := AnnounceResumed(db, jobs, j, u, profile, answers, now, s, s', t.(pc := PasswordSet), dir);
  }

  method MarkSending(db: Session, u: UserId, now: nat)
    requires db.working == db.committed && u in db.committed
    modifies db
    ensures var r := old(db.committed)[u];
            db.working == db.committed == old(db.committed)[u := Touched(r, r.(jobStatus := EMAIL_SENDING), now)]
    ensures db.audit == old(db.audit)
  {
    var record := db.working[u];
    db.working := db.working[u := Touched(record, record.(jobStatus := EMAIL_SENDING), now)];
    db.Commit();
  }

  method AnnounceResumed(db: Session, jobs: JobStore.JobStore, j: JobId, u: UserId, profile: Profile, answers: Answers,
                         now: nat, ghost s: State, ghost m: State, ghost t: Task, ghost dir: Contents)
    returns (ghost s': State)
    requires Leads(s, m, j, answers) && Standing(m, j, t, db.committed, dir, now)
    requires t.user == u && t.kind.Resumed? && t.pc == PasswordSet
    requires db.working == db.committed && OnlyHolder(db.committed, j, u) && u in db.committed
    modifies db, jobs
    ensures Leads(s, s', j, answers) && Ended(s', j, db.committed, dir) && db.working == db.committed
    ensures var told := answers.announced;
            JobStore.Told(old(jobs.jobs), jobs.jobs, j, RunStatuses(told, answers),
                          if told then DispatchData(profile, RETRY_FAILED, answers)
                          else map["error" := RETRY_FAILED], now)
    ensures db.audit == old(db.audit)
  {
    if !answers.announced {
      s' := GiveUp(db, jobs, j, RETRY_FAILED, now, answers, s, m, t, dir);
      return;
    }
    s' := ResumedAnnounced(answers, s, m, j, t, db.committed, dir, now);
    MarkSending(db, u, now);
    RunSpelledOut(true, answers);
    s' := Dispatch(db, jobs, j, profile, RETRY_FAILED, answers, now, s, s', t.(pc := Announced), dir);
  }
}
