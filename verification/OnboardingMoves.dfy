/**
 What one step can do to one row, one directory entry, one task: the protocol's effects
 read pointwise, in the form the invariants are proved from.
 */
module OnboardingMoves {
  import opened Common
  import opened OnboardingModel
  import opened OnboardingRecords
  import opened Directory
  import opened OnboardingProtocol

  predicate SameIdentity(r: Row, r': Row) {
    r'.profile == r.profile && r'.externalId == r.externalId && r'.jobId == r.jobId
  }

  /** Job id, status and external id stay; only the person's own status, the error or the time may differ. */
  predicate Undisturbed(r: Row, r': Row) {
    SameIdentity(r, r') && r'.jobStatus == r.jobStatus
  }

  /** The step is the second half of a status write whose first half found this user's row. */
  predicate WritesStatus(s: State, e: Step, u: UserId) {
    WriteOf(s, e).Some? && WriteOf(s, e).value.user == u
  }

  predicate Resolved(s: State, e: Step, u: UserId, r: Row, r': Row) {
    && SameIdentity(r, r') && e.Sweep? && u !in e.locked
    && InProgress(r.jobStatus) && r.updatedAt + STALE_TIMEOUT < s.now && Retryable(r'.jobStatus)
  }

  predicate Retried(e: Step, u: UserId, r: Row, r': Row) {
    && e.Retry? && e.user == u && Retryable(r.jobStatus)
    && r'.profile == r.profile && r'.externalId == r.externalId
    && r'.jobId == Some(e.newJob) && r'.jobStatus == PENDING
  }

  /** The step is a pre-dispatch task's committed write by user id. */
  predicate ByTaskOf(s: State, e: Step, u: UserId) {
    && (e.Record? || e.Claim? || (e.Announce? && e.audited)) && e.job in s.tasks && s.tasks[e.job].user == u
    && s.tasks[e.job].pc == (if e.Record? then Created else if e.Claim? then Start else PasswordSet)
    && (e.Claim? ==> s.tasks[e.job].kind.Resumed?)
    && (e.Record? ==> s.tasks[e.job].kind == Full)
  }

  /** A resumed run's second write assigns the status alone. */
  predicate CarriesJob(s: State, e: Step, u: UserId)
    requires ByTaskOf(s, e, u)
  {
    e.columns.jobId && (e.Announce? ==> s.tasks[e.job].kind == Full)
  }

  predicate CarriesStatus(s: State, e: Step, u: UserId)
    requires ByTaskOf(s, e, u)
  {
    e.columns.status || (e.Announce? && s.tasks[e.job].kind.Resumed?)
  }

  predicate TaskWrote(s: State, e: Step, u: UserId, r: Row, r': Row)
    requires ByTaskOf(s, e, u)
  {
    && r'.profile == r.profile
    && r'.jobStatus == (if !CarriesStatus(s, e, u) then r.jobStatus
                        else if e.Announce? then EMAIL_SENDING else AD_CREATING)
    && r'.jobId == (if CarriesJob(s, e, u) then Some(e.job) else r.jobId)
    && r'.externalId == (if s.tasks[e.job].kind == Full then Some(DnOf(s.tasks[e.job].profile.email)) else r.externalId)
  }

  predicate RowMoved(s: State, e: Step, u: UserId, r: Row, r': Row) {
    && (r' == r || r'.updatedAt == s.now)
    && (if ByTaskOf(s, e, u) then TaskWrote(s, e, u, r, r')
        else if e.Retry? && e.user == u then Retried(e, u, r, r')
        else if WritesStatus(s, e, u) then r' == Flushed(r, WriteOf(s, e).value, s.now)
        else Undisturbed(r, r') || Resolved(s, e, u, r, r'))
  }

  /** A new row: a new request, or a full run inserting the row a rollback deleted under it. */
  predicate RowBorn(s: State, e: Step, u: UserId, r: Row) {
    && !EmailTaken(s.rows, r.profile.email)
    && r.updatedAt == s.now
    && (|| (&& e.Onboard? && e.user == u && r.profile == e.profile && r.externalId == None
            && r.jobId == Some(e.job) && r.jobStatus == PENDING)
        || (&& ByTaskOf(s, e, u) && s.tasks[e.job].kind == Full && r.profile == s.tasks[e.job].profile
            && r.jobId == Some(e.job) && r.externalId == Some(DnOf(r.profile.email))
            && r.jobStatus == (if e.Announce? then EMAIL_SENDING else AD_CREATING)))
  }

  ghost predicate RowStep(s: State, e: Step, u: UserId, r: Row) {
    if u in s.rows then RowMoved(s, e, u, s.rows[u], r) else RowBorn(s, e, u, r)
  }

  ghost predicate RowsMoved(s: State, e: Step, rows: Table) {
    forall u | u in rows :: RowStep(s, e, u, rows[u])
  }

  ghost predicate OneBorn(s: State, rows: Table) {
    forall u, v | u in rows && v in rows && u !in s.rows && v !in s.rows :: u == v
  }

  /** The step deletes the user's directory entry. */
  predicate Purges(s: State, e: Step, u: UserId) {
    && (e.RollbackCommit? || e.RollbackDirectory?) && e.answer.accepted && e.handler in s.handlers
    && s.handlers[e.handler].user == u && s.handlers[e.handler].pc == RollbackChecked(true)
  }

  /** The step deletes the user's row. */
  predicate Deletes(s: State, e: Step, u: UserId) {
    && (e.RollbackCommit? || e.RollbackRow?) && e.handler in s.handlers
    && s.handlers[e.handler].user == u && RollingBack(s.handlers[e.handler].pc) && e.audited
  }

  predicate RollingBack(pc: HandlerPc) {
    pc.RollbackChecked? || pc.RollbackPurged?
  }

  /** The step adds the user's directory entry. */
  predicate Adds(s: State, e: Step, u: UserId) {
    e.Create? && At(s, e.job, Start) && s.tasks[e.job].kind == Full && s.tasks[e.job].user == u
  }

  ghost predicate RowsLeft(s: State, e: Step, rows: Table) {
    forall u | u in s.rows :: u in rows <==> !Deletes(s, e, u)
  }

  ghost predicate PurgedMoved(s: State, e: Step, purged: set<UserId>) {
    forall u :: u in purged <==> (u in s.past.purged || (Purges(s, e, u) && u in s.rows)) && !Deletes(s, e, u)
  }

  predicate PcMoved(e: Step, kind: Kind, from: Pc, to: Pc) {
    match e
    case Create(_) => kind == Full && from == Start && to == Added
    case CreateConflict(_) => kind == Full && from == Start && to == Failing
    case JoinGroup(_, _) => kind == Full && from == Added && to == Created
    case Record(_, _) => kind == Full && from == Created && to == Recorded
    case Claim(_, _) => kind.Resumed? && from == Start && to == Recorded
    case SetPassword(_) => from == Recorded && to == PasswordSet
    case Announce(_, _, _) => from == PasswordSet && to == Announced
    case Post(_) => from == Announced && to == Posted
    case Refused(_, _, _) => from == Posted && to.Noting?
    case Raise(_) => to == Failing
    case MarkFailed(_, _, _, _) => from == Failing && to.Marking?
    case _ => false
  }

  predicate NewTask(s: State, e: Step, j: JobId, t: Task) {
    || (e.Onboard? && e.job == j && t == Task(e.user, Full, e.profile, e.actor, Start))
    || (&& e.Retry? && e.newJob == j && e.user in s.rows && t.user == e.user && t.pc == Start
        && t.profile == s.rows[e.user].profile
        && (t.kind == Full <==> s.rows[e.user].externalId.None?))
  }

  predicate TaskStep(s: State, e: Step, j: JobId, t: Task) {
    if j !in s.tasks then NewTask(s, e, j, t)
    else if Actor(e) == Some(j) then t == s.tasks[j].(pc := t.pc) && PcMoved(e, t.kind, s.tasks[j].pc, t.pc)
    else t == s.tasks[j]
  }

  ghost predicate TasksMoved(s: State, e: Step, tasks: map<JobId, Task>) {
    && (forall j | j in tasks :: TaskStep(s, e, j, tasks[j]))
    && (forall j | j in s.tasks && j !in tasks :: Actor(e) == Some(j) && LastStep(e, s.tasks[j]))
  }

  predicate LastStep(e: Step, t: Task) {
    || e.Crash? || ((e.Accepted? || e.Refused?) && t.pc == Posted) || (e.MarkFailed? && t.pc == Failing)
    || (e.Noted? && t.pc.Noting?) || (e.Marked? && t.pc.Marking?) || (e.Claim? && t.kind.Resumed?)
  }

  /** The user's task fails or vanishes between the LDAP add and the commit of external_id. */
  predicate LosesEntry(s: State, e: Step, u: UserId) {
    (e.Raise? || e.Crash?) && e.job in s.tasks && s.tasks[e.job].user == u && s.tasks[e.job].pc in {Added, Created}
  }

  ghost predicate LostMoved(s: State, e: Step, lost: set<UserId>) {
    forall u :: u in lost <==> u in s.past.lost || LosesEntry(s, e, u)
  }

  predicate EntryStep(s: State, e: Step, dn: Dn, number: UserId) {
    if dn in s.dir.entries then number == s.dir.entries[dn].employeeNumber
    else Adds(s, e, number) && dn == DnOf(s.tasks[e.job].profile.email)
  }

  ghost predicate DirMoved(s: State, e: Step, d: Contents) {
    && (forall dn | dn in d.entries :: EntryStep(s, e, dn, d.entries[dn].employeeNumber))
    && (forall dn | dn in s.dir.entries && dn !in d.entries :: Purges(s, e, s.dir.entries[dn].employeeNumber))
    && (forall u | Adds(s, e, u) ::
         DnOf(s.tasks[e.job].profile.email) in d.entries && DnOf(s.tasks[e.job].profile.email) !in s.dir.entries)
    && (forall u, dn | Purges(s, e, u) && Matching(s.dir, u) == {dn} :: dn !in d.entries)
  }

  predicate HandlerStep(s: State, e: Step, h: nat, k: Handler) {
    if h in s.handlers then
      && k.user == s.handlers[h].user && k.checkedAt == s.handlers[h].checkedAt
      && (|| k.pc == s.handlers[h].pc
          || (k.pc.OffboardDone? && s.handlers[h].pc == OffboardChecked && e.OffboardDirectory? && e.handler == h)
          || (k.pc == RollbackPurged && s.handlers[h].pc == RollbackChecked(true)))
    else
      && k.user in s.rows && k.checkedAt == s.past.steps
      && ((e.OffboardCheck? && s.rows[k.user].jobStatus == COMPLETED && k.pc == OffboardChecked)
          || (e.RollbackCheck? && Retryable(s.rows[k.user].jobStatus)
               && k.pc == RollbackChecked(s.rows[k.user].externalId.Some?))
          || (e.Callback? && LookupOf(s, e).Some? && k.user == LookupOf(s, e).value.write.user
               && k.pc == CallbackFound(LookupOf(s, e).value)))
  }

  ghost predicate HandlersMoved(s: State, e: Step, handlers: map<nat, Handler>) {
    forall h | h in handlers :: HandlerStep(s, e, h, handlers[h])
  }

  /** Whose status write the step begins. */
  function LookerOf(e: Step): Option<Writer> {
    match e
    case Refused(j, _, _) => Some(OfTask(j))
    case MarkFailed(j, _, _, _) => Some(OfTask(j))
    case Callback(h, _, _, _, _, _) => Some(OfHandler(h))
    case _ => None
  }

  /** A status write pending after the step was pending before, or has just found its row. */
  predicate PendingStep(s: State, e: Step, p: Writer, pending: Pending) {
    || (PendingOf(s, p) == Some(pending) && WriterOf(e) != Some(p))
    || (LookupOf(s, e) == Some(pending) && LookerOf(e) == Some(p))
  }

  ghost predicate PendingsMoved(s: State, e: Step, s': State) {
    forall p | PendingOf(s', p).Some? :: PendingStep(s, e, p, PendingOf(s', p).value)
  }

  // ---------------------------------------------------------------- every step moves this way

  /** The user's row carries the job. */
  predicate Carries(t: Table, u: UserId, j: JobId) {
    u in t && t[u].jobId == Some(j)
  }

  /** What the guards say about ids and program counters, for the steps where the invariants need it. */
  predicate Guarded(s: State, e: Step) {
    && (e.Onboard? ==> e.user !in s.past.profiles && e.job !in s.past.owner && Matching(s.dir, e.user) == {})
    && (e.Retry? ==> e.newJob !in s.past.owner && e.user in s.rows && s.rows[e.user].jobId == Some(e.job)
                     && Retryable(s.rows[e.user].jobStatus))
    && (e.Refused? ==> At(s, e.job, Posted))
    && (e.MarkFailed? ==> At(s, e.job, Failing))
    && (LookupOf(s, e).Some? ==>
          Carries(s.rows, LookupOf(s, e).value.write.user, LookupOf(s, e).value.write.job))
    && (e.Post? ==> At(s, e.job, Announced))
    && (e.Announce? ==> At(s, e.job, PasswordSet))
    && (e.CreateConflict? ==>
         At(s, e.job, Start) && s.tasks[e.job].kind == Full && DnOf(s.tasks[e.job].profile.email) in s.dir.entries)
  }

  ghost predicate Moved(s: State, e: Step, s': State) {
    && Guarded(s, e)
    && RowsMoved(s, e, s'.rows) && OneBorn(s, s'.rows) && RowsLeft(s, e, s'.rows)
    && TasksMoved(s, e, s'.tasks) && DirMoved(s, e, s'.dir) && HandlersMoved(s, e, s'.handlers)
    && PendingsMoved(s, e, s') && PurgedMoved(s, e, s'.past.purged) && LostMoved(s, e, s'.past.lost)
    && s'.past.steps == s.past.steps + 1
    && s'.past.owner == OwnerAfter(s, e) && s'.past.profiles == ProfilesAfter(s, e)
    && s'.past.retriedAs == RetriedAfter(s, e) && s'.past.announcedAt == AnnouncedAfter(s, e)
    && s'.past.dispatchedAt == DispatchedAfter(s, e)
    && s'.now == (if e.Tick? then s.now + e.elapsed else s.now)
    && s'.lastSweep == (if e.Sweep? then s.now else s.lastSweep)
  }

  lemma EveryStepMoves(s: State, e: Step)
    requires Enabled(s, e)
    requires forall j | j in s.tasks :: j in s.past.owner
    ensures Moved(s, e, Next(s, e))
  {
    RowsMove(s, e);
    TasksMove(s, e);
    DirMoves(s, e);
    HandlersMove(s, e);
    PendingsMove(s, e, Next(s, e));
    PurgedMoves(s, e);
    LostMoves(s, e);
    GuardsHold(s, e);
  }

  lemma StatusWritesMove(s: State, e: Step)
    requires Enabled(s, e) && WriteOf(s, e).Some?
    ensures RowsMoved(s, e, RowsAfter(s, e)) && OneBorn(s, RowsAfter(s, e)) && RowsLeft(s, e, RowsAfter(s, e))
  {
    var rows := StatusFlushed(s.rows, WriteOf(s, e).value, s.now);
    assert RowsAfter(s, e) == rows;
    forall u | u in rows ensures RowStep(s, e, u, rows[u]) {
      assert !ByTaskOf(s, e, u) && !e.Retry?;
    }
  }

  lemma TaskWritesMove(s: State, e: Step)
    requires Enabled(s, e) && WrittenByTask(s, e).Some?
    ensures RowsMoved(s, e, RowsAfter(s, e)) && OneBorn(s, RowsAfter(s, e)) && RowsLeft(s, e, RowsAfter(s, e))
  {
  }

  lemma RequestWritesMove(s: State, e: Step)
    requires Enabled(s, e) && (e.Onboard? || e.Retry?)
    ensures RowsMoved(s, e, RowsAfter(s, e)) && OneBorn(s, RowsAfter(s, e)) && RowsLeft(s, e, RowsAfter(s, e))
  {
  }

  lemma SweepMoves(s: State, e: Step)
    requires Enabled(s, e) && e.Sweep?
    ensures RowsMoved(s, e, RowsAfter(s, e)) && OneBorn(s, RowsAfter(s, e)) && RowsLeft(s, e, RowsAfter(s, e))
  {
  }

  lemma OtherWritesMove(s: State, e: Step)
    requires Enabled(s, e) && !e.Sweep? && WriteOf(s, e).None? && WrittenByTask(s, e).None? && !e.Onboard? && !e.Retry?
    ensures RowsMoved(s, e, RowsAfter(s, e)) && OneBorn(s, RowsAfter(s, e)) && RowsLeft(s, e, RowsAfter(s, e))
  {
  }

  lemma RowsMove(s: State, e: Step)
    requires Enabled(s, e)
    ensures RowsMoved(s, e, RowsAfter(s, e)) && OneBorn(s, RowsAfter(s, e)) && RowsLeft(s, e, RowsAfter(s, e))
  {
    if e.Sweep? {
      SweepMoves(s, e);
    } else if WriteOf(s, e).Some? {
      StatusWritesMove(s, e);
    } else if WrittenByTask(s, e).Some? {
      TaskWritesMove(s, e);
    } else if e.Onboard? || e.Retry? {
      RequestWritesMove(s, e);
    } else {
      OtherWritesMove(s, e);
    }
  }

  lemma ActorMoves(s: State, e: Step)
    requires Enabled(s, e) && Actor(e).Some?
    ensures TasksMoved(s, e, TasksAfter(s, e))
  {
  }

  lemma RequestsStartTasks(s: State, e: Step)
    requires Enabled(s, e) && (e.Onboard? || e.Retry?)
    requires forall j | j in s.tasks :: j in s.past.owner
    ensures TasksMoved(s, e, TasksAfter(s, e))
  {
  }

  lemma TasksMove(s: State, e: Step)
    requires Enabled(s, e)
    requires forall j | j in s.tasks :: j in s.past.owner
    ensures TasksMoved(s, e, TasksAfter(s, e))
  {
    if Actor(e).Some? {
      ActorMoves(s, e);
    } else if e.Onboard? || e.Retry? {
      RequestsStartTasks(s, e);
    } else {
      assert TasksAfter(s, e) == s.tasks;
    }
  }

  lemma PurgeMoves(s: State, e: Step)
    requires Enabled(s, e) && PurgedUser(s, e).Some?
    ensures DirMoved(s, e, DirAfter(s, e))
  {
  }

  lemma TaskDirMoves(s: State, e: Step)
    requires Enabled(s, e) && (e.Create? || e.JoinGroup?)
    ensures DirMoved(s, e, DirAfter(s, e))
  {
  }

  lemma OtherDirMoves(s: State, e: Step)
    requires Enabled(s, e) && PurgedUser(s, e).None? && !e.Create? && !e.JoinGroup?
    ensures DirMoved(s, e, DirAfter(s, e))
  {
    if e.OffboardDirectory? {
      OffboardDirMoves(s, e);
    } else {
      assert DirAfter(s, e) == s.dir;
      NoPurge(s, e);
      UntouchedDirMoves(s, e);
    }
  }

  lemma NoPurge(s: State, e: Step)
    requires Enabled(s, e) && PurgedUser(s, e).None?
    ensures forall u :: !Purges(s, e, u)
  {
  }

  lemma UntouchedDirMoves(s: State, e: Step)
    requires !e.Create? && forall u :: !Purges(s, e, u)
    ensures DirMoved(s, e, s.dir)
  {
  }

  lemma OffboardDirMoves(s: State, e: Step)
    requires Enabled(s, e) && e.OffboardDirectory?
    ensures DirMoved(s, e, DirAfter(s, e))
  {
  }

  lemma DirMoves(s: State, e: Step)
    requires Enabled(s, e)
    ensures DirMoved(s, e, DirAfter(s, e))
  {
    if PurgedUser(s, e).Some? {
      PurgeMoves(s, e);
    } else if e.Create? || e.JoinGroup? {
      TaskDirMoves(s, e);
    } else {
      OtherDirMoves(s, e);
    }
  }

  lemma HandlersMove(s: State, e: Step)
    requires Enabled(s, e)
    ensures HandlersMoved(s, e, HandlersAfter(s, e))
  {
  }

  lemma PendingsMove(s: State, e: Step, s': State)
    requires Enabled(s, e) && s'.tasks == TasksAfter(s, e) && s'.handlers == HandlersAfter(s, e)
    ensures PendingsMoved(s, e, s')
  {
    forall p | PendingOf(s', p).Some? ensures PendingStep(s, e, p, PendingOf(s', p).value) {
      match p
      case OfTask(j) => TaskPendingMoves(s, e, s', j);
      case OfHandler(h) => HandlerPendingMoves(s, e, s', h);
    }
  }

  lemma TaskPendingMoves(s: State, e: Step, s': State, j: JobId)
    requires Enabled(s, e) && s'.tasks == TasksAfter(s, e) && PendingOf(s', OfTask(j)).Some?
    ensures PendingStep(s, e, OfTask(j), PendingOf(s', OfTask(j)).value)
  {
    if Actor(e) == Some(j) {
      assert s'.tasks[j].pc == PcAfter(s, e).value;
    } else {
      assert j in s.tasks && s'.tasks[j] == s.tasks[j];
    }
  }

  lemma HandlerPendingMoves(s: State, e: Step, s': State, h: nat)
    requires Enabled(s, e) && s'.handlers == HandlersAfter(s, e) && PendingOf(s', OfHandler(h)).Some?
    ensures PendingStep(s, e, OfHandler(h), PendingOf(s', OfHandler(h)).value)
  {
  }

  lemma PurgedMoves(s: State, e: Step)
    requires Enabled(s, e)
    ensures PurgedMoved(s, e, PurgedAfter(s, e))
  {
  }

  lemma LostMoves(s: State, e: Step)
    requires Enabled(s, e)
    ensures LostMoved(s, e, LostAfter(s, e))
  {
  }

  lemma GuardsHold(s: State, e: Step)
    requires Enabled(s, e)
    ensures Guarded(s, e)
  {
  }

  /** A live task was live before with the same owner, or is the new one of a request or a retry. */
  lemma LiveBefore(s: State, e: Step, j: JobId, t: Task)
    requires TaskStep(s, e, j, t) && PreDispatch(t)
    ensures || (j in s.tasks && PreDispatch(s.tasks[j]) && t == s.tasks[j].(pc := t.pc) && !e.Post?)
            || (j in s.tasks && PreDispatch(s.tasks[j]) && t == s.tasks[j] && Actor(e) != Some(j))
            || (j !in s.tasks && NewTask(s, e, j, t))
  {
  }
}
