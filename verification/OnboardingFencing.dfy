/**
 What every step keeps under H1, H2 and H5: a task that has not dispatched owns its user's row, a pending status
 write is still for the job its row carries, no superseded job comes back, and rows and directory agree.
 */
module OnboardingFencing {
  import opened Common
  import opened OnboardingModel
  import opened OnboardingRecords
  import opened Directory
  import opened OnboardingProtocol
  import opened OnboardingMoves
  import opened OnboardingInvariant

  predicate Live(s: State, j: JobId) {
    j in s.tasks && PreDispatch(s.tasks[j])
  }

  /** The row a live task sees: its own job id, in progress, external_id set exactly from Record on. */
  predicate Fits(t: Task, j: JobId, r: Row) {
    && r.jobId == Some(j) && InProgress(r.jobStatus)
    && (r.externalId.None? <==> t.kind == Full && t.pc in {Start, Added, Created})
  }

  ghost predicate LiveTasksFit(s: State) {
    forall j | Live(s, j) && s.tasks[j].user in s.rows :: Fits(s.tasks[j], j, s.rows[s.tasks[j].user])
  }

  ghost predicate OneLive(s: State) {
    forall i, j | Live(s, i) && Live(s, j) && s.tasks[i].user == s.tasks[j].user :: i == j
  }

  ghost predicate SupersededGone(s: State) {
    && (forall j | Live(s, j) :: j !in s.past.retriedAs)
    && (forall u | u in s.rows && s.rows[u].jobId.Some? :: s.rows[u].jobId.value !in s.past.retriedAs)
  }

  predicate HasEntry(s: State, u: UserId) {
    && u in s.past.profiles
    && var dn := DnOf(s.past.profiles[u].email);
       dn in s.dir.entries && s.dir.entries[dn].employeeNumber == u
  }

  ghost predicate EntriesHeld(s: State) {
    forall j | Live(s, j) && s.tasks[j].kind == Full && s.tasks[j].pc != Start :: HasEntry(s, s.tasks[j].user)
  }

  /** No live task of the user can write external_id any more, and a row still there has it set. */
  ghost predicate Settled(s: State, u: UserId) {
    && (forall j | Live(s, j) && s.tasks[j].user == u :: s.tasks[j].kind.Resumed?)
    && (u in s.rows ==> s.rows[u].externalId.Some?)
  }

  predicate Purging(pc: HandlerPc) {
    pc == RollbackChecked(true) || pc == RollbackPurged
  }

  ghost predicate PurgesSettled(s: State) {
    && (forall u | u in s.past.purged :: Settled(s, u))
    && (forall h | h in s.handlers && Purging(s.handlers[h].pc) :: Settled(s, s.handlers[h].user))
  }

  /** Postgres and the directory agree, but for the entries a rollback took. */
  ghost predicate Agreement(s: State) {
    forall u | u in s.rows && s.rows[u].externalId.Some? :: HasEntry(s, u) <==> u !in s.past.purged
  }

  predicate AddingFor(s: State, j: JobId, u: UserId) {
    j in s.tasks && s.tasks[j].user == u && s.tasks[j].kind == Full && s.tasks[j].pc in {Added, Created}
  }

  ghost predicate Adding(s: State, u: UserId) {
    exists j :: AddingFor(s, j, u)
  }

  /** An entry whose commit was not lost is either recorded or about to be, and never in the way of its own user. */
  ghost predicate EntriesAccounted(s: State) {
    && (forall j | At(s, j, Start) && s.tasks[j].kind == Full && s.tasks[j].user !in s.past.lost ::
         !HasEntry(s, s.tasks[j].user))
    && (forall u | u in s.rows && s.rows[u].externalId.None? && u !in s.past.lost && HasEntry(s, u) :: Adding(s, u))
  }

  /** A lost entry stays where it is, unrecorded: what is left of its user's tasks never gets past Start. */
  ghost predicate LostStays(s: State, u: UserId) {
    && HasEntry(s, u)
    && (u in s.rows ==> s.rows[u].externalId.None?)
    && (forall j | Live(s, j) && s.tasks[j].user == u :: s.tasks[j].kind == Full && s.tasks[j].pc == Start)
  }

  ghost predicate LostHeld(s: State) {
    && (forall u | u in s.past.lost :: LostStays(s, u))
    && (forall h | h in s.handlers && Purging(s.handlers[h].pc) :: s.handlers[h].user !in s.past.lost)
    && (forall j | j in s.tasks && s.tasks[j].pc in {Added, Created} :: s.tasks[j].kind == Full)
  }

  ghost predicate DispatchedRecorded(s: State) {
    forall u | u in s.rows && s.rows[u].jobId.Some? && s.rows[u].jobId.value in s.past.dispatchedAt ::
        s.rows[u].externalId.Some?
  }

  /** The row a pending status write will meet is nobody else's: it carries the write's job, and no live task has it. */
  ghost predicate PendingFits(s: State, w: StatusWrite) {
    && (forall j | Live(s, j) :: s.tasks[j].user != w.user)
    && (w.user in s.rows ==> s.rows[w.user].jobId == Some(w.job))
  }

  ghost predicate PendingsFit(s: State) {
    forall p | PendingOf(s, p).Some? :: PendingFits(s, PendingOf(s, p).value.write)
  }

  ghost predicate Fenced(s: State) {
    && LiveTasksFit(s) && PendingsFit(s) && OneLive(s) && SupersededGone(s)
    && EntriesHeld(s) && PurgesSettled(s) && Agreement(s) && EntriesAccounted(s) && LostHeld(s) && DispatchedRecorded(s)
  }

  /** H1, H2 and H5, as they bear on one step. */
  ghost predicate Fencing(s: State, e: Step) {
    && (e.Sweep? ==> StagesFresh(s))
    && (e.Callback? ==> e.job in s.past.dispatchedAt)
    && (e.Retry? ==> !WritePending(s, e.user))
  }

  // ---------------------------------------------------------------- who can write a live task's row

  /** The step is nobody's but task `j`'s to take on its user's row. */
  ghost predicate LeftAlone(s: State, e: Step, j: JobId)
    requires Live(s, j)
  {
    var u := s.tasks[j].user;
    && !(e.Onboard? && e.user == u) && !(e.Retry? && e.user == u)
    && (ByTaskOf(s, e, u) ==> e.job == j)
    && !WritesStatus(s, e, u)
    && (e.Sweep? && u in s.rows ==> s.now <= s.rows[u].updatedAt + STALE_TIMEOUT)
  }

  ghost predicate LiveLeftAlone(s: State, e: Step) {
    forall j | Live(s, j) :: LeftAlone(s, e, j)
  }

  /** H1 stops the sweeper, H2 and H5 status writes of other jobs, and the guards everyone else. */
  lemma NobodyElseWrites(s: State, e: Step)
    requires TasksOwned(s) && PendingsFit(s) && LiveTasksFit(s) && OneLive(s) && Guarded(s, e) && Fencing(s, e)
    ensures LiveLeftAlone(s, e)
  {
    forall j | Live(s, j) ensures LeftAlone(s, e, j) {
      NobodyWritesFor(s, e, j);
    }
  }

  lemma NobodyWritesFor(s: State, e: Step, j: JobId)
    requires TasksOwned(s) && PendingsFit(s) && LiveTasksFit(s) && OneLive(s) && Guarded(s, e) && Fencing(s, e)
    requires Live(s, j)
    ensures LeftAlone(s, e, j)
  {
    NoRequestFor(s, e, j);
    NoStatusWriteFor(s, e, j);
    if ByTaskOf(s, e, s.tasks[j].user) {
      assert Live(s, e.job);
    }
    assert s.tasks[j].user in s.rows && e.Sweep? ==> s.now <= s.rows[s.tasks[j].user].updatedAt + STALE_TIMEOUT;
  }

  lemma NoRequestFor(s: State, e: Step, j: JobId)
    requires TasksOwned(s) && LiveTasksFit(s) && Guarded(s, e) && Live(s, j)
    ensures !(e.Onboard? && e.user == s.tasks[j].user) && !(e.Retry? && e.user == s.tasks[j].user)
  {
    assert TaskOwned(s, j, s.tasks[j]);
    var u := s.tasks[j].user;
    assert u in s.rows ==> Fits(s.tasks[j], j, s.rows[u]);
  }

  lemma NoStatusWriteFor(s: State, e: Step, j: JobId)
    requires PendingsFit(s) && Live(s, j)
    ensures !WritesStatus(s, e, s.tasks[j].user)
  {
    assert WriteOf(s, e).Some? ==> PendingFits(s, WriteOf(s, e).value);
  }

  lemma FitsMoves(s: State, e: Step, j: JobId, t: Task, r: Row)
    requires Live(s, j) && LeftAlone(s, e, j) && TaskStep(s, e, j, t) && PreDispatch(t) && RowStep(s, e, t.user, r)
    requires t.user in s.rows ==> Fits(s.tasks[j], j, s.rows[t.user])
    ensures Fits(t, j, r)
  {
    if t.user !in s.rows {
      NewRowFits(s, e, j, t, r);
    } else if ByTaskOf(s, e, t.user) {
      WrittenRowFits(s, e, j, t, r);
    } else {
      UnwrittenRowFits(s, e, j, t, r);
    }
  }

  lemma NewRowFits(s: State, e: Step, j: JobId, t: Task, r: Row)
    requires Live(s, j) && LeftAlone(s, e, j) && TaskStep(s, e, j, t) && PreDispatch(t)
    requires t.user !in s.rows && RowBorn(s, e, t.user, r)
    ensures Fits(t, j, r)
  {
  }

  lemma WrittenRowFits(s: State, e: Step, j: JobId, t: Task, r: Row)
    requires Live(s, j) && LeftAlone(s, e, j) && TaskStep(s, e, j, t) && PreDispatch(t)
    requires t.user in s.rows && ByTaskOf(s, e, t.user) && TaskWrote(s, e, t.user, s.rows[t.user], r)
    requires Fits(s.tasks[j], j, s.rows[t.user])
    ensures Fits(t, j, r)
  {
  }

  lemma UnwrittenRowFits(s: State, e: Step, j: JobId, t: Task, r: Row)
    requires Live(s, j) && LeftAlone(s, e, j) && TaskStep(s, e, j, t) && PreDispatch(t)
    requires t.user in s.rows && !ByTaskOf(s, e, t.user) && RowMoved(s, e, t.user, s.rows[t.user], r)
    requires Fits(s.tasks[j], j, s.rows[t.user])
    ensures Fits(t, j, r)
  {
    LeftRowStays(s, e, j, r);
    RecordingPcs(s, e, j, t);
  }

  lemma LeftRowStays(s: State, e: Step, j: JobId, r: Row)
    requires Live(s, j) && LeftAlone(s, e, j)
    requires var u := s.tasks[j].user; u in s.rows && !ByTaskOf(s, e, u) && RowMoved(s, e, u, s.rows[u], r)
    ensures Undisturbed(s.rows[s.tasks[j].user], r)
  {
  }

  /** A full run passes from Created on only by its write of the row. */
  lemma RecordingPcs(s: State, e: Step, j: JobId, t: Task)
    requires Live(s, j) && TaskStep(s, e, j, t) && PreDispatch(t) && !ByTaskOf(s, e, t.user)
    ensures t.kind == s.tasks[j].kind && t.user == s.tasks[j].user
    ensures t.kind == Full ==> (t.pc in {Start, Added, Created} <==> s.tasks[j].pc in {Start, Added, Created})
  {
  }

  lemma NewTaskFits(s: State, e: Step, j: JobId, t: Task, r: Row)
    requires NewTask(s, e, j, t) && RowStep(s, e, t.user, r)
    requires e.Onboard? ==> e.user !in s.rows
    ensures Fits(t, j, r)
  {
  }

  // ---------------------------------------------------------------- the tasks' side

  lemma KeepLiveTasksFit(s: State, e: Step, s': State)
    requires RowsOwned(s) && Guarded(s, e) && LiveTasksFit(s) && LiveLeftAlone(s, e)
    requires TasksMoved(s, e, s'.tasks) && RowsMoved(s, e, s'.rows)
    ensures LiveTasksFit(s')
  {
    assert forall u | u in s.rows :: RowOwned(s, u, s.rows[u]) && u in s.past.profiles;
    forall j | Live(s', j) && s'.tasks[j].user in s'.rows
      ensures Fits(s'.tasks[j], j, s'.rows[s'.tasks[j].user])
    {
      var t := s'.tasks[j];
      assert TaskStep(s, e, j, t) && RowStep(s, e, t.user, s'.rows[t.user]);
      LiveTaskFits(s, e, j, t, s'.rows[t.user]);
    }
  }

  lemma LiveTaskFits(s: State, e: Step, j: JobId, t: Task, r: Row)
    requires LiveTasksFit(s) && LiveLeftAlone(s, e)
    requires TaskStep(s, e, j, t) && PreDispatch(t) && RowStep(s, e, t.user, r)
    requires e.Onboard? ==> e.user !in s.rows
    ensures Fits(t, j, r)
  {
    LiveBefore(s, e, j, t);
    if Live(s, j) {
      FitsMoves(s, e, j, t, r);
    } else {
      NewTaskFits(s, e, j, t, r);
    }
  }

  /** Where the job id of a row with a pending write can come from: from nobody. */
  lemma PendingStillFits(s: State, e: Step, s': State, w: StatusWrite)
    requires PendingFits(s, w) && w.user in s.past.profiles && Guarded(s, e) && !(e.Retry? && e.user == w.user)
    requires TasksMoved(s, e, s'.tasks) && RowsMoved(s, e, s'.rows)
    ensures PendingFits(s', w)
  {
    forall j | Live(s', j) ensures s'.tasks[j].user != w.user {
      LiveBefore(s, e, j, s'.tasks[j]);
      assert Live(s, j) ==> s.tasks[j].user != w.user;
    }
    if w.user in s'.rows {
      assert RowStep(s, e, w.user, s'.rows[w.user]);
      JobOfRowMoves(s, e, w.user, s'.rows[w.user]);
      assert ByTaskOf(s, e, w.user) ==> Live(s, e.job);
    }
  }

  /** A status write that finds its row finds no live task with it: of a job that is over, or dispatched. */
  lemma FoundIsNotLive(s: State, e: Step, w: StatusWrite)
    requires LiveTasksFit(s) && LiveUndispatched(s) && Guarded(s, e) && Fencing(s, e)
    requires LookupOf(s, e).Some? && LookupOf(s, e).value.write == w
    ensures PendingFits(s, w)
  {
    assert !Live(s, w.job);
    forall j | Live(s, j) ensures s.tasks[j].user != w.user {
      assert s.tasks[j].user in s.rows ==> Fits(s.tasks[j], j, s.rows[s.tasks[j].user]);
    }
  }

  lemma KeepPendingsFit(s: State, e: Step, s': State)
    requires RowsOwned(s) && PendingsKnown(s) && LiveUndispatched(s) && LiveTasksFit(s) && PendingsFit(s)
    requires Guarded(s, e) && Fencing(s, e)
    requires TasksMoved(s, e, s'.tasks) && RowsMoved(s, e, s'.rows) && PendingsMoved(s, e, s')
    ensures PendingsFit(s')
  {
    forall p | PendingOf(s', p).Some? ensures PendingFits(s', PendingOf(s', p).value.write) {
      var pending := PendingOf(s', p).value;
      assert PendingStep(s, e, p, pending);
      if LookupOf(s, e) == Some(pending) {
        FoundIsNotLive(s, e, pending.write);
        assert RowOwned(s, pending.write.user, s.rows[pending.write.user]);
      } else {
        assert PendingKnown(s, p, PendingOf(s, p).value);
      }
      PendingStillFits(s, e, s', pending.write);
    }
  }

  lemma KeepOneLive(s: State, e: Step, s': State)
    requires OneLive(s) && LiveLeftAlone(s, e) && TasksMoved(s, e, s'.tasks)
    ensures OneLive(s')
  {
    forall i, j | Live(s', i) && Live(s', j) && s'.tasks[i].user == s'.tasks[j].user ensures i == j {
      LiveBefore(s, e, i, s'.tasks[i]);
      LiveBefore(s, e, j, s'.tasks[j]);
      assert Live(s, i) ==> LeftAlone(s, e, i);
      assert Live(s, j) ==> LeftAlone(s, e, j);
    }
  }

  /** Where a row's job id can come from. */
  lemma JobOfRowMoves(s: State, e: Step, u: UserId, r: Row)
    requires RowStep(s, e, u, r)
    ensures || (u in s.rows && r.jobId == s.rows[u].jobId && !(e.Retry? && e.user == u))
            || (ByTaskOf(s, e, u) && Live(s, e.job) && r.jobId == Some(e.job))
            || (e.Onboard? && e.user == u && r.jobId == Some(e.job))
            || (e.Retry? && e.user == u && r.jobId == Some(e.newJob))
  {
  }

  ghost predicate RetrySupersedes(s: State, e: Step) {
    e.Retry? ==> && (forall j | Live(s, j) :: j != e.job)
                 && (forall u | u in s.rows && u != e.user :: s.rows[u].jobId != Some(e.job))
  }

  lemma RetrySupersedesItsJob(s: State, e: Step)
    requires RowsOwned(s) && TasksOwned(s) && Guarded(s, e) && LiveLeftAlone(s, e)
    ensures RetrySupersedes(s, e)
  {
    if e.Retry? {
      assert RowOwned(s, e.user, s.rows[e.user]);
      forall u | u in s.rows && u != e.user ensures s.rows[u].jobId != Some(e.job) {
        assert RowOwned(s, u, s.rows[u]);
      }
      forall j | Live(s, j) ensures j != e.job {
        assert TaskOwned(s, j, s.tasks[j]) && LeftAlone(s, e, j);
      }
    }
  }

  lemma KeepSupersededGone(s: State, e: Step, s': State)
    requires SupersededGone(s) && JobsKnown(s) && Guarded(s, e) && RetrySupersedes(s, e)
    requires e.Retry? ==> e.job in s.past.owner
    requires TasksMoved(s, e, s'.tasks) && RowsMoved(s, e, s'.rows) && s'.past.retriedAs == RetriedAfter(s, e)
    ensures SupersededGone(s')
  {
    forall j | Live(s', j) ensures j !in s'.past.retriedAs {
      LiveBefore(s, e, j, s'.tasks[j]);
      assert Live(s, j) ==> j !in s.past.retriedAs;
    }
    forall u | u in s'.rows && s'.rows[u].jobId.Some? ensures s'.rows[u].jobId.value !in s'.past.retriedAs {
      assert RowStep(s, e, u, s'.rows[u]);
      JobOfRowMoves(s, e, u, s'.rows[u]);
    }
  }

  // ---------------------------------------------------------------- the directory's side

  ghost predicate EntriesMoved(s: State, e: Step, s': State) {
    forall u | u in s.past.profiles :: HasEntry(s', u) <==> (HasEntry(s, u) && !Purges(s, e, u)) || Adds(s, e, u)
  }

  /** A user's entry appears with the own task's add and goes with a rollback of that user, never of another. */
  lemma EntryMoves(s: State, e: Step, s': State, u: UserId, dn: Dn)
    requires EntriesOwned(s) && DirMoved(s, e, s'.dir)
    requires u in s.past.profiles && u in s'.past.profiles && s'.past.profiles[u] == s.past.profiles[u]
    requires dn == DnOf(s.past.profiles[u].email)
    requires Adds(s, e, u) ==> s.tasks[e.job].profile == s.past.profiles[u]
    ensures HasEntry(s', u) <==> (HasEntry(s, u) && !Purges(s, e, u)) || Adds(s, e, u)
  {
    if HasEntry(s, u) {
      assert Matching(s.dir, u) == {dn};
    }
    if dn in s'.dir.entries {
      assert EntryStep(s, e, dn, s'.dir.entries[dn].employeeNumber);
    }
  }

  lemma EntriesMove(s: State, e: Step, s': State)
    requires TasksOwned(s) && EntriesOwned(s) && DirMoved(s, e, s'.dir)
    requires forall u | u in s.past.profiles :: u in s'.past.profiles && s'.past.profiles[u] == s.past.profiles[u]
    ensures EntriesMoved(s, e, s')
  {
    forall u | u in s.past.profiles
      ensures HasEntry(s', u) <==> (HasEntry(s, u) && !Purges(s, e, u)) || Adds(s, e, u)
    {
      assert Adds(s, e, u) ==> TaskOwned(s, e.job, s.tasks[e.job]);
      EntryMoves(s, e, s', u, DnOf(s.past.profiles[u].email));
    }
  }

  lemma EntryHeld(s: State, e: Step, s': State, j: JobId, t: Task)
    requires TasksOwned(s) && EntriesHeld(s) && PurgesSettled(s)
    requires Live(s, j) && TaskStep(s, e, j, t) && PreDispatch(t) && EntriesMoved(s, e, s')
    requires t.kind == Full && t.pc != Start
    ensures HasEntry(s', t.user)
  {
    assert TaskOwned(s, j, s.tasks[j]);
    assert Purges(s, e, t.user) ==> Settled(s, t.user);
    assert s.tasks[j].pc != Start ==> HasEntry(s, t.user);
  }

  lemma KeepEntriesHeld(s: State, e: Step, s': State)
    requires TasksOwned(s) && EntriesHeld(s) && PurgesSettled(s)
    requires TasksMoved(s, e, s'.tasks) && EntriesMoved(s, e, s')
    ensures EntriesHeld(s')
  {
    forall j | Live(s', j) && s'.tasks[j].kind == Full && s'.tasks[j].pc != Start
      ensures HasEntry(s', s'.tasks[j].user)
    {
      LiveBefore(s, e, j, s'.tasks[j]);
      EntryHeld(s, e, s', j, s'.tasks[j]);
    }
  }

  lemma SettledStays(s: State, e: Step, s': State, u: UserId)
    requires Settled(s, u) && (e.Onboard? ==> e.user != u)
    requires TasksMoved(s, e, s'.tasks) && RowsMoved(s, e, s'.rows)
    ensures Settled(s', u)
  {
    forall j | Live(s', j) && s'.tasks[j].user == u ensures s'.tasks[j].kind.Resumed? {
      LiveBefore(s, e, j, s'.tasks[j]);
    }
    if u in s'.rows {
      ExternalIdMoves(s, e, u, s'.rows[u]);
      assert ByTaskOf(s, e, u) ==> Live(s, e.job);
    }
  }

  /** external_id is set by the user's own full run, which holds the entry, and otherwise stays as it was. */
  lemma ExternalIdMoves(s: State, e: Step, u: UserId, r: Row)
    requires RowStep(s, e, u, r)
    ensures || (u in s.rows && r.externalId == s.rows[u].externalId)
            || (ByTaskOf(s, e, u) && s.tasks[e.job].kind == Full && s.tasks[e.job].pc != Start && r.externalId.Some?)
            || (e.Onboard? && e.user == u && r.externalId.None? && u !in s.rows)
  {
  }

  /** A rollback that will delete the entry looked at a row nobody is working on. */
  lemma CheckedIsSettled(s: State, u: UserId)
    requires LiveTasksFit(s) && u in s.rows && Retryable(s.rows[u].jobStatus) && s.rows[u].externalId.Some?
    ensures Settled(s, u)
  {
    assert forall j | Live(s, j) && s.tasks[j].user == u :: Fits(s.tasks[j], j, s.rows[u]);
  }

  lemma PurgerSettled(s: State, e: Step, h: nat, k: Handler)
    requires LiveTasksFit(s) && PurgesSettled(s) && HandlerStep(s, e, h, k) && Purging(k.pc)
    ensures Settled(s, k.user)
  {
    if h !in s.handlers {
      CheckedIsSettled(s, k.user);
    }
  }

  lemma KeepPurgesSettled(s: State, e: Step, s': State)
    requires RowsOwned(s) && HandlersKnown(s) && Clocked(s) && Guarded(s, e) && LiveTasksFit(s) && PurgesSettled(s)
    requires TasksMoved(s, e, s'.tasks) && RowsMoved(s, e, s'.rows) && HandlersMoved(s, e, s'.handlers)
    requires PurgedMoved(s, e, s'.past.purged)
    ensures PurgesSettled(s')
  {
    forall u | u in s'.past.purged ensures Settled(s', u) {
      PurgedSettled(s, e, u);
      SettledStays(s, e, s', u);
    }
    forall h | h in s'.handlers && Purging(s'.handlers[h].pc) ensures Settled(s', s'.handlers[h].user) {
      var k := s'.handlers[h];
      assert HandlerStep(s, e, h, k);
      PurgerSettled(s, e, h, k);
      assert RowsOwned(s) && k.user in s.rows ==> RowOwned(s, k.user, s.rows[k.user]);
      SettledStays(s, e, s', k.user);
    }
  }

  lemma PurgedSettled(s: State, e: Step, u: UserId)
    requires RowsOwned(s) && Clocked(s) && Guarded(s, e) && PurgesSettled(s)
    requires u in s.past.purged || (Purges(s, e, u) && u in s.rows)
    ensures Settled(s, u) && (e.Onboard? ==> e.user != u)
  {
    assert u in s.rows && RowOwned(s, u, s.rows[u]);
  }

  lemma KeepAgreement(s: State, e: Step, s': State)
    requires RowsOwned(s) && TasksOwned(s) && EntriesHeld(s) && PurgesSettled(s) && Agreement(s) && OneLive(s)
    requires LiveTasksFit(s)
    requires Clocked(s) && RowsMoved(s, e, s'.rows) && RowsLeft(s, e, s'.rows)
    requires EntriesMoved(s, e, s') && PurgedMoved(s, e, s'.past.purged)
    ensures Agreement(s')
  {
    forall u | u in s'.rows && s'.rows[u].externalId.Some? ensures HasEntry(s', u) <==> u !in s'.past.purged {
      AgreementMoves(s, e, s', u, s'.rows[u]);
    }
  }

  lemma AddingIsUnrecorded(s: State, e: Step, u: UserId)
    requires LiveTasksFit(s) && Adds(s, e, u)
    ensures u in s.rows ==> s.rows[u].externalId.None?
  {
    assert Live(s, e.job);
  }

  lemma AgreementMoves(s: State, e: Step, s': State, u: UserId, r: Row)
    requires u in s.rows ==> RowOwned(s, u, s.rows[u])
    requires TasksOwned(s) && EntriesHeld(s) && PurgesSettled(s) && Agreement(s) && LiveTasksFit(s) && Clocked(s)
    requires RowStep(s, e, u, r) && r.externalId.Some? && (u in s.rows ==> !Deletes(s, e, u))
    requires EntriesMoved(s, e, s') && PurgedMoved(s, e, s'.past.purged)
    ensures HasEntry(s', u) <==> u !in s'.past.purged
  {
    ExternalIdMoves(s, e, u, r);
    if ByTaskOf(s, e, u) {
      assert Live(s, e.job) && TaskOwned(s, e.job, s.tasks[e.job]);
    }
    if Adds(s, e, u) {
      AddingIsUnrecorded(s, e, u);
    }
  }

  // ---------------------------------------------------------------- entries and job ids that would surprise a retry

  lemma KeepEntriesAccounted(s: State, e: Step, s': State)
    requires RowsOwned(s) && TasksOwned(s) && EntriesAccounted(s) && LiveTasksFit(s) && OneLive(s)
    requires LiveLeftAlone(s, e)
    requires TasksMoved(s, e, s'.tasks) && RowsMoved(s, e, s'.rows) && EntriesMoved(s, e, s')
    requires LostMoved(s, e, s'.past.lost)
    requires e.Onboard? ==> !HasEntry(s', e.user)
    ensures EntriesAccounted(s')
  {
    forall j | At(s', j, Start) && s'.tasks[j].kind == Full && s'.tasks[j].user !in s'.past.lost
      ensures !HasEntry(s', s'.tasks[j].user)
    {
      LiveBefore(s, e, j, s'.tasks[j]);
      if Live(s, j) {
        OldStarterUnaccounted(s, e, s', j);
      } else if e.Retry? {
        NewStarterUnaccounted(s, e, s');
      }
    }
    forall u | u in s'.rows && s'.rows[u].externalId.None? && u !in s'.past.lost && HasEntry(s', u)
      ensures Adding(s', u)
    {
      UnrecordedIsAdding(s, e, s', u);
    }
  }

  lemma OldStarterUnaccounted(s: State, e: Step, s': State, j: JobId)
    requires TasksOwned(s) && EntriesAccounted(s) && OneLive(s) && EntriesMoved(s, e, s')
    requires Live(s, j) && j in s'.tasks && TaskStep(s, e, j, s'.tasks[j]) && s'.tasks[j].pc == Start
    requires s'.tasks[j].kind == Full
    requires s'.tasks[j].user !in s.past.lost
    ensures !HasEntry(s', s'.tasks[j].user)
  {
    var u := s.tasks[j].user;
    StartedAtStart(s, e, j, s'.tasks[j]);
    assert TaskOwned(s, j, s.tasks[j]);
    assert Adds(s, e, u) ==> Live(s, e.job);
  }

  lemma StartedAtStart(s: State, e: Step, j: JobId, t: Task)
    requires Live(s, j) && TaskStep(s, e, j, t) && t.pc == Start
    ensures t == s.tasks[j] && Actor(e) != Some(j)
  {
  }

  /** A retry starts a full run for a row without external_id, and then the user has no entry that was not lost. */
  lemma NewStarterUnaccounted(s: State, e: Step, s': State)
    requires RowsOwned(s) && EntriesAccounted(s) && EntriesMoved(s, e, s') && LiveLeftAlone(s, e)
    requires e.Retry? && e.user in s.rows && s.rows[e.user].externalId.None? && e.user !in s.past.lost
    ensures !HasEntry(s', e.user)
  {
    assert RowOwned(s, e.user, s.rows[e.user]);
    assert forall k | AddingFor(s, k, e.user) :: Live(s, k) && LeftAlone(s, e, k);
  }

  lemma UnrecordedIsAdding(s: State, e: Step, s': State, u: UserId)
    requires RowsOwned(s) && EntriesAccounted(s)
    requires TasksMoved(s, e, s'.tasks) && RowsMoved(s, e, s'.rows) && EntriesMoved(s, e, s')
    requires LostMoved(s, e, s'.past.lost)
    requires e.Onboard? ==> !HasEntry(s', e.user)
    requires u in s'.rows && s'.rows[u].externalId.None? && u !in s'.past.lost && HasEntry(s', u)
    ensures Adding(s', u)
  {
    ExternalIdMoves(s, e, u, s'.rows[u]);
    assert RowOwned(s, u, s.rows[u]);
    if Adds(s, e, u) {
      assert e.job in s'.tasks && TaskStep(s, e, e.job, s'.tasks[e.job]);
      assert AddingFor(s', e.job, u);
    } else {
      var k :| AddingFor(s, k, u);
      AddingStays(s, e, s', k, u, s'.rows[u]);
    }
  }

  lemma AddingStays(s: State, e: Step, s': State, k: JobId, u: UserId, r: Row)
    requires AddingFor(s, k, u) && u in s.rows && TasksMoved(s, e, s'.tasks) && LostMoved(s, e, s'.past.lost)
    requires RowStep(s, e, u, r) && r.externalId.None? && u !in s'.past.lost
    ensures AddingFor(s', k, u)
  {
    assert k in s'.tasks ==> TaskStep(s, e, k, s'.tasks[k]);
  }

  // ---------------------------------------------------------------- lost entries

  /** A full run of a user whose entry is there cannot get past its add. */
  lemma LostTaskWaits(s: State, e: Step, j: JobId, t: Task)
    requires LostStays(s, t.user) && TaskStep(s, e, j, t) && PreDispatch(t)
    requires !Adds(s, e, t.user)
    ensures t.kind == Full && t.pc == Start
  {
    LiveBefore(s, e, j, t);
    assert j in s.tasks && PreDispatch(s.tasks[j]) ==> Live(s, j);
  }

  lemma LostRowStays(s: State, e: Step, u: UserId, r: Row)
    requires RowStep(s, e, u, r) && (u in s.rows ==> s.rows[u].externalId.None?)
    requires !ByTaskOf(s, e, u)
    ensures r.externalId.None?
  {
    ExternalIdMoves(s, e, u, r);
  }

  lemma OldLostStays(s: State, e: Step, s': State, u: UserId)
    requires LostStays(s, u) && HasEntry(s', u) && !Adds(s, e, u)
    requires TasksMoved(s, e, s'.tasks) && RowsMoved(s, e, s'.rows)
    ensures LostStays(s', u)
  {
    LostTasksWait(s, e, s'.tasks, u);
    LostWriters(s, e, u);
    if u in s'.rows {
      LostRowStays(s, e, u, s'.rows[u]);
    }
  }

  lemma LostWriters(s: State, e: Step, u: UserId)
    requires LostStays(s, u)
    ensures !ByTaskOf(s, e, u)
  {
    assert ByTaskOf(s, e, u) ==> Live(s, e.job);
  }

  lemma LostTasksWait(s: State, e: Step, tasks: map<JobId, Task>, u: UserId)
    requires LostStays(s, u) && !Adds(s, e, u) && TasksMoved(s, e, tasks)
    ensures forall j | j in tasks && PreDispatch(tasks[j]) && tasks[j].user == u ::
              tasks[j].kind == Full && tasks[j].pc == Start
  {
    forall j | j in tasks && PreDispatch(tasks[j]) && tasks[j].user == u
      ensures tasks[j].kind == Full && tasks[j].pc == Start
    {
      LostTaskWaits(s, e, j, tasks[j]);
    }
  }

  /** The task that loses its entry was its user's only live one, and the row had nothing recorded. */
  lemma NewLostStays(s: State, e: Step, s': State, u: UserId)
    requires LiveTasksFit(s) && OneLive(s) && LosesEntry(s, e, u) && s.tasks[e.job].kind == Full
    requires TasksMoved(s, e, s'.tasks) && RowsMoved(s, e, s'.rows) && HasEntry(s', u)
    ensures LostStays(s', u)
  {
    assert Live(s, e.job);
    NoneLeftLive(s, e, s', u);
    if u in s'.rows {
      assert u in s.rows ==> Fits(s.tasks[e.job], e.job, s.rows[u]);
      LostRowStays(s, e, u, s'.rows[u]);
    }
  }

  lemma NoneLeftLive(s: State, e: Step, s': State, u: UserId)
    requires OneLive(s) && LosesEntry(s, e, u) && TasksMoved(s, e, s'.tasks)
    ensures forall j | Live(s', j) :: s'.tasks[j].user != u
  {
    assert Live(s, e.job);
    forall j | Live(s', j) ensures s'.tasks[j].user != u {
      assert TaskStep(s, e, j, s'.tasks[j]);
      LiveBefore(s, e, j, s'.tasks[j]);
    }
  }

  /** A rollback that will delete an entry looked at a row with external_id set. */
  lemma PurgersKnowNoLost(s: State, e: Step, s': State, h: nat, k: Handler)
    requires LostHeld(s) && PurgesSettled(s) && HandlerStep(s, e, h, k) && Purging(k.pc)
    requires LostMoved(s, e, s'.past.lost)
    ensures k.user !in s'.past.lost
  {
    if h in s.handlers {
      assert Settled(s, k.user);
      assert LosesEntry(s, e, k.user) ==> Live(s, e.job);
    } else {
      assert k.user in s.past.lost ==> LostStays(s, k.user);
    }
  }

  /** Nobody can add or delete a lost entry. */
  lemma LostIsLeftAlone(s: State, e: Step, u: UserId)
    requires TasksOwned(s) && LostHeld(s) && u in s.past.lost && AddsNew(s, e)
    ensures !Purges(s, e, u) && !Adds(s, e, u)
  {
    assert LostStays(s, u);
    assert Adds(s, e, u) ==> TaskOwned(s, e.job, s.tasks[e.job]);
  }

  ghost predicate AddsNew(s: State, e: Step) {
    forall u | Adds(s, e, u) :: DnOf(s.tasks[e.job].profile.email) !in s.dir.entries
  }

  lemma AddersAreFull(s: State, e: Step, s': State)
    requires LostHeld(s) && TasksMoved(s, e, s'.tasks)
    ensures forall j | j in s'.tasks && s'.tasks[j].pc in {Added, Created} :: s'.tasks[j].kind == Full
  {
    forall j | j in s'.tasks && s'.tasks[j].pc in {Added, Created} ensures s'.tasks[j].kind == Full {
      assert TaskStep(s, e, j, s'.tasks[j]);
    }
  }

  lemma LostEntryStays(s: State, e: Step, s': State, u: UserId)
    requires TasksOwned(s) && EntriesHeld(s) && LostHeld(s) && EntriesMoved(s, e, s') && AddsNew(s, e)
    requires u in s.past.lost || LosesEntry(s, e, u)
    ensures HasEntry(s', u)
  {
    if u in s.past.lost {
      LostIsLeftAlone(s, e, u);
      assert LostStays(s, u);
    } else {
      assert Live(s, e.job) && TaskOwned(s, e.job, s.tasks[e.job]);
    }
  }

  lemma KeepLostHeld(s: State, e: Step, s': State)
    requires TasksOwned(s) && EntriesHeld(s) && LiveTasksFit(s) && OneLive(s) && PurgesSettled(s) && LostHeld(s)
    requires TasksMoved(s, e, s'.tasks) && RowsMoved(s, e, s'.rows) && HandlersMoved(s, e, s'.handlers)
    requires EntriesMoved(s, e, s') && AddsNew(s, e) && LostMoved(s, e, s'.past.lost)
    ensures LostHeld(s')
  {
    forall u | u in s'.past.lost ensures LostStays(s', u) {
      LostEntryStays(s, e, s', u);
      if u in s.past.lost {
        LostIsLeftAlone(s, e, u);
        OldLostStays(s, e, s', u);
      } else {
        NewLostStays(s, e, s', u);
      }
    }
    forall h | h in s'.handlers && Purging(s'.handlers[h].pc) ensures s'.handlers[h].user !in s'.past.lost {
      PurgersKnowNoLost(s, e, s', h, s'.handlers[h]);
    }
    AddersAreFull(s, e, s');
  }

  lemma KeepDispatchedRecorded(s: State, e: Step, s': State)
    requires RowsOwned(s) && TasksOwned(s) && JobsKnown(s) && LiveUndispatched(s) && LiveTasksFit(s)
    requires DispatchedRecorded(s)
    requires Guarded(s, e) && RowsMoved(s, e, s'.rows) && s'.past.dispatchedAt == DispatchedAfter(s, e)
    requires e.Post? ==> At(s, e.job, Announced)
    ensures DispatchedRecorded(s')
  {
    forall u | u in s'.rows && s'.rows[u].jobId.Some? && s'.rows[u].jobId.value in s'.past.dispatchedAt
      ensures s'.rows[u].externalId.Some?
    {
      DispatchedRowMoves(s, e, s', u, s'.rows[u]);
    }
  }

  lemma DispatchedRowMoves(s: State, e: Step, s': State, u: UserId, r: Row)
    requires RowsOwned(s) && TasksOwned(s) && JobsKnown(s) && LiveUndispatched(s) && LiveTasksFit(s)
    requires DispatchedRecorded(s)
    requires Guarded(s, e) && RowStep(s, e, u, r) && s'.past.dispatchedAt == DispatchedAfter(s, e)
    requires e.Post? ==> At(s, e.job, Announced)
    requires r.jobId.Some? && r.jobId.value in s'.past.dispatchedAt
    ensures r.externalId.Some?
  {
    JobOfRowMoves(s, e, u, r);
    ExternalIdMoves(s, e, u, r);
    if e.Post? && r.jobId == Some(e.job) {
      assert Live(s, e.job) && TaskOwned(s, e.job, s.tasks[e.job]) && RowOwned(s, u, s.rows[u]);
    }
  }

  // ---------------------------------------------------------------- together

  lemma KeepFenced(s: State, e: Step)
    requires Always(s) && Fenced(s) && Enabled(s, e) && Fencing(s, e)
    ensures Fenced(Next(s, e))
  {
    assert forall j | j in s.tasks :: TaskOwned(s, j, s.tasks[j]);
    EveryStepMoves(s, e);
    FencedMoves(s, e, Next(s, e));
  }

  /** The pointwise facts about a step are all the invariant needs. */
  lemma FencedMoves(s: State, e: Step, s': State)
    requires Always(s) && Fenced(s) && Fencing(s, e) && Moved(s, e, s')
    ensures Fenced(s')
  {
    NobodyElseWrites(s, e);
    RetrySupersedesItsJob(s, e);
    EntriesMove(s, e, s');
    assert e.Retry? ==> RowOwned(s, e.user, s.rows[e.user]);
    if e.Onboard? {
      FreshUserHasNoEntry(s, e, s');
    }
    KeepLiveTasksFit(s, e, s');
    KeepPendingsFit(s, e, s');
    KeepOneLive(s, e, s');
    KeepSupersededGone(s, e, s');
    KeepEntriesHeld(s, e, s');
    KeepPurgesSettled(s, e, s');
    KeepAgreement(s, e, s');
    KeepEntriesAccounted(s, e, s');
    KeepLostHeld(s, e, s');
    KeepDispatchedRecorded(s, e, s');
  }

  lemma FreshUserHasNoEntry(s: State, e: Step, s': State)
    requires e.Onboard? && Guarded(s, e) && DirMoved(s, e, s'.dir) && s'.past.profiles == ProfilesAfter(s, e)
    ensures !HasEntry(s', e.user)
  {
    var dn := DnOf(e.profile.email);
    if dn in s'.dir.entries {
      assert EntryStep(s, e, dn, s'.dir.entries[dn].employeeNumber);
      assert s.dir.entries[dn].employeeNumber == e.user <==> dn in Matching(s.dir, e.user);
    }
  }
}
