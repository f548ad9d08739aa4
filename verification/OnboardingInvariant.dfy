/**
 What every step of the onboarding protocol keeps. `Always` needs no hypothesis;
 `Fenced` needs H1, H2 and H5; `Ordered` needs H2 and H3; an empty `purged` needs H3 and H4.
 */
module OnboardingInvariant {
  import opened Common
  import opened IsoTime
  import opened OnboardingModel
  import opened OnboardingRecords
  import opened Directory
  import opened OnboardingProtocol
  import opened OnboardingMoves

  // ---------------------------------------------------------------- without hypotheses

  predicate RowOwned(s: State, u: UserId, r: Row) {
    && u in s.past.profiles && r.profile == s.past.profiles[u]
    && r.jobId.Some? && r.jobId.value in s.past.owner && s.past.owner[r.jobId.value] == u
    && (r.externalId.Some? ==> r.externalId.value == DnOf(r.profile.email))
  }

  /** Every row carries a job id drawn for its user, and an external id that its email determines, if any. */
  ghost predicate RowsOwned(s: State) {
    forall u | u in s.rows :: RowOwned(s, u, s.rows[u])
  }

  predicate TaskOwned(s: State, j: JobId, t: Task) {
    j in s.past.owner && s.past.owner[j] == t.user && t.user in s.past.profiles && t.profile == s.past.profiles[t.user]
  }

  ghost predicate TasksOwned(s: State) {
    && (forall j | j in s.past.owner :: s.past.owner[j] in s.past.profiles)
    && (forall j | j in s.tasks :: TaskOwned(s, j, s.tasks[j]))
  }

  /** An entry with the number of one of our users is the one that user's email names. */
  ghost predicate EntriesOwned(s: State) {
    forall dn | dn in s.dir.entries && s.dir.entries[dn].employeeNumber in s.past.profiles ::
      dn == DnOf(s.past.profiles[s.dir.entries[dn].employeeNumber].email)
  }

  ghost predicate EmailsUnique(s: State) {
    forall u, v | u in s.rows && v in s.rows && s.rows[u].profile.email == s.rows[v].profile.email :: u == v
  }

  ghost predicate JobsKnown(s: State) {
    forall j | j in s.past.dispatchedAt || j in s.past.announcedAt || j in s.past.retriedAs :: j in s.past.owner
  }

  ghost predicate HandlersKnown(s: State) {
    forall h | h in s.handlers :: s.handlers[h].user in s.past.profiles && s.handlers[h].checkedAt < s.past.steps
  }

  ghost predicate LiveUndispatched(s: State) {
    forall j | j in s.tasks && PreDispatch(s.tasks[j]) :: j !in s.past.dispatchedAt
  }

  /** A task's status write is for its own job. */
  predicate PendingKnown(s: State, p: Writer, pending: Pending) {
    var w := pending.write;
    && w.user in s.past.profiles && w.job in s.past.owner && s.past.owner[w.job] == w.user
    && pending.foundAt < s.past.steps && (p.OfTask? ==> w.job == p.job)
  }

  ghost predicate PendingsKnown(s: State) {
    forall p | PendingOf(s, p).Some? :: PendingKnown(s, p, PendingOf(s, p).value)
  }

  ghost predicate Clocked(s: State) {
    && s.lastSweep <= s.now
    && s.past.purged <= s.rows.Keys
    && (forall u | u in s.rows :: s.rows[u].updatedAt <= s.now)
  }

  ghost predicate Always(s: State) {
    && RowsOwned(s) && TasksOwned(s) && EntriesOwned(s) && EmailsUnique(s) && JobsKnown(s) && HandlersKnown(s)
         && LiveUndispatched(s)
    && PendingsKnown(s) && Clocked(s)
    && GroupsInhabited(s.dir)
  }

  lemma OldRowStaysOwned(s: State, e: Step, s': State, u: UserId, r: Row)
    requires Guarded(s, e) && u in s.rows && RowOwned(s, u, s.rows[u]) && RowMoved(s, e, u, s.rows[u], r)
    requires ByTaskOf(s, e, u) ==> TaskOwned(s, e.job, s.tasks[e.job])
    requires s'.past.owner == OwnerAfter(s, e) && s'.past.profiles == ProfilesAfter(s, e)
    ensures RowOwned(s', u, r)
  {
    assert r.profile == s.rows[u].profile;
  }

  lemma NewRowIsOwned(s: State, e: Step, s': State, u: UserId, r: Row)
    requires Guarded(s, e) && RowBorn(s, e, u, r)
    requires ByTaskOf(s, e, u) ==> TaskOwned(s, e.job, s.tasks[e.job])
    requires s'.past.owner == OwnerAfter(s, e) && s'.past.profiles == ProfilesAfter(s, e)
    ensures RowOwned(s', u, r)
  {
  }

  lemma KeepRowsOwned(s: State, e: Step, s': State)
    requires RowsOwned(s) && TasksOwned(s) && Guarded(s, e) && RowsMoved(s, e, s'.rows)
    requires s'.past.owner == OwnerAfter(s, e) && s'.past.profiles == ProfilesAfter(s, e)
    ensures RowsOwned(s')
  {
    forall u | u in s'.rows ensures RowOwned(s', u, s'.rows[u]) {
      assert RowStep(s, e, u, s'.rows[u]);
      if u in s.rows {
        OldRowStaysOwned(s, e, s', u, s'.rows[u]);
      } else {
        NewRowIsOwned(s, e, s', u, s'.rows[u]);
      }
    }
  }

  lemma TaskStaysOwned(s: State, e: Step, s': State, j: JobId, t: Task)
    requires Guarded(s, e) && TaskStep(s, e, j, t)
    requires j in s.tasks ==> TaskOwned(s, j, s.tasks[j])
    requires e.Retry? ==> RowOwned(s, e.user, s.rows[e.user])
    requires s'.past.owner == OwnerAfter(s, e) && s'.past.profiles == ProfilesAfter(s, e)
    ensures TaskOwned(s', j, t)
  {
  }

  lemma KeepTasksOwned(s: State, e: Step, s': State)
    requires RowsOwned(s) && TasksOwned(s) && Guarded(s, e) && TasksMoved(s, e, s'.tasks)
    requires s'.past.owner == OwnerAfter(s, e) && s'.past.profiles == ProfilesAfter(s, e)
    ensures TasksOwned(s')
  {
    if e.Retry? {
      assert RowOwned(s, e.user, s.rows[e.user]);
    }
    forall j | j in s'.tasks ensures TaskOwned(s', j, s'.tasks[j]) {
      TaskStaysOwned(s, e, s', j, s'.tasks[j]);
    }
  }

  lemma KeepEntriesOwned(s: State, e: Step, s': State)
    requires TasksOwned(s) && EntriesOwned(s) && Guarded(s, e) && DirMoved(s, e, s'.dir)
    requires s'.past.profiles == ProfilesAfter(s, e)
    ensures EntriesOwned(s')
  {
    forall dn | dn in s'.dir.entries && s'.dir.entries[dn].employeeNumber in s'.past.profiles
      ensures dn == DnOf(s'.past.profiles[s'.dir.entries[dn].employeeNumber].email)
    {
      assert EntryStep(s, e, dn, s'.dir.entries[dn].employeeNumber);
      if e.Onboard? {
        assert s.dir.entries[dn].employeeNumber == e.user <==> dn in Matching(s.dir, e.user);
      } else if e.Create? && dn !in s.dir.entries {
        assert TaskOwned(s, e.job, s.tasks[e.job]);
      }
    }
  }

  lemma ProfileMoves(s: State, e: Step, u: UserId, r: Row)
    requires RowStep(s, e, u, r)
    ensures if u in s.rows then r.profile == s.rows[u].profile else !EmailTaken(s.rows, r.profile.email)
  {
  }

  lemma KeepEmailsUnique(s: State, e: Step, s': State)
    requires EmailsUnique(s) && RowsMoved(s, e, s'.rows) && OneBorn(s, s'.rows)
    ensures EmailsUnique(s')
  {
    forall u, v | u in s'.rows && v in s'.rows && s'.rows[u].profile.email == s'.rows[v].profile.email ensures u == v {
      ProfileMoves(s, e, u, s'.rows[u]);
      ProfileMoves(s, e, v, s'.rows[v]);
    }
  }

  lemma KeepJobsKnown(s: State, e: Step, s': State)
    requires RowsOwned(s) && TasksOwned(s) && JobsKnown(s) && Guarded(s, e)
    requires e.Announce? ==> e.job in s.tasks
    requires s'.past.owner == OwnerAfter(s, e) && s'.past.retriedAs == RetriedAfter(s, e)
    requires s'.past.announcedAt == AnnouncedAfter(s, e) && s'.past.dispatchedAt == DispatchedAfter(s, e)
    ensures JobsKnown(s')
  {
    if e.Announce? || e.Post? {
      assert TaskOwned(s, e.job, s.tasks[e.job]);
    } else if e.Retry? {
      assert RowOwned(s, e.user, s.rows[e.user]);
    }
  }

  lemma KeepHandlersKnown(s: State, e: Step, s': State)
    requires RowsOwned(s) && HandlersKnown(s) && Guarded(s, e) && HandlersMoved(s, e, s'.handlers)
    requires s'.past.profiles == ProfilesAfter(s, e) && s'.past.steps == s.past.steps + 1
    ensures HandlersKnown(s')
  {
    forall h | h in s'.handlers
      ensures s'.handlers[h].user in s'.past.profiles && s'.handlers[h].checkedAt < s'.past.steps
    {
      assert HandlerStep(s, e, h, s'.handlers[h]);
      assert h !in s.handlers ==> RowOwned(s, s'.handlers[h].user, s.rows[s'.handlers[h].user]);
    }
  }

  lemma KeepLiveUndispatched(s: State, e: Step, s': State)
    requires JobsKnown(s) && LiveUndispatched(s) && Guarded(s, e) && TasksMoved(s, e, s'.tasks)
    requires s'.past.dispatchedAt == DispatchedAfter(s, e)
    ensures LiveUndispatched(s')
  {
    forall j | j in s'.tasks && PreDispatch(s'.tasks[j]) ensures j !in s'.past.dispatchedAt {
      assert TaskStep(s, e, j, s'.tasks[j]);
    }
  }

  lemma PendingStaysKnown(s: State, e: Step, s': State, p: Writer, pending: Pending)
    requires RowsOwned(s) && Guarded(s, e)
    requires PendingKnown(s, p, pending) || (LookupOf(s, e) == Some(pending) && LookerOf(e) == Some(p))
    requires s'.past.owner == OwnerAfter(s, e) && s'.past.profiles == ProfilesAfter(s, e)
    requires s'.past.steps == s.past.steps + 1
    ensures PendingKnown(s', p, pending)
  {
    var u := pending.write.user;
    assert u in s.rows ==> RowOwned(s, u, s.rows[u]);
  }

  lemma KeepPendingsKnown(s: State, e: Step, s': State)
    requires RowsOwned(s) && PendingsKnown(s) && Guarded(s, e) && PendingsMoved(s, e, s')
    requires s'.past.owner == OwnerAfter(s, e) && s'.past.profiles == ProfilesAfter(s, e)
    requires s'.past.steps == s.past.steps + 1
    ensures PendingsKnown(s')
  {
    forall p | PendingOf(s', p).Some? ensures PendingKnown(s', p, PendingOf(s', p).value) {
      assert PendingStep(s, e, p, PendingOf(s', p).value);
      assert PendingOf(s, p).Some? ==> PendingKnown(s, p, PendingOf(s, p).value);
      PendingStaysKnown(s, e, s', p, PendingOf(s', p).value);
    }
  }

  lemma KeepClocked(s: State, e: Step, s': State)
    requires Clocked(s) && RowsMoved(s, e, s'.rows) && RowsLeft(s, e, s'.rows) && PurgedMoved(s, e, s'.past.purged)
    requires s.now <= s'.now && s'.lastSweep in {s.lastSweep, s.now}
    ensures Clocked(s')
  {
    forall u | u in s'.rows ensures s'.rows[u].updatedAt <= s'.now {
      assert RowStep(s, e, u, s'.rows[u]);
    }
  }

  lemma JoiningKeepsGroups(d: Contents, department: string, dn: Dn)
    requires GroupsInhabited(d)
    ensures GroupsInhabited(Joined(d, department, dn))
  {
    var joined := Joined(d, department, dn);
    forall g | g in joined.groups ensures joined.groups[g] != {} {
      assert g != department ==> g in d.groups;
      assert g == department ==> dn in joined.groups[g];
    }
  }

  lemma RemovingKeepsGroups(d: Contents, dn: Dn, answer: Answer)
    requires GroupsInhabited(d)
    ensures GroupsInhabited(Removed(d, dn, answer))
  {
    LeavingGroups(d, dn, answer.refusing);
    assert Removed(d, dn, answer).groups == LeftGroups(d, dn, answer.refusing).groups;
  }

  lemma OffboardingKeepsGroups(d: Contents, dn: Dn, at: Stamp, answer: Answer)
    requires GroupsInhabited(d) && dn in d.entries
    ensures GroupsInhabited(Offboarded(d, dn, at, answer))
  {
    LeavingGroups(d, dn, answer.refusing);
  }

  lemma PurgeKeepsGroups(s: State, e: Step)
    requires GroupsInhabited(s.dir) && Enabled(s, e) && PurgedUser(s, e).Some?
    ensures GroupsInhabited(DirAfter(s, e))
  {
    RemovingKeepsGroups(s.dir, e.dn, e.answer);
  }

  lemma KeepGroups(s: State, e: Step)
    requires GroupsInhabited(s.dir) && Enabled(s, e)
    ensures GroupsInhabited(DirAfter(s, e))
  {
    if PurgedUser(s, e).Some? {
      PurgeKeepsGroups(s, e);
    } else if e.OffboardDirectory? {
      OffboardingKeepsGroups(s.dir, e.dn, e.at, e.answer);
    } else if e.JoinGroup? {
      JoiningKeepsGroups(s.dir, s.tasks[e.job].profile.department, DnOf(s.tasks[e.job].profile.email));
    }
  }

  lemma KeepAlways(s: State, e: Step)
    requires Always(s) && Enabled(s, e)
    ensures Always(Next(s, e))
  {
    assert forall j | j in s.tasks :: TaskOwned(s, j, s.tasks[j]);
    EveryStepMoves(s, e);
    var s' := Next(s, e);
    KeepRowsOwned(s, e, s');
    KeepTasksOwned(s, e, s');
    KeepEntriesOwned(s, e, s');
    KeepEmailsUnique(s, e, s');
    KeepJobsKnown(s, e, s');
    KeepHandlersKnown(s, e, s');
    KeepLiveUndispatched(s, e, s');
    KeepPendingsKnown(s, e, s');
    KeepClocked(s, e, s');
    KeepGroups(s, e);
  }
}
