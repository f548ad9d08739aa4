/**
 What holds in every run of the onboarding protocol, with the hypotheses each result needs:
 H1 stagesFresh, H2 callbacksDispatched, H3 auditsSucceed, H4 rollbackAtomic, H5 noLateRetry.
 */
module OnboardingTheorems {
  import opened Common
  import opened OnboardingModel
  import opened OnboardingRecords
  import opened Directory
  import opened OnboardingProtocol
  import opened OnboardingMoves
  import opened OnboardingInvariant
  import opened OnboardingFencing

  // ---------------------------------------------------------------- the invariants hold along a run

  lemma {:induction false} AlwaysHolds(r: Run, h: Hypotheses, i: nat)
    requires IsRun(r, h) && i < |r.states|
    ensures Always(r.states[i]) && r.states[i].past.steps == i
  {
    if i > 0 {
      AlwaysHolds(r, h, i - 1);
      assert RunStep(r, h, i - 1);
      KeepAlways(r.states[i - 1], r.steps[i - 1]);
    }
  }

  /** The retry's step comes between the two halves of a status write of its user. */
  ghost predicate RetriesLate(r: Run, i: nat)
    requires i < |r.steps| < |r.states|
  {
    r.steps[i].Retry? && WritePending(r.states[i], r.steps[i].user)
  }

  /** Under H1 and H2, the first late retry is the first thing that can break the fencing. */
  lemma {:induction false} FencedBeforeLateRetry(r: Run, h: Hypotheses, i: nat)
    requires IsRun(r, h) && i < |r.states| && h.stagesFresh && h.callbacksDispatched
    requires forall k | 0 <= k < i :: !RetriesLate(r, k)
    ensures Fenced(r.states[i])
  {
    if i > 0 {
      FencedBeforeLateRetry(r, h, i - 1);
      FencingAtStep(r, h, i - 1);
      KeepFenced(r.states[i - 1], r.steps[i - 1]);
    }
  }

  lemma FencingAtStep(r: Run, h: Hypotheses, i: nat)
    requires IsRun(r, h) && i < |r.steps| && h.stagesFresh && h.callbacksDispatched && !RetriesLate(r, i)
    ensures Always(r.states[i]) && Enabled(r.states[i], r.steps[i]) && Fencing(r.states[i], r.steps[i])
    ensures r.states[i + 1] == Next(r.states[i], r.steps[i])
  {
    AlwaysHolds(r, h, i);
    assert RunStep(r, h, i);
  }

  lemma FencedHolds(r: Run, h: Hypotheses, i: nat)
    requires IsRun(r, h) && i < |r.states| && h.stagesFresh && h.callbacksDispatched && h.noLateRetry
    ensures Fenced(r.states[i])
  {
    forall k | 0 <= k < i ensures !RetriesLate(r, k) {
      assert RunStep(r, h, k);
    }
    FencedBeforeLateRetry(r, h, i);
  }

  /** Step i's pointwise facts. */
  lemma StepMoves(r: Run, h: Hypotheses, i: nat)
    requires IsRun(r, h) && i < |r.steps|
    ensures Always(r.states[i]) && Moved(r.states[i], r.steps[i], r.states[i + 1])
    ensures Allowed(h, r.states[i], r.steps[i])
  {
    AlwaysHolds(r, h, i);
    assert RunStep(r, h, i);
    var s := r.states[i];
    assert forall j | j in s.tasks :: TaskOwned(s, j, s.tasks[j]);
    EveryStepMoves(s, r.steps[i]);
  }

  /** Of step i, what it does to the history. */
  lemma HistoryAtStep(r: Run, h: Hypotheses, i: nat)
    requires IsRun(r, h) && i < |r.steps|
    ensures var s, e, past := r.states[i], r.steps[i], r.states[i + 1].past;
            && s.past.steps == i && past.announcedAt == AnnouncedAfter(s, e)
                 && past.dispatchedAt == DispatchedAfter(s, e)
            && past.retriedAs == RetriedAfter(s, e)
            && past.owner == OwnerAfter(s, e) && past.profiles == ProfilesAfter(s, e)
  {
    StepMoves(r, h, i);
    AlwaysHolds(r, h, i);
  }

  /** Of step i, what it does to the rows. */
  lemma RowsAtStep(r: Run, h: Hypotheses, i: nat)
    requires IsRun(r, h) && i < |r.steps|
    ensures RowsOwned(r.states[i]) && Guarded(r.states[i], r.steps[i])
    ensures RowsMoved(r.states[i], r.steps[i], r.states[i + 1].rows)
  {
    StepMoves(r, h, i);
  }

  lemma HandlerAtStep(r: Run, h: Hypotheses, i: nat, k: nat)
    requires IsRun(r, h) && i < |r.steps| && k in r.states[i + 1].handlers
    ensures r.states[i].past.steps == i && HandlerStep(r.states[i], r.steps[i], k, r.states[i + 1].handlers[k])
  {
    StepMoves(r, h, i);
    AlwaysHolds(r, h, i);
  }

  lemma PurgedAtStep(r: Run, h: Hypotheses, i: nat)
    requires IsRun(r, h) && i < |r.steps|
    ensures PurgedMoved(r.states[i], r.steps[i], r.states[i + 1].past.purged)
  {
    StepMoves(r, h, i);
  }

  /** H3 and H4 leave no user half rolled back. */
  lemma {:induction false} NothingPurged(r: Run, h: Hypotheses, i: nat)
    requires IsRun(r, h) && i < |r.states| && h.auditsSucceed && h.rollbackAtomic
    ensures r.states[i].past.purged == {}
  {
    if i > 0 {
      NothingPurged(r, h, i - 1);
      PurgedAtStep(r, h, i - 1);
      assert RunStep(r, h, i - 1);
      PurgesDelete(h, r.states[i - 1], r.steps[i - 1]);
    }
  }

  lemma PurgesDelete(h: Hypotheses, s: State, e: Step)
    requires h.auditsSucceed && h.rollbackAtomic && Allowed(h, s, e)
    ensures forall u :: Purges(s, e, u) ==> Deletes(s, e, u)
  {
  }

  // ---------------------------------------------------------------- rows and directory agree

  /** The directory has an entry with the user's id as its number. */
  predicate HasAccount(s: State, u: UserId) {
    Matching(s.dir, u) != {}
  }

  lemma AccountIsEntry(s: State, u: UserId)
    requires EntriesOwned(s) && u in s.past.profiles
    ensures HasAccount(s, u) <==> HasEntry(s, u)
  {
    if HasAccount(s, u) {
      var dn :| dn in Matching(s.dir, u);
      assert dn == DnOf(s.past.profiles[u].email);
    }
    if HasEntry(s, u) {
      assert DnOf(s.past.profiles[u].email) in Matching(s.dir, u);
    }
  }

  /**
   Whether the account of a row exists, exactly, under H1, H2 and H5 and whatever crashes. A recorded external id is
   the one the row's email names, and its entry exists unless a rollback has taken it, which under H3 and H4 none
   has. Without one, the account exists exactly while its user's task is between the LDAP add and the commit, or
   when a task ended there.
   */
  lemma RowsAndDirectoryAgree(r: Run, h: Hypotheses, i: nat, u: UserId)
    requires IsRun(r, h) && i < |r.states| && h.stagesFresh && h.callbacksDispatched && h.noLateRetry
    requires u in r.states[i].rows
    ensures var s := r.states[i];
            match s.rows[u].externalId
            case Some(dn) =>
              && dn == DnOf(s.rows[u].profile.email)
              && (dn in s.dir.entries && s.dir.entries[dn].employeeNumber == u <==> u !in s.past.purged)
              && (HasAccount(s, u) <==> u !in s.past.purged)
              && (h.auditsSucceed && h.rollbackAtomic ==> HasAccount(s, u))
            case None => HasAccount(s, u) <==> Adding(s, u) || u in s.past.lost
  {
    AlwaysHolds(r, h, i);
    FencedHolds(r, h, i);
    var s := r.states[i];
    assert RowOwned(s, u, s.rows[u]);
    AccountIsEntry(s, u);
    if s.rows[u].externalId.Some? {
      if h.auditsSucceed && h.rollbackAtomic {
        NothingPurged(r, h, i);
      }
    } else {
      UnrecordedAccount(s, u);
    }
  }

  lemma UnrecordedAccount(s: State, u: UserId)
    requires Fenced(s) && u in s.rows && s.rows[u].externalId.None?
    ensures HasEntry(s, u) <==> Adding(s, u) || u in s.past.lost
  {
    if Adding(s, u) {
      var j :| AddingFor(s, j, u);
      assert Live(s, j);
    }
    assert u in s.past.lost ==> LostStays(s, u);
  }

  /** Some earlier step deleted the user's entry for a rollback, and its row has not been deleted since. */
  ghost predicate TookEntry(r: Run, k: nat, i: nat, u: UserId)
    requires k < i <= |r.steps| < |r.states|
  {
    && Purges(r.states[k], r.steps[k], u) && u in r.states[k].rows
    && forall m | k <= m < i :: !Deletes(r.states[m], r.steps[m], u)
  }

  lemma TookEntryStep(r: Run, n: nat, i: nat, u: UserId)
    requires i == n + 1 <= |r.steps| < |r.states|
    ensures (exists k :: 0 <= k < i && TookEntry(r, k, i, u)) <==>
              && !Deletes(r.states[n], r.steps[n], u)
              && (|| (Purges(r.states[n], r.steps[n], u) && u in r.states[n].rows)
                  || exists k :: 0 <= k < n && TookEntry(r, k, n, u))
  {
    if k :| 0 <= k < n && TookEntry(r, k, n, u) {
      assert !Deletes(r.states[n], r.steps[n], u) ==> TookEntry(r, k, i, u);
    }
    if k :| 0 <= k < n && TookEntry(r, k, i, u) {
      assert TookEntry(r, k, n, u);
    }
    if Purges(r.states[n], r.steps[n], u) && u in r.states[n].rows && !Deletes(r.states[n], r.steps[n], u) {
      assert TookEntry(r, n, i, u);
    }
  }

  /** What `purged` says, in steps of the run. */
  lemma {:induction false} PurgedMeans(r: Run, h: Hypotheses, i: nat, u: UserId)
    requires IsRun(r, h) && i < |r.states|
    ensures u in r.states[i].past.purged <==> exists k :: 0 <= k < i && TookEntry(r, k, i, u)
  {
    if i > 0 {
      PurgedMeans(r, h, i - 1, u);
      PurgedAtStep(r, h, i - 1);
      TookEntryStep(r, i - 1, i, u);
    }
  }

  /** The user's entry was added at step k and no rollback has deleted it since. */
  ghost predicate AddedSince(r: Run, k: nat, i: nat, u: UserId)
    requires k < i <= |r.steps| < |r.states|
  {
    Adds(r.states[k], r.steps[k], u) && forall m | k < m < i :: !Purges(r.states[m], r.steps[m], u)
  }

  /** With no hypothesis, and whether or not there is a row: what becomes of an account. */
  lemma {:induction false} AccountHistory(r: Run, h: Hypotheses, i: nat, u: UserId)
    requires IsRun(r, h) && i < |r.states| && u in r.states[i].past.profiles
    ensures HasAccount(r.states[i], u) <==> exists k :: 0 <= k < i && AddedSince(r, k, i, u)
  {
    if i > 0 {
      AlwaysHolds(r, h, i);
      AccountIsEntry(r.states[i], u);
      EntryAtStep(r, h, i - 1, u);
      if u in r.states[i - 1].past.profiles {
        AlwaysHolds(r, h, i - 1);
        AccountHistory(r, h, i - 1, u);
        AccountIsEntry(r.states[i - 1], u);
        AddedSinceStep(r, i - 1, i, u);
      } else {
        NeverAdded(r, h, i, u);
      }
    }
  }

  lemma EntryAtStep(r: Run, h: Hypotheses, i: nat, u: UserId)
    requires IsRun(r, h) && i < |r.steps| && u in r.states[i + 1].past.profiles
    ensures var s, e := r.states[i], r.steps[i];
            HasEntry(r.states[i + 1], u) <==>
                u in s.past.profiles && ((HasEntry(s, u) && !Purges(s, e, u)) || Adds(s, e, u))
  {
    StepMoves(r, h, i);
    var s, e := r.states[i], r.steps[i];
    EntriesMove(s, e, r.states[i + 1]);
    if u !in s.past.profiles {
      FreshUserHasNoEntry(s, e, r.states[i + 1]);
    }
  }

  lemma AddedSinceStep(r: Run, n: nat, i: nat, u: UserId)
    requires i == n + 1 <= |r.steps| < |r.states|
    ensures (exists k :: 0 <= k < i && AddedSince(r, k, i, u)) <==>
              || Adds(r.states[n], r.steps[n], u)
              || (!Purges(r.states[n], r.steps[n], u) && exists k :: 0 <= k < n && AddedSince(r, k, n, u))
  {
    if Adds(r.states[n], r.steps[n], u) {
      assert AddedSince(r, n, i, u);
    }
    if k :| 0 <= k < n && AddedSince(r, k, n, u) {
      assert !Purges(r.states[n], r.steps[n], u) ==> AddedSince(r, k, i, u);
    }
    if k :| 0 <= k < n && AddedSince(r, k, i, u) {
      assert AddedSince(r, k, n, u);
    }
  }

  /** An id just drawn has no tasks behind it. */
  lemma NeverAdded(r: Run, h: Hypotheses, i: nat, u: UserId)
    requires IsRun(r, h) && 0 < i < |r.states| && u !in r.states[i - 1].past.profiles
    ensures !exists k :: 0 <= k < i && AddedSince(r, k, i, u)
  {
    forall k | 0 <= k < i ensures !Adds(r.states[k], r.steps[k], u) {
      AlwaysHolds(r, h, k);
      ProfilesKept(r, h, k, i - 1);
      var s, e := r.states[k], r.steps[k];
      assert Adds(s, e, u) ==> TaskOwned(s, e.job, s.tasks[e.job]);
    }
  }

  lemma {:induction false} ProfilesKept(r: Run, h: Hypotheses, i: nat, k: nat)
    requires IsRun(r, h) && i <= k < |r.states|
    ensures r.states[i].past.profiles.Keys <= r.states[k].past.profiles.Keys
  {
    if i < k {
      ProfilesKept(r, h, i, k - 1);
      HistoryAtStep(r, h, k - 1);
    }
  }

  /** Whatever a rollback's directory call does, it takes no entry but one with its own user's number. */
  lemma RollbackSparesOtherEntries(s: State, e: Step)
    requires Enabled(s, e) && (e.RollbackCommit? || e.RollbackDirectory?)
    ensures forall dn | dn in s.dir.entries && s.dir.entries[dn].employeeNumber != s.handlers[e.handler].user ::
              dn in Next(s, e).dir.entries && Next(s, e).dir.entries[dn] == s.dir.entries[dn]
  {
  }

  lemma AccountAfterStep(r: Run, h: Hypotheses, i: nat, u: UserId)
    requires IsRun(r, h) && i < |r.steps| && u in r.states[i].past.profiles && !r.steps[i].Create?
    ensures HasAccount(r.states[i + 1], u) <==> HasAccount(r.states[i], u) && !Purges(r.states[i], r.steps[i], u)
  {
    AlwaysHolds(r, h, i);
    AlwaysHolds(r, h, i + 1);
    ProfilesKept(r, h, i, i + 1);
    EntryAtStep(r, h, i, u);
    AccountIsEntry(r.states[i], u);
    AccountIsEntry(r.states[i + 1], u);
  }

  /** Deleting a row leaves the account behind, exactly: one it does not delete itself and that was there. */
  lemma RollbackLeavesAccount(r: Run, h: Hypotheses, i: nat, u: UserId)
    requires IsRun(r, h) && i < |r.steps| && h.stagesFresh && h.callbacksDispatched && h.noLateRetry
    requires u in r.states[i].rows && Deletes(r.states[i], r.steps[i], u)
    ensures var s := r.states[i];
            HasAccount(r.states[i + 1], u) <==>
              if s.rows[u].externalId.Some? then u !in s.past.purged && !Purges(s, r.steps[i], u)
              else Adding(s, u) || u in s.past.lost
  {
    RowsAtStep(r, h, i);
    assert RowOwned(r.states[i], u, r.states[i].rows[u]);
    AccountAfterStep(r, h, i, u);
    RowsAndDirectoryAgree(r, h, i, u);
    FencedHolds(r, h, i);
    UnrecordedIsNotPurged(r.states[i], r.steps[i], u);
  }

  lemma UnrecordedIsNotPurged(s: State, e: Step, u: UserId)
    requires PurgesSettled(s) && u in s.rows && !e.Create?
    ensures s.rows[u].externalId.None? ==> !Purges(s, e, u)
  {
    assert Purges(s, e, u) ==> Settled(s, u);
  }

  // ---------------------------------------------------------------- write once

  lemma ExternalIdStays(s: State, e: Step, u: UserId, r: Row)
    requires u in s.rows && RowOwned(s, u, s.rows[u]) && s.rows[u].externalId.Some? && RowStep(s, e, u, r)
    requires ByTaskOf(s, e, u) ==> TaskOwned(s, e.job, s.tasks[e.job])
    ensures r.externalId == s.rows[u].externalId
  {
  }

  lemma StepKeepsExternalId(r: Run, h: Hypotheses, i: nat, u: UserId)
    requires IsRun(r, h) && i < |r.steps| && u in r.states[i].rows && u in r.states[i + 1].rows
    requires r.states[i].rows[u].externalId.Some?
    ensures r.states[i + 1].rows[u].externalId == r.states[i].rows[u].externalId
  {
    StepMoves(r, h, i);
    var s, e := r.states[i], r.steps[i];
    assert RowOwned(s, u, s.rows[u]) && RowStep(s, e, u, r.states[i + 1].rows[u]);
    assert ByTaskOf(s, e, u) ==> TaskOwned(s, e.job, s.tasks[e.job]);
    ExternalIdStays(s, e, u, r.states[i + 1].rows[u]);
  }

  ghost predicate PresentThroughout(r: Run, i: nat, k: nat, u: UserId) {
    forall m | i <= m <= k && m < |r.states| :: u in r.states[m].rows
  }

  /**
   With no hypothesis: from its first commit to the deletion of the row, external_id is the DN of the row's email
   and never changes.
   */
  lemma {:induction false} ExternalIdIsWriteOnce(r: Run, h: Hypotheses, i: nat, k: nat, u: UserId)
    requires IsRun(r, h) && i <= k < |r.states| && PresentThroughout(r, i, k, u)
    requires r.states[i].rows[u].externalId.Some?
    ensures r.states[k].rows[u].externalId == r.states[i].rows[u].externalId
            == Some(DnOf(r.states[k].rows[u].profile.email))
  {
    AlwaysHolds(r, h, k);
    assert RowOwned(r.states[k], u, r.states[k].rows[u]);
    if i < k {
      assert PresentThroughout(r, i, k - 1, u);
      ExternalIdIsWriteOnce(r, h, i, k - 1, u);
      StepKeepsExternalId(r, h, k - 1, u);
    }
  }

  // ---------------------------------------------------------------- job ids

  /** Drawn job ids keep their user, and a superseded one stays superseded. */
  lemma HistoryGrows(s: State, e: Step)
    requires Enabled(s, e)
    ensures forall j | j in s.past.owner :: j in OwnerAfter(s, e) && OwnerAfter(s, e)[j] == s.past.owner[j]
    ensures forall j | j in s.past.retriedAs :: j in RetriedAfter(s, e)
  {
  }

  lemma {:induction false} HistoryKept(r: Run, h: Hypotheses, i: nat, k: nat)
    requires IsRun(r, h) && i <= k < |r.states|
    ensures forall j | j in r.states[i].past.owner ::
              j in r.states[k].past.owner && r.states[k].past.owner[j] == r.states[i].past.owner[j]
    ensures forall j | j in r.states[i].past.retriedAs :: j in r.states[k].past.retriedAs
  {
    if i < k {
      HistoryKept(r, h, i, k - 1);
      assert RunStep(r, h, k - 1);
      HistoryGrows(r.states[k - 1], r.steps[k - 1]);
    }
  }

  /** With no hypothesis: no job id is ever on the rows of two users, in one state or in two. */
  lemma JobIdsBelongToOneUser(r: Run, h: Hypotheses, i: nat, k: nat, u: UserId, v: UserId)
    requires IsRun(r, h) && i <= k < |r.states|
    requires u in r.states[i].rows && v in r.states[k].rows && r.states[i].rows[u].jobId == r.states[k].rows[v].jobId
    ensures u == v
  {
    AlwaysHolds(r, h, i);
    AlwaysHolds(r, h, k);
    assert RowOwned(r.states[i], u, r.states[i].rows[u]) && RowOwned(r.states[k], v, r.states[k].rows[v]);
    HistoryKept(r, h, i, k);
  }

  /** The participants acting for a job: its task, and n8n calling back for it. */
  predicate ActsFor(s: State, e: Step, j: JobId) {
    Actor(e) == Some(j) || (e.Callback? && e.job == j) || (WriteOf(s, e).Some? && WriteOf(s, e).value.job == j)
  }

  /**
   Under H1, H2 and H5: once a retry has replaced job j, no step of j's task and no callback for j
   changes any row, for the rest of the run, and no row carries j again.
   */
  lemma SupersededJobsAreFenced(r: Run, h: Hypotheses, i: nat, k: nat, j: JobId)
    requires IsRun(r, h) && h.stagesFresh && h.callbacksDispatched && h.noLateRetry
    requires i <= k < |r.steps| && j in r.states[i].past.retriedAs
    ensures ActsFor(r.states[k], r.steps[k], j) ==> r.states[k + 1].rows == r.states[k].rows
    ensures Holders(r.states[k].rows, j) == {}
  {
    HistoryKept(r, h, i, k);
    FencedHolds(r, h, k);
    AlwaysHolds(r, h, k);
    var s, e := r.states[k], r.steps[k];
    assert !Live(s, j);
    assert forall u | u in s.rows :: s.rows[u].jobId != Some(j);
    if ActsFor(s, e, j) {
      assert RunStep(r, h, k);
      FencedRows(s, e, j);
    }
  }

  /** A task's status write is for its own job. */
  lemma OwnWrite(s: State, e: Step, j: JobId)
    requires PendingsKnown(s) && ActsFor(s, e, j) && WriteOf(s, e).Some?
    ensures WriteOf(s, e).value.job == j
  {
    var p := WriterOf(e).value;
    assert PendingKnown(s, p, PendingOf(s, p).value);
  }

  /** The step is a task's own write, by user id, and changes something. */
  predicate TaskChangesRows(s: State, e: Step)
    requires Enabled(s, e)
  {
    WrittenByTask(s, e).Some? && WrittenByTask(s, e).value != s.rows
  }

  lemma ActsOnRows(s: State, e: Step, j: JobId)
    requires Enabled(s, e) && ActsFor(s, e, j)
    ensures RowsAfter(s, e) != s.rows <==>
              TaskChangesRows(s, e) || (WriteOf(s, e).Some? && Lands(s.rows, WriteOf(s, e).value, s.now))
  {
    if WriteOf(s, e).Some? {
      StatusWriteGoesByUser(s.rows, WriteOf(s, e).value, s.now);
      assert WrittenByTask(s, e).None?;
    } else if WrittenByTask(s, e).None? {
      assert RowsAfter(s, e) == s.rows;
    }
  }

  lemma FencedRows(s: State, e: Step, j: JobId)
    requires Enabled(s, e) && ActsFor(s, e, j) && !Live(s, j) && Holders(s.rows, j) == {}
    requires PendingsKnown(s) && PendingsFit(s)
    ensures RowsAfter(s, e) == s.rows
  {
    ActsOnRows(s, e, j);
    assert WrittenByTask(s, e).Some? ==> Live(s, j);
    if WriteOf(s, e).Some? {
      OwnWrite(s, e, j);
      FencedWrite(s, WriteOf(s, e).value, WriterOf(e).value);
    }
  }

  lemma FencedWrite(s: State, w: StatusWrite, p: Writer)
    requires PendingsFit(s) && PendingOf(s, p).Some? && PendingOf(s, p).value.write == w && Holders(s.rows, w.job) == {}
    ensures !Lands(s.rows, w, s.now)
  {
    assert PendingFits(s, w);
    assert w.user in s.rows ==> w.user in Holders(s.rows, w.job);
  }

  /** Under H1, H2 and H5: of all the retries of one job id in a run, one succeeds, and so starts one pipeline. */
  lemma RetryStartsOnePipeline(r: Run, h: Hypotheses, i: nat, k: nat)
    requires IsRun(r, h) && h.stagesFresh && h.callbacksDispatched && h.noLateRetry
    requires i < k < |r.steps| && r.steps[i].Retry? && r.steps[k].Retry?
    ensures r.steps[i].job != r.steps[k].job
  {
    RetrySupersedesAtStep(r, h, i);
    SupersededJobsAreFenced(r, h, i + 1, k, r.steps[i].job);
    RetryHasHolder(r, h, k);
  }

  lemma RetrySupersedesAtStep(r: Run, h: Hypotheses, i: nat)
    requires IsRun(r, h) && i < |r.steps| && r.steps[i].Retry?
    ensures r.steps[i].job in r.states[i + 1].past.retriedAs
  {
    HistoryAtStep(r, h, i);
  }

  lemma RetryHasHolder(r: Run, h: Hypotheses, k: nat)
    requires IsRun(r, h) && k < |r.steps| && r.steps[k].Retry?
    ensures Holders(r.states[k].rows, r.steps[k].job) != {}
  {
    RowsAtStep(r, h, k);
    assert r.steps[k].user in Holders(r.states[k].rows, r.steps[k].job);
  }

  /** Task j commits a write by user id, and with it puts its own job id on the user's row. */
  predicate PutsJob(s: State, e: Step, u: UserId, j: JobId) {
    ByTaskOf(s, e, u) && e.job == j && (u in s.rows ==> CarriesJob(s, e, u))
  }

  ghost predicate WritesBack(s: State, e: Step, j: JobId) {
    exists u :: PutsJob(s, e, u, j)
  }

  lemma RowTakesJob(s: State, e: Step, u: UserId, r: Row, j: JobId)
    requires RowStep(s, e, u, r) && Guarded(s, e) && r.jobId == Some(j) && j in s.past.owner
    requires u in s.rows ==> s.rows[u].jobId != Some(j)
    ensures PutsJob(s, e, u, j)
  {
  }

  lemma RetryClearsJob(r: Run, h: Hypotheses, i: nat, u: UserId)
    requires IsRun(r, h) && i < |r.steps| && r.steps[i].Retry?
    ensures r.steps[i].job in r.states[i + 1].past.owner && !Carries(r.states[i + 1].rows, u, r.steps[i].job)
  {
    RowsAtStep(r, h, i);
    HistoryAtStep(r, h, i);
    var s, e := r.states[i], r.steps[i];
    assert RowOwned(s, e.user, s.rows[e.user]);
    if u in r.states[i + 1].rows {
      JobClearedAtStep(s, e, u, r.states[i + 1].rows[u]);
    }
  }

  lemma JobClearedAtStep(s: State, e: Step, u: UserId, r: Row)
    requires e.Retry? && RowsOwned(s) && Guarded(s, e) && RowStep(s, e, u, r)
    ensures r.jobId != Some(e.job)
  {
    assert RowOwned(s, e.user, s.rows[e.user]);
    assert u in s.rows ==> RowOwned(s, u, s.rows[u]);
  }

  /** The user's row carries j from behind step k up to state i. */
  ghost predicate CarriesBetween(r: Run, k: nat, i: nat, u: UserId, j: JobId)
    requires i < |r.states|
  {
    forall m | k < m <= i :: Carries(r.states[m].rows, u, j)
  }

  /** At step k a task of j put its id back on the user's row, where it has stayed up to state i. */
  ghost predicate PutBack(r: Run, k: nat, i: nat, u: UserId, j: JobId)
    requires k < |r.steps| < |r.states| && i < |r.states|
  {
    PutsJob(r.states[k], r.steps[k], u, j) && CarriesBetween(r, k, i, u, j)
  }

  lemma PutBackStep(r: Run, m: nat, n: nat, i: nat, u: UserId, j: JobId)
    requires m < n && i == n + 1 <= |r.steps| < |r.states|
    requires Carries(r.states[i].rows, u, j)
    requires PutsJob(r.states[n], r.steps[n], u, j) || exists k :: m < k < n && PutBack(r, k, n, u, j)
    ensures exists k :: m < k < i && PutBack(r, k, i, u, j)
  {
    if PutsJob(r.states[n], r.steps[n], u, j) {
      assert PutBack(r, n, i, u, j);
    } else {
      var k :| m < k < n && PutBack(r, k, n, u, j);
      assert PutBack(r, k, i, u, j);
    }
  }

  lemma RowTakesJobAtStep(r: Run, h: Hypotheses, n: nat, u: UserId, j: JobId)
    requires IsRun(r, h) && n < |r.steps| && j in r.states[n].past.owner
    requires Carries(r.states[n + 1].rows, u, j) && !Carries(r.states[n].rows, u, j)
    ensures PutsJob(r.states[n], r.steps[n], u, j)
  {
    RowsAtStep(r, h, n);
    RowTakesJob(r.states[n], r.steps[n], u, r.states[n + 1].rows[u], j);
  }

  lemma {:induction false} BackByTask(r: Run, h: Hypotheses, m: nat, i: nat, u: UserId, j: JobId)
    requires IsRun(r, h) && m < i < |r.states| && j in r.states[m + 1].past.owner
    requires !Carries(r.states[m + 1].rows, u, j) && Carries(r.states[i].rows, u, j)
    ensures exists k :: m < k < i && PutBack(r, k, i, u, j)
  {
    var n := i - 1;
    HistoryKept(r, h, m + 1, n);
    if Carries(r.states[n].rows, u, j) {
      BackByTask(r, h, m, n, u, j);
    } else {
      RowTakesJobAtStep(r, h, n, u, j);
    }
    PutBackStep(r, m, n, i, u, j);
  }

  /**
   With no hypothesis: after a retry has replaced j, a row carries j again exactly if a task of that very job, not
   dispatched when it was replaced, has written its id back, and nothing has replaced it since.
   */
  lemma ReplacedJobIsBack(r: Run, h: Hypotheses, m: nat, i: nat, u: UserId)
    requires IsRun(r, h) && m < i < |r.states| && r.steps[m].Retry?
    ensures Carries(r.states[i].rows, u, r.steps[m].job) <==>
              exists k :: m < k < i && PutBack(r, k, i, u, r.steps[m].job)
  {
    RetryClearsJob(r, h, m, u);
    var j := r.steps[m].job;
    if Carries(r.states[i].rows, u, j) {
      BackByTask(r, h, m, i, u, j);
    }
  }

  /** So of any number of concurrent retries of one job id one succeeds: a second needs the id back on the row. */
  lemma SecondRetryNeedsWriteBack(r: Run, h: Hypotheses, i: nat, k: nat)
    requires IsRun(r, h) && i < k < |r.steps| && r.steps[i].Retry? && r.steps[k].Retry?
    requires r.steps[i].job == r.steps[k].job
    ensures exists m :: i < m < k && PutBack(r, m, k, r.steps[k].user, r.steps[i].job)
  {
    RowsAtStep(r, h, k);
    ReplacedJobIsBack(r, h, i, k, r.steps[k].user);
  }

  // ---------------------------------------------------------------- late status writes

  lemma PendingsAtStep(r: Run, h: Hypotheses, i: nat)
    requires IsRun(r, h) && i < |r.steps|
    ensures r.states[i].past.steps == i && Guarded(r.states[i], r.steps[i])
    ensures PendingsMoved(r.states[i], r.steps[i], r.states[i + 1])
  {
    StepMoves(r, h, i);
    AlwaysHolds(r, h, i);
  }

  /** Step k was the first half of the status write, and the row it found carried the write's job. */
  predicate FoundAt(r: Run, k: nat, p: Writer, pending: Pending)
    requires k < |r.steps| < |r.states|
  {
    && LookerOf(r.steps[k]) == Some(p) && LookupOf(r.states[k], r.steps[k]) == Some(pending)
    && Carries(r.states[k].rows, pending.write.user, pending.write.job)
  }

  ghost predicate PendingSince(r: Run, k: nat, i: nat, p: Writer, pending: Pending)
    requires i < |r.states|
  {
    forall m | k < m <= i :: PendingOf(r.states[m], p) == Some(pending)
  }

  /** What a pending status write says, in steps of the run. */
  lemma {:induction false} LookupMeans(r: Run, h: Hypotheses, i: nat, p: Writer)
    requires IsRun(r, h) && i < |r.states| && PendingOf(r.states[i], p).Some?
    ensures var pending := PendingOf(r.states[i], p).value;
            && pending.foundAt < i && FoundAt(r, pending.foundAt, p, pending)
            && PendingSince(r, pending.foundAt, i, p, pending)
  {
    if i > 0 {
      PendingsAtStep(r, h, i - 1);
      assert PendingStep(r.states[i - 1], r.steps[i - 1], p, PendingOf(r.states[i], p).value);
      if PendingOf(r.states[i - 1], p) == PendingOf(r.states[i], p) {
        LookupMeans(r, h, i - 1, p);
      }
    }
  }

  /** Step k is the second half of j's status write and lands; its first half came before step m, or found j back. */
  ghost predicate LandsLate(r: Run, m: nat, k: nat, j: JobId)
    requires m < k < |r.steps| < |r.states|
  {
    var s, e := r.states[k], r.steps[k];
    && WriteOf(s, e).Some? && WriteOf(s, e).value.job == j && Lands(s.rows, WriteOf(s, e).value, s.now)
    && var at := PendingOf(s, WriterOf(e).value).value.foundAt;
       at < m || BackBefore(r, m, at, j)
  }

  ghost predicate BackBefore(r: Run, m: nat, i: nat, j: JobId)
    requires |r.steps| < |r.states|
  {
    exists b :: m < b < i && b < |r.steps| && WritesBack(r.states[b], r.steps[b], j)
  }

  lemma FoundBeforeOrBack(r: Run, h: Hypotheses, m: nat, k: nat, p: Writer)
    requires IsRun(r, h) && m < k < |r.steps| && r.steps[m].Retry? && PendingOf(r.states[k], p).Some?
    requires PendingOf(r.states[k], p).value.write.job == r.steps[m].job
    ensures var at := PendingOf(r.states[k], p).value.foundAt;
            at < m || BackBefore(r, m, at, r.steps[m].job)
  {
    LookupMeans(r, h, k, p);
    var pending := PendingOf(r.states[k], p).value;
    if m < pending.foundAt {
      ReplacedJobIsBack(r, h, m, pending.foundAt, pending.write.user);
      var b :| m < b < pending.foundAt && PutBack(r, b, pending.foundAt, pending.write.user, r.steps[m].job);
      assert WritesBack(r.states[b], r.steps[b], r.steps[m].job);
    }
  }

  /**
   With no hypothesis: once a retry, step m, has replaced j, a step for j changes a row exactly if it is a write of
   j's task by user id, or the second half of a status write with something to change, whose first half came before
   the retry or, later, after j's task had put the id back.
   */
  lemma ReplacedJobWrites(r: Run, h: Hypotheses, m: nat, k: nat)
    requires IsRun(r, h) && m < k < |r.steps| && r.steps[m].Retry?
    requires ActsFor(r.states[k], r.steps[k], r.steps[m].job)
    ensures Enabled(r.states[k], r.steps[k])
    ensures r.states[k + 1].rows != r.states[k].rows <==>
              TaskChangesRows(r.states[k], r.steps[k]) || LandsLate(r, m, k, r.steps[m].job)
  {
    assert RunStep(r, h, k);
    AlwaysHolds(r, h, k);
    var s, e, j := r.states[k], r.steps[k], r.steps[m].job;
    ActsOnRows(s, e, j);
    if WriteOf(s, e).Some? {
      OwnWrite(s, e, j);
      FoundBeforeOrBack(r, h, m, k, WriterOf(e).value);
    }
  }

  /** Such a first half before the retry makes the retry a late one. */
  lemma LateWriteMeansLateRetry(r: Run, h: Hypotheses, m: nat, k: nat, p: Writer)
    requires IsRun(r, h) && m < k < |r.steps| && r.steps[m].Retry? && PendingOf(r.states[k], p).Some?
    requires PendingOf(r.states[k], p).value.write.job == r.steps[m].job
    requires PendingOf(r.states[k], p).value.foundAt < m
    ensures RetriesLate(r, m)
  {
    LookupMeans(r, h, k, p);
    RowsAtStep(r, h, m);
    AlwaysHolds(r, h, m);
    var s, u := r.states[m], r.steps[m].user;
    assert RowOwned(s, u, s.rows[u]);
    assert PendingOf(s, p) == PendingOf(r.states[k], p) && PendingKnown(s, p, PendingOf(s, p).value);
  }

  /** Under H1, H2 and H5: a user never has two tasks that have not dispatched, and the one there is owns the row. */
  lemma OnePipelinePerUser(r: Run, h: Hypotheses, i: nat, a: JobId, b: JobId)
    requires IsRun(r, h) && i < |r.states| && h.stagesFresh && h.callbacksDispatched && h.noLateRetry
    requires Live(r.states[i], a) && Live(r.states[i], b) && r.states[i].tasks[a].user == r.states[i].tasks[b].user
    ensures a == b
    ensures var u := r.states[i].tasks[a].user;
            u in r.states[i].rows ==> r.states[i].rows[u].jobId == Some(a) && InProgress(r.states[i].rows[u].jobStatus)
  {
    FencedHolds(r, h, i);
    var s := r.states[i];
    assert s.tasks[a].user in s.rows ==> Fits(s.tasks[a], a, s.rows[s.tasks[a].user]);
  }

  // ---------------------------------------------------------------- self-collision

  lemma LostAtStep(r: Run, h: Hypotheses, i: nat)
    requires IsRun(r, h) && i < |r.steps|
    ensures LostMoved(r.states[i], r.steps[i], r.states[i + 1].past.lost)
  {
    StepMoves(r, h, i);
  }

  /** What `lost` says, in steps of the run. */
  lemma {:induction false} LostMeans(r: Run, h: Hypotheses, i: nat, u: UserId)
    requires IsRun(r, h) && i < |r.states|
    ensures u in r.states[i].past.lost <==> exists k :: 0 <= k < i && LosesEntry(r.states[k], r.steps[k], u)
  {
    if i > 0 {
      LostMeans(r, h, i - 1, u);
      LostAtStep(r, h, i - 1);
      if LosesEntry(r.states[i - 1], r.steps[i - 1], u) {
        assert exists k :: 0 <= k < i && LosesEntry(r.states[k], r.steps[k], u);
      }
    }
  }

  /**
   Under H1, H2 and H5: when create_user meets an existing entry, it is the user's own if and only if an earlier task
   of this user added it and ended before external_id was committed.
   */
  lemma NoSelfCollision(r: Run, h: Hypotheses, i: nat)
    requires IsRun(r, h) && h.stagesFresh && h.callbacksDispatched && h.noLateRetry
    requires i < |r.steps| && r.steps[i].CreateConflict?
    ensures r.steps[i].job in r.states[i].tasks
    ensures var s, t := r.states[i], r.states[i].tasks[r.steps[i].job];
            var dn := DnOf(t.profile.email);
            && dn in s.dir.entries
            && (s.dir.entries[dn].employeeNumber == t.user <==>
                  exists k :: 0 <= k < i && LosesEntry(r.states[k], r.steps[k], t.user))
  {
    StepMoves(r, h, i);
    FencedHolds(r, h, i);
    var s, j := r.states[i], r.steps[i].job;
    var u := s.tasks[j].user;
    assert TaskOwned(s, j, s.tasks[j]);
    assert u in s.past.lost ==> LostStays(s, u);
    LostMeans(r, h, i, u);
  }

  // ---------------------------------------------------------------- the milestones of a job

  predicate AnnouncedAt(r: Run, k: nat, j: JobId)
    requires k < |r.steps|
  {
    r.steps[k].Announce? && r.steps[k].job == j && r.steps[k].audited
  }

  predicate DispatchedAt(r: Run, k: nat, j: JobId)
    requires k < |r.steps|
  {
    r.steps[k].Post? && r.steps[k].job == j
  }

  /** What the milestone maps say, in steps of the run. */
  lemma {:induction false} AnnouncedMeans(r: Run, h: Hypotheses, i: nat, j: JobId)
    requires IsRun(r, h) && i < |r.states| && j in r.states[i].past.announcedAt
    ensures var k := r.states[i].past.announcedAt[j]; k < i && AnnouncedAt(r, k, j)
  {
    if i > 0 {
      HistoryAtStep(r, h, i - 1);
      if j in r.states[i - 1].past.announcedAt {
        AnnouncedMeans(r, h, i - 1, j);
      }
    }
  }

  lemma {:induction false} DispatchedMeans(r: Run, h: Hypotheses, i: nat, j: JobId)
    requires IsRun(r, h) && i < |r.states| && j in r.states[i].past.dispatchedAt
    ensures var k := r.states[i].past.dispatchedAt[j]; k < i && DispatchedAt(r, k, j)
  {
    if i > 0 {
      HistoryAtStep(r, h, i - 1);
      if j in r.states[i - 1].past.dispatchedAt {
        DispatchedMeans(r, h, i - 1, j);
      }
    }
  }

  /** The order of a job's milestones, under H3. */
  ghost predicate Ordered(s: State) {
    && (forall j | At(s, j, Announced) :: j in s.past.announcedAt)
    && (forall j | j in s.past.announcedAt :: s.past.announcedAt[j] < s.past.steps)
    && (forall j | j in s.past.dispatchedAt ::
          j in s.past.announcedAt && s.past.announcedAt[j] < s.past.dispatchedAt[j] < s.past.steps)
  }

  lemma AnnouncementsKept(s: State, e: Step, s': State)
    requires Ordered(s) && TasksMoved(s, e, s'.tasks) && s'.past.announcedAt == AnnouncedAfter(s, e)
    requires e.Announce? ==> e.audited
    ensures forall j | At(s', j, Announced) :: j in s'.past.announcedAt
  {
    forall j | At(s', j, Announced) ensures j in s'.past.announcedAt {
      assert TaskStep(s, e, j, s'.tasks[j]);
      assert At(s, j, Announced) ==> j in s.past.announcedAt;
    }
  }

  lemma KeepOrdered(s: State, e: Step, s': State)
    requires Ordered(s) && LiveUndispatched(s) && Guarded(s, e)
    requires s'.past.steps == s.past.steps + 1
    requires s'.past.announcedAt == AnnouncedAfter(s, e) && s'.past.dispatchedAt == DispatchedAfter(s, e)
    requires forall j | At(s', j, Announced) :: j in s'.past.announcedAt
    ensures Ordered(s')
  {
    assert e.Announce? ==> e.job !in s.past.dispatchedAt;
    assert e.Post? ==> At(s, e.job, Announced) && e.job !in s.past.dispatchedAt;
  }

  lemma {:induction false} OrderedHolds(r: Run, h: Hypotheses, i: nat)
    requires IsRun(r, h) && i < |r.states| && h.auditsSucceed
    ensures Ordered(r.states[i])
  {
    if i > 0 {
      OrderedHolds(r, h, i - 1);
      StepMoves(r, h, i - 1);
      AnnouncementsKept(r.states[i - 1], r.steps[i - 1], r.states[i]);
      KeepOrdered(r.states[i - 1], r.steps[i - 1], r.states[i]);
    }
  }

  // ---------------------------------------------------------------- the sweeper's promise

  /** The sweeper ticks on time and never finds this user's row locked. */
  predicate SweptOnTime(s: State, e: Step, u: UserId) {
    && (e.Sweep? ==> u !in e.locked)
    && (e.Tick? ==> s.now + e.elapsed <= s.lastSweep + SWEEP_PERIOD)
  }

  predicate FreshAtSweep(s: State, u: UserId, r: Row) {
    InProgress(r.jobStatus) ==> s.lastSweep <= r.updatedAt + STALE_TIMEOUT
  }

  lemma KeepFreshAtSweep(s: State, e: Step, s': State, u: UserId, r: Row)
    requires RowStep(s, e, u, r) && Clocked(s) && SweptOnTime(s, e, u)
    requires u in s.rows ==> FreshAtSweep(s, u, s.rows[u])
    requires s'.lastSweep == if e.Sweep? then s.now else s.lastSweep
    requires e.Sweep? && u in s.rows && Stale(s.rows[u], s.now - STALE_TIMEOUT) ==> Retryable(r.jobStatus)
    ensures FreshAtSweep(s', u, r)
  {
  }

  ghost predicate FreshNow(s: State, u: UserId) {
    s.now <= s.lastSweep + SWEEP_PERIOD && (u in s.rows ==> FreshAtSweep(s, u, s.rows[u]))
  }

  lemma FreshStep(r: Run, h: Hypotheses, i: nat, u: UserId)
    requires IsRun(r, h) && i < |r.steps| && FreshNow(r.states[i], u) && SweptOnTime(r.states[i], r.steps[i], u)
    ensures FreshNow(r.states[i + 1], u)
  {
    StepMoves(r, h, i);
    var s, e, s' := r.states[i], r.steps[i], r.states[i + 1];
    if u in s'.rows {
      assert RowStep(s, e, u, s'.rows[u]);
      if e.Sweep? && u in s.rows && Stale(s.rows[u], s.now - STALE_TIMEOUT) {
        StaleAtStep(r, h, i, u);
      }
      KeepFreshAtSweep(s, e, s', u, s'.rows[u]);
    }
  }

  lemma StaleAtStep(r: Run, h: Hypotheses, i: nat, u: UserId)
    requires IsRun(r, h) && i < |r.steps| && r.steps[i].Sweep? && SweptOnTime(r.states[i], r.steps[i], u)
    requires u in r.states[i].rows && u in r.states[i + 1].rows
    requires Stale(r.states[i].rows[u], r.states[i].now - STALE_TIMEOUT)
    ensures Retryable(r.states[i + 1].rows[u].jobStatus)
  {
    var s := r.states[i];
    SweepAtStep(r, h, i);
    SweepResolves(s.rows, s.now - STALE_TIMEOUT, r.steps[i].locked, s.now);
  }

  lemma SweepAtStep(r: Run, h: Hypotheses, i: nat)
    requires IsRun(r, h) && i < |r.steps| && r.steps[i].Sweep?
    ensures var s := r.states[i]; r.states[i + 1].rows == Swept(s.rows, s.now - STALE_TIMEOUT, r.steps[i].locked, s.now)
  {
    assert RunStep(r, h, i);
  }

  lemma {:induction false} FreshAlong(r: Run, h: Hypotheses, i: nat, u: UserId)
    requires IsRun(r, h) && i < |r.states| && r.states[0].now <= r.states[0].lastSweep + SWEEP_PERIOD
    requires forall k | 0 <= k < i :: SweptOnTime(r.states[k], r.steps[k], u)
    ensures FreshNow(r.states[i], u)
  {
    if i > 0 {
      FreshAlong(r, h, i - 1, u);
      FreshStep(r, h, i - 1, u);
    }
  }

  /**
   A tick a minute, a two-minute timeout: no row whose lock is free stays in progress three minutes past its last
   update.
   */
  lemma NoRowStaysInProgress(r: Run, h: Hypotheses, i: nat, u: UserId)
    requires IsRun(r, h) && i < |r.states|
    requires r.states[0].now <= r.states[0].lastSweep + SWEEP_PERIOD
    requires forall k | 0 <= k < i :: SweptOnTime(r.states[k], r.steps[k], u)
    requires u in r.states[i].rows
    requires r.states[i].rows[u].jobStatus in {PENDING, AD_CREATING, EMAIL_SENDING, JIRA_CREATING}
    ensures r.states[i].now <= r.states[i].rows[u].updatedAt + 3 * MINUTE
  {
    FreshAlong(r, h, i, u);
  }

  lemma RecoveryEnabled(s: State, u: UserId, newJob: JobId, handler: nat, rotate: bool, actor: string)
    requires u in s.rows && s.rows[u].jobId.Some? && Retryable(s.rows[u].jobStatus)
    requires newJob !in s.past.owner && handler !in s.handlers
    ensures Enabled(s, Retry(u, s.rows[u].jobId.value, newJob, rotate, actor)) && Enabled(s, RollbackCheck(handler, u))
  {
  }

  lemma SweptRowIsRetryable(s: State, locked: set<UserId>, u: UserId)
    requires u in s.rows && u !in locked && Stale(s.rows[u], s.now - STALE_TIMEOUT)
    ensures var s' := Next(s, Sweep(locked));
            && u in s'.rows && s'.rows[u].jobId == s.rows[u].jobId && Retryable(s'.rows[u].jobStatus)
            && s'.past.owner == s.past.owner && s'.handlers == s.handlers
  {
    SweepResolves(s.rows, s.now - STALE_TIMEOUT, locked, s.now);
    assert RowsAfter(s, Sweep(locked)) == Swept(s.rows, s.now - STALE_TIMEOUT, locked, s.now);
  }

  /** Every row a tick resolves can at once be retried and rolled back. */
  lemma SweptRowsCanBeRecovered(s: State, locked: set<UserId>, u: UserId, newJob: JobId, handler: nat, rotate: bool,
                                actor: string)
    requires RowsOwned(s) && u in s.rows && u !in locked && Stale(s.rows[u], s.now - STALE_TIMEOUT)
    requires newJob !in s.past.owner && handler !in s.handlers
    ensures s.rows[u].jobId.Some?
    ensures var s' := Next(s, Sweep(locked));
            Enabled(s', Retry(u, s.rows[u].jobId.value, newJob, rotate, actor))
                && Enabled(s', RollbackCheck(handler, u))
  {
    assert RowOwned(s, u, s.rows[u]);
    SweptRowIsRetryable(s, locked, u);
    RecoveryEnabled(Next(s, Sweep(locked)), u, newJob, handler, rotate, actor);
  }
}
