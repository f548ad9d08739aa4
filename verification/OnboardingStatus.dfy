/**
 What a row's job status tells: whether a FAILED row has an account, what can still change a COMPLETED or FAILED
 one, where COMPLETED comes from, and when a rollback deletes a COMPLETED row.
 */
module OnboardingStatus {
  import opened Common
  import opened OnboardingModel
  import opened OnboardingRecords
  import opened OnboardingProtocol
  import opened OnboardingMoves
  import opened OnboardingInvariant
  import opened OnboardingFencing
  import opened OnboardingTheorems

  // ---------------------------------------------------------------- FAILED and the account

  /**
   Under H1, H2 and H5, a FAILED row has an account exactly if its external id is recorded and no rollback has taken
   the entry, or a task of its user ended between the LDAP add and the commit.
   */
  lemma FailedAccount(r: Run, h: Hypotheses, i: nat, u: UserId)
    requires IsRun(r, h) && i < |r.states| && h.stagesFresh && h.callbacksDispatched && h.noLateRetry
    requires u in r.states[i].rows && r.states[i].rows[u].jobStatus == FAILED
    ensures var s := r.states[i];
            var lost := exists k :: 0 <= k < i && LosesEntry(r.states[k], r.steps[k], u);
            && (HasAccount(s, u) <==> (s.rows[u].externalId.Some? && u !in s.past.purged) || lost)
            && (h.auditsSucceed && h.rollbackAtomic ==> (HasAccount(s, u) <==> s.rows[u].externalId.Some? || lost))
  {
    FencedHolds(r, h, i);
    RowsAndDirectoryAgree(r, h, i, u);
    LostMeans(r, h, i, u);
    var s := r.states[i];
    assert u in s.past.lost ==> LostStays(s, u);
    NotAddingWhenOver(s, u);
    if h.auditsSucceed && h.rollbackAtomic {
      NothingPurged(r, h, i);
    }
  }

  /** COMPLETED or FAILED, which ought to be the end. */
  predicate Over(st: JobStatus) {
    st == COMPLETED || st == FAILED
  }

  lemma NotAddingWhenOver(s: State, u: UserId)
    requires LiveTasksFit(s) && u in s.rows && Over(s.rows[u].jobStatus)
    ensures !Adding(s, u)
  {
    if j :| AddingFor(s, j, u) {
      NotLiveWhenOver(s, j, u);
    }
  }

  lemma NotLiveWhenOver(s: State, j: JobId, u: UserId)
    requires LiveTasksFit(s) && u in s.rows && Over(s.rows[u].jobStatus)
    ensures !(Live(s, j) && s.tasks[j].user == u)
  {
    assert Live(s, j) && s.tasks[j].user == u ==> Fits(s.tasks[j], j, s.rows[u]);
  }

  // ---------------------------------------------------------------- what changes a status that is over

  /** A status write on the user's row that carries a status, another one than the row's. */
  predicate StatusWriteChanges(s: State, e: Step, u: UserId) {
    && WritesStatus(s, e, u) && u in s.rows && SetsStatus(WriteOf(s, e).value)
    && WriteOf(s, e).value.to != s.rows[u].jobStatus
  }

  /** A task's own write that carries a status. */
  predicate TaskSetsStatus(s: State, e: Step, u: UserId) {
    ByTaskOf(s, e, u) && CarriesStatus(s, e, u)
  }

  lemma OverMoves(s: State, e: Step, u: UserId, r: Row)
    requires u in s.rows && Over(s.rows[u].jobStatus) && RowStep(s, e, u, r)
    ensures r.jobStatus != s.rows[u].jobStatus <==>
              || (e.Retry? && e.user == u)
              || StatusWriteChanges(s, e, u)
              || TaskSetsStatus(s, e, u)
  {
  }

  lemma NoTaskWriteWhenOver(r: Run, h: Hypotheses, i: nat, u: UserId)
    requires IsRun(r, h) && i < |r.steps| && h.stagesFresh && h.callbacksDispatched && h.noLateRetry
    requires u in r.states[i].rows && Over(r.states[i].rows[u].jobStatus)
    ensures !ByTaskOf(r.states[i], r.steps[i], u)
  {
    FencedHolds(r, h, i);
    if ByTaskOf(r.states[i], r.steps[i], u) {
      NotLiveWhenOver(r.states[i], r.steps[i].job, u);
    }
  }

  /**
   A status that is over changes exactly by a retry of its row, by a status write that carries another status, or by
   a write of a task of its user that has not dispatched and carries one; under H1, H2 and H5 never by the third, and
   the status write is for the job the row carries.
   */
  lemma OverChangesExactly(r: Run, h: Hypotheses, i: nat, u: UserId)
    requires IsRun(r, h) && i < |r.steps|
    requires u in r.states[i].rows && u in r.states[i + 1].rows && Over(r.states[i].rows[u].jobStatus)
    ensures var s, e := r.states[i], r.steps[i];
            && (r.states[i + 1].rows[u].jobStatus != s.rows[u].jobStatus <==>
                  (e.Retry? && e.user == u) || StatusWriteChanges(s, e, u) || TaskSetsStatus(s, e, u))
            && (h.stagesFresh && h.callbacksDispatched && h.noLateRetry ==>
                  && !ByTaskOf(s, e, u)
                  && (StatusWriteChanges(s, e, u) ==> s.rows[u].jobId == Some(WriteOf(s, e).value.job)))
  {
    RowsAtStep(r, h, i);
    OverMoves(r.states[i], r.steps[i], u, r.states[i + 1].rows[u]);
    if h.stagesFresh && h.callbacksDispatched && h.noLateRetry {
      NoTaskWriteWhenOver(r, h, i, u);
      if WritesStatus(r.states[i], r.steps[i], u) {
        WriteIsForRowsJob(r, h, i, u);
      }
    }
  }

  lemma WriteIsForRowsJob(r: Run, h: Hypotheses, i: nat, u: UserId)
    requires IsRun(r, h) && i < |r.steps| && h.stagesFresh && h.callbacksDispatched && h.noLateRetry
    requires WritesStatus(r.states[i], r.steps[i], u) && u in r.states[i].rows
    ensures r.states[i].rows[u].jobId == Some(WriteOf(r.states[i], r.steps[i]).value.job)
  {
    FencedHolds(r, h, i);
    WriteFits(r.states[i], r.steps[i], u);
  }

  lemma WriteFits(s: State, e: Step, u: UserId)
    requires PendingsFit(s) && WritesStatus(s, e, u) && u in s.rows
    ensures s.rows[u].jobId == Some(WriteOf(s, e).value.job)
  {
    assert PendingFits(s, WriteOf(s, e).value);
  }

  // ---------------------------------------------------------------- where COMPLETED comes from

  /** Step k is the UPDATE of a status write that carries COMPLETED to the user's row. */
  predicate CompletesRow(r: Run, k: nat, u: UserId)
    requires k < |r.steps| < |r.states|
  {
    var s, e := r.states[k], r.steps[k];
    WritesStatus(s, e, u) && u in s.rows && SetsStatus(WriteOf(s, e).value) && WriteOf(s, e).value.to == COMPLETED
  }

  predicate StatusStays(r: Run, m: nat, u: UserId)
    requires m < |r.steps| < |r.states|
  {
    u in r.states[m].rows && u in r.states[m + 1].rows
        && r.states[m + 1].rows[u].jobStatus == r.states[m].rows[u].jobStatus
  }

  ghost predicate StatusStaysBetween(r: Run, k: nat, i: nat, u: UserId)
    requires i <= |r.steps| < |r.states|
  {
    forall m | k < m < i :: StatusStays(r, m, u)
  }

  lemma CompletingStep(s: State, e: Step, u: UserId, row: Row)
    requires RowStep(s, e, u, row) && row.jobStatus == COMPLETED && (u in s.rows ==> s.rows[u].jobStatus != COMPLETED)
    ensures WritesStatus(s, e, u) && u in s.rows
    ensures SetsStatus(WriteOf(s, e).value) && WriteOf(s, e).value.to == COMPLETED
  {
  }

  lemma CompletedAtStep(r: Run, h: Hypotheses, n: nat, u: UserId)
    requires IsRun(r, h) && n < |r.steps|
    requires u in r.states[n].rows ==> r.states[n].rows[u].jobStatus != COMPLETED
    requires u in r.states[n + 1].rows && r.states[n + 1].rows[u].jobStatus == COMPLETED
    ensures CompletesRow(r, n, u)
  {
    RowsAtStep(r, h, n);
    CompletingStep(r.states[n], r.steps[n], u, r.states[n + 1].rows[u]);
  }

  lemma {:induction false} CompletedBy(r: Run, h: Hypotheses, c: nat, i: nat, u: UserId)
    requires IsRun(r, h) && c < i < |r.states|
    requires u in r.states[c].rows ==> r.states[c].rows[u].jobStatus != COMPLETED
    requires u in r.states[i].rows && r.states[i].rows[u].jobStatus == COMPLETED
    ensures exists k :: c <= k < i && CompletesRow(r, k, u) && StatusStaysBetween(r, k, i, u)
  {
    var n := i - 1;
    if u in r.states[n].rows && r.states[n].rows[u].jobStatus == COMPLETED {
      CompletedBy(r, h, c, n, u);
      var k :| c <= k < n && CompletesRow(r, k, u) && StatusStaysBetween(r, k, n, u);
      StaysOneMore(r, k, n, i, u);
    } else {
      CompletedAtStep(r, h, n, u);
      assert StatusStaysBetween(r, n, i, u);
    }
  }

  lemma StaysOneMore(r: Run, k: nat, n: nat, i: nat, u: UserId)
    requires i == n + 1 <= |r.steps| < |r.states| && StatusStaysBetween(r, k, n, u) && StatusStays(r, n, u)
    ensures StatusStaysBetween(r, k, i, u)
  {
  }

  lemma CompletesAtOnce(r: Run, h: Hypotheses, k: nat, u: UserId)
    requires IsRun(r, h) && k < |r.steps| && CompletesRow(r, k, u)
    ensures u in r.states[k + 1].rows && r.states[k + 1].rows[u].jobStatus == COMPLETED
  {
    assert RunStep(r, h, k);
    StatusWriteGoesByUser(r.states[k].rows, WriteOf(r.states[k], r.steps[k]).value, r.states[k].now);
  }

  lemma {:induction false} CompletedStays(r: Run, h: Hypotheses, k: nat, i: nat, u: UserId)
    requires IsRun(r, h) && k < i < |r.states| && CompletesRow(r, k, u) && StatusStaysBetween(r, k, i, u)
    ensures u in r.states[i].rows && r.states[i].rows[u].jobStatus == COMPLETED
  {
    if i == k + 1 {
      CompletesAtOnce(r, h, k, u);
    } else {
      assert StatusStaysBetween(r, k, i - 1, u);
      CompletedStays(r, h, k, i - 1, u);
      assert StatusStays(r, i - 1, u);
    }
  }

  /** At step c n8n reported COMPLETED for j, and the lookup of that callback found the user's row carrying j. */
  predicate ReportedAt(r: Run, c: nat, u: UserId, j: JobId)
    requires c < |r.steps| < |r.states|
  {
    && r.steps[c].Callback? && r.steps[c].job == j && r.steps[c].reported == COMPLETED
    && Carries(r.states[c].rows, u, j)
  }

  /** Whatever writes COMPLETED is a callback that found the row. */
  lemma CompletingIsCallback(r: Run, h: Hypotheses, k: nat, u: UserId)
    requires IsRun(r, h) && k < |r.steps| && CompletesRow(r, k, u)
    ensures var at, w := FoundOf(r, k), WriteOf(r.states[k], r.steps[k]).value;
            at < k && ReportedAt(r, at, u, w.job)
  {
    var p := WriterOf(r.steps[k]).value;
    LookupMeans(r, h, k, p);
    assert FoundAt(r, FoundOf(r, k), p, PendingOf(r.states[k], p).value);
  }

  /** The step at which the status write of step k found its row. */
  function FoundOf(r: Run, k: nat): nat
    requires k < |r.steps| < |r.states| && WriteOf(r.states[k], r.steps[k]).Some?
  {
    PendingOf(r.states[k], WriterOf(r.steps[k]).value).value.foundAt
  }

  /** Step k completes the row with what n8n reported for j at step c. */
  predicate CompletesFor(r: Run, c: nat, k: nat, u: UserId, j: JobId)
    requires c < k < |r.steps| < |r.states|
  {
    CompletesRow(r, k, u) && WriteOf(r.states[k], r.steps[k]).value.job == j && FoundOf(r, k) == c
        && ReportedAt(r, c, u, j)
  }

  lemma JobStaysWhenOver(r: Run, h: Hypotheses, n: nat, u: UserId)
    requires IsRun(r, h) && n < |r.steps| && h.stagesFresh && h.callbacksDispatched && h.noLateRetry
    requires u in r.states[n].rows && r.states[n].rows[u].jobStatus == COMPLETED && u in r.states[n + 1].rows
    ensures r.states[n + 1].rows[u].jobId == r.states[n].rows[u].jobId
  {
    NoTaskWriteWhenOver(r, h, n, u);
    RowsAtStep(r, h, n);
    JobOfRowMoves(r.states[n], r.steps[n], u, r.states[n + 1].rows[u]);
    assert RowOwned(r.states[n], u, r.states[n].rows[u]);
  }

  lemma {:induction false} CompletedKeepsJob(r: Run, h: Hypotheses, k: nat, i: nat, u: UserId)
    requires IsRun(r, h) && k < i < |r.states| && h.stagesFresh && h.callbacksDispatched && h.noLateRetry
    requires CompletesRow(r, k, u) && StatusStaysBetween(r, k, i, u)
    ensures u in r.states[i].rows && r.states[i].rows[u].jobStatus == COMPLETED
    ensures r.states[i].rows[u].jobId == Some(WriteOf(r.states[k], r.steps[k]).value.job)
  {
    if i == k + 1 {
      CompletesAtOnce(r, h, k, u);
      WriteIsForRowsJob(r, h, k, u);
      assert RunStep(r, h, k);
    } else {
      assert StatusStaysBetween(r, k, i - 1, u);
      CompletedKeepsJob(r, h, k, i - 1, u);
      assert StatusStays(r, i - 1, u);
      JobStaysWhenOver(r, h, i - 1, u);
    }
  }

  /**
   With no hypothesis: a row is COMPLETED exactly if a callback's UPDATE made it so and no step has changed the
   status since; and that callback reported COMPLETED for the job the row carried when its SELECT found it.
   */
  lemma CompletedIsReported(r: Run, h: Hypotheses, i: nat, u: UserId)
    requires IsRun(r, h) && i < |r.states|
    ensures u in r.states[i].rows && r.states[i].rows[u].jobStatus == COMPLETED <==>
              exists c, k, j :: 0 <= c < k < i && CompletesFor(r, c, k, u, j) && StatusStaysBetween(r, k, i, u)
  {
    if u in r.states[i].rows && r.states[i].rows[u].jobStatus == COMPLETED {
      CompletedBy(r, h, 0, i, u);
      var k :| 0 <= k < i && CompletesRow(r, k, u) && StatusStaysBetween(r, k, i, u);
      CompletingIsCallback(r, h, k, u);
      assert CompletesFor(r, FoundOf(r, k), k, u, WriteOf(r.states[k], r.steps[k]).value.job);
    }
    if c, k, j :| 0 <= c < k < i && CompletesFor(r, c, k, u, j) && StatusStaysBetween(r, k, i, u) {
      CompletedStays(r, h, k, i, u);
    }
  }

  /** Under H1, H2 and H5 that is the job the row still carries. */
  lemma CompletedJobIsReported(r: Run, h: Hypotheses, i: nat, u: UserId)
    requires IsRun(r, h) && i < |r.states| && h.stagesFresh && h.callbacksDispatched && h.noLateRetry
    requires u in r.states[i].rows && r.states[i].rows[u].jobStatus == COMPLETED
    ensures r.states[i].rows[u].jobId.Some?
    ensures exists c, k :: 0 <= c < k < i && CompletesFor(r, c, k, u, r.states[i].rows[u].jobId.value)
  {
    CompletedIsReported(r, h, i, u);
    var c, k, j :| 0 <= c < k < i && CompletesFor(r, c, k, u, j) && StatusStaysBetween(r, k, i, u);
    CompletedKeepsJob(r, h, k, i, u);
  }

  lemma ReportedWasDispatched(r: Run, h: Hypotheses, c: nat, u: UserId, j: JobId)
    requires IsRun(r, h) && c < |r.steps| && h.callbacksDispatched && h.auditsSucceed && ReportedAt(r, c, u, j)
    ensures exists a, d :: 0 <= a < d < c && AnnouncedAt(r, a, j) && DispatchedAt(r, d, j)
  {
    assert RunStep(r, h, c);
    OrderedHolds(r, h, c);
    DispatchedMeans(r, h, c, j);
    AnnouncedMeans(r, h, c, j);
  }

  /**
   Under H1, H2, H3 and H5: a COMPLETED row has its external id recorded, and the job it carries went through the
   EMAIL_SENDING commit, then the n8n dispatch, then the COMPLETED callback, then the write of that callback.
   */
  lemma CompletedWentThroughDispatch(r: Run, h: Hypotheses, i: nat, u: UserId)
    requires IsRun(r, h) && i < |r.states|
    requires h.stagesFresh && h.callbacksDispatched && h.auditsSucceed && h.noLateRetry
    requires u in r.states[i].rows && r.states[i].rows[u].jobStatus == COMPLETED
    ensures r.states[i].rows[u].externalId.Some? && r.states[i].rows[u].jobId.Some?
    ensures var j := r.states[i].rows[u].jobId.value;
            exists a, d, c, k ::
              0 <= a < d < c < k < i && AnnouncedAt(r, a, j) && DispatchedAt(r, d, j) && CompletesFor(r, c, k, u, j)
  {
    CompletedJobIsReported(r, h, i, u);
    var j := r.states[i].rows[u].jobId.value;
    var c, k :| 0 <= c < k < i && CompletesFor(r, c, k, u, j);
    ReportedWasDispatched(r, h, c, u, j);
    DispatchedHasId(r, h, c, i, u, j);
  }

  lemma DispatchedHasId(r: Run, h: Hypotheses, c: nat, i: nat, u: UserId, j: JobId)
    requires IsRun(r, h) && c < i < |r.states| && c < |r.steps|
    requires h.stagesFresh && h.callbacksDispatched && h.noLateRetry
    requires ReportedAt(r, c, u, j) && Carries(r.states[i].rows, u, j)
    ensures r.states[i].rows[u].externalId.Some?
  {
    assert RunStep(r, h, c);
    DispatchedKept(r, h, c, i);
    FencedHolds(r, h, i);
  }

  lemma {:induction false} DispatchedKept(r: Run, h: Hypotheses, i: nat, k: nat)
    requires IsRun(r, h) && i <= k < |r.states|
    ensures r.states[i].past.dispatchedAt.Keys <= r.states[k].past.dispatchedAt.Keys
  {
    if i < k {
      DispatchedKept(r, h, i, k - 1);
      HistoryAtStep(r, h, k - 1);
    }
  }

  // ---------------------------------------------------------------- rollback and COMPLETED

  /** The handler's check was step c, and it found the row of its user FAILED or PARTIALLY_COMPLETE. */
  predicate CheckedAt(r: Run, c: nat, x: Handler)
    requires c < |r.steps| < |r.states|
  {
    && r.steps[c].RollbackCheck? && x.user in r.states[c].rows && Retryable(r.states[c].rows[x.user].jobStatus)
  }

  lemma {:induction false} CheckMeans(r: Run, h: Hypotheses, i: nat, k: nat)
    requires IsRun(r, h) && i < |r.states| && k in r.states[i].handlers && RollingBack(r.states[i].handlers[k].pc)
    ensures var x := r.states[i].handlers[k]; x.checkedAt < i && CheckedAt(r, x.checkedAt, x)
  {
    if i > 0 {
      HandlerAtStep(r, h, i - 1, k);
      if k in r.states[i - 1].handlers {
        CheckMeans(r, h, i - 1, k);
      }
    }
  }

  /**
   With no hypothesis: the row a rollback deletes is COMPLETED if and only if, strictly between the rollback's own
   status check and the delete, a callback's UPDATE made it so and no step changed the row's status after that. The
   callback's SELECT may have come before the check, and the row may carry another job by the time of its UPDATE.
   */
  lemma RollbackOfCompleted(r: Run, h: Hypotheses, i: nat, u: UserId)
    requires IsRun(r, h) && i < |r.steps| && u in r.states[i].rows && Deletes(r.states[i], r.steps[i], u)
    ensures r.states[i].rows[u].jobStatus == COMPLETED <==>
              exists k :: r.states[i].handlers[r.steps[i].handler].checkedAt < k < i
                          && CompletesRow(r, k, u) && StatusStaysBetween(r, k, i, u)
  {
    var c := r.states[i].handlers[r.steps[i].handler].checkedAt;
    CheckMeans(r, h, i, r.steps[i].handler);
    if r.states[i].rows[u].jobStatus == COMPLETED {
      CompletedBy(r, h, c, i, u);
    }
    if k :| c < k < i && CompletesRow(r, k, u) && StatusStaysBetween(r, k, i, u) {
      CompletedStays(r, h, k, i, u);
    }
  }
}
