/**
 The fields of a row that the invariants do not look at, the person's own status foremost: what each step does to
 them, and when a person is offboarded.
 */
module OnboardingOffboarding {
  import opened Common
  import opened IsoTime
  import opened OnboardingModel
  import opened OnboardingRecords
  import opened Directory
  import opened OnboardingProtocol
  import opened OnboardingMoves
  import opened OnboardingTheorems

  // ---------------------------------------------------------------- one step

  /** The step marks the user's row as offboarded, and the mark survives. */
  predicate Marks(s: State, e: Step, u: UserId) {
    && e.OffboardMark? && e.audited && e.handler in s.handlers && s.handlers[e.handler].user == u
    && s.handlers[e.handler].pc.OffboardDone?
  }

  predicate PersonMoved(s: State, e: Step, u: UserId, r: Row, r': Row) {
    if Marks(s, e, u) then r'.status == OFFBOARDED && r'.offboardedAt == Some(s.handlers[e.handler].pc.at)
    else r'.status == r.status && r'.offboardedAt == r.offboardedAt
  }

  /** Only a full run's writes name a requester: the task's. */
  predicate RequesterMoved(s: State, e: Step, u: UserId, r: Row, r': Row) {
    r'.requestedBy
    == if ByTaskOf(s, e, u) && s.tasks[e.job].kind == Full then s.tasks[e.job].actor else r.requestedBy
  }

  /** A retry clears the message, a status write brings its own if it has one, the sweeper says why it gave up. */
  predicate MessageMoved(s: State, e: Step, u: UserId, r: Row, r': Row) {
    r'.errorMessage
    == if e.Retry? && e.user == u then None
       else if WritesStatus(s, e, u) && SetsMessage(WriteOf(s, e).value) then WriteOf(s, e).value.err
       else if e.Sweep? && u !in e.locked && InProgress(r.jobStatus) && r.updatedAt + STALE_TIMEOUT < s.now then
         Some(if r.externalId.Some? then NoConfirmation(2) else NoProgress(2))
       else r.errorMessage
  }

  predicate BornActive(s: State, e: Step, r: Row) {
    && r.status == ACTIVE && r.offboardedAt.None? && r.errorMessage.None?
    && r.requestedBy == (if e.Onboard? then e.actor
                         else if (e.Record? || e.Announce?) && e.job in s.tasks then s.tasks[e.job].actor else "")
  }

  predicate RestMoved(s: State, e: Step, u: UserId, r: Row) {
    if u in s.rows then
      && PersonMoved(s, e, u, s.rows[u], r)
      && RequesterMoved(s, e, u, s.rows[u], r)
      && MessageMoved(s, e, u, s.rows[u], r)
    else BornActive(s, e, r)
  }

  ghost predicate RestOfRowsMoved(s: State, e: Step, rows: Table) {
    forall u | u in rows :: RestMoved(s, e, u, rows[u])
  }

  lemma StatusWriteRest(s: State, e: Step)
    requires Enabled(s, e) && WriteOf(s, e).Some?
    ensures RestOfRowsMoved(s, e, RowsAfter(s, e))
  {
    var rows := StatusFlushed(s.rows, WriteOf(s, e).value, s.now);
    assert RowsAfter(s, e) == rows;
    forall u | u in rows ensures RestMoved(s, e, u, rows[u]) {
      assert !ByTaskOf(s, e, u) && !Marks(s, e, u);
    }
  }

  lemma TaskWriteRest(s: State, e: Step)
    requires Enabled(s, e) && WrittenByTask(s, e).Some?
    ensures RestOfRowsMoved(s, e, RowsAfter(s, e))
  {
  }

  lemma RequestRest(s: State, e: Step)
    requires Enabled(s, e) && (e.Onboard? || e.Retry?)
    ensures RestOfRowsMoved(s, e, RowsAfter(s, e))
  {
  }

  lemma SweepRest(s: State, e: Step)
    requires Enabled(s, e) && e.Sweep?
    ensures RestOfRowsMoved(s, e, RowsAfter(s, e))
  {
  }

  lemma MarkRest(s: State, e: Step)
    requires Enabled(s, e) && e.OffboardMark?
    ensures RestOfRowsMoved(s, e, RowsAfter(s, e))
  {
  }

  lemma DeleteRest(s: State, e: Step)
    requires Enabled(s, e) && DeletedRow(s, e).Some?
    ensures RestOfRowsMoved(s, e, RowsAfter(s, e))
  {
  }

  lemma OtherRest(s: State, e: Step)
    requires Enabled(s, e) && WriteOf(s, e).None? && WrittenByTask(s, e).None? && DeletedRow(s, e).None?
    requires !e.Onboard? && !e.Retry? && !e.Sweep? && !e.OffboardMark?
    ensures RestOfRowsMoved(s, e, RowsAfter(s, e))
  {
    assert RowsAfter(s, e) == s.rows;
    forall u | u in s.rows ensures RestMoved(s, e, u, s.rows[u]) {
      assert !ByTaskOf(s, e, u);
    }
  }

  /** What every step does to person status, offboarding time, requester and message of every row. */
  lemma RestOfRowsMoves(s: State, e: Step)
    requires Enabled(s, e)
    ensures RestOfRowsMoved(s, e, RowsAfter(s, e))
  {
    if e.Sweep? {
      SweepRest(s, e);
    } else if WriteOf(s, e).Some? {
      StatusWriteRest(s, e);
    } else if WrittenByTask(s, e).Some? {
      TaskWriteRest(s, e);
    } else if e.Onboard? || e.Retry? {
      RequestRest(s, e);
    } else if e.OffboardMark? {
      MarkRest(s, e);
    } else if DeletedRow(s, e).Some? {
      DeleteRest(s, e);
    } else {
      OtherRest(s, e);
    }
  }

  // ---------------------------------------------------------------- over runs

  lemma RestAtStep(r: Run, h: Hypotheses, i: nat, u: UserId)
    requires IsRun(r, h) && i < |r.steps| && u in r.states[i + 1].rows
    ensures RestMoved(r.states[i], r.steps[i], u, r.states[i + 1].rows[u])
  {
    assert RunStep(r, h, i);
    RestOfRowsMoves(r.states[i], r.steps[i]);
  }

  /** Step k marked the user's row, which has been there ever since. */
  ghost predicate MarkedSince(r: Run, k: nat, i: nat, u: UserId)
    requires k < i <= |r.steps| < |r.states|
  {
    Marks(r.states[k], r.steps[k], u) && PresentThroughout(r, k, i, u)
  }

  lemma MarkedSinceStep(r: Run, n: nat, i: nat, u: UserId)
    requires i == n + 1 <= |r.steps| < |r.states| && u in r.states[i].rows
    ensures (exists k :: 0 <= k < i && MarkedSince(r, k, i, u)) <==>
              && u in r.states[n].rows
              && (Marks(r.states[n], r.steps[n], u) || exists k :: 0 <= k < n && MarkedSince(r, k, n, u))
  {
    if u in r.states[n].rows && Marks(r.states[n], r.steps[n], u) {
      assert MarkedSince(r, n, i, u);
    }
    if k :| 0 <= k < n && MarkedSince(r, k, n, u) {
      assert u in r.states[n].rows && MarkedSince(r, k, i, u);
    }
    if k :| 0 <= k < n && MarkedSince(r, k, i, u) {
      assert MarkedSince(r, k, n, u);
    }
  }

  /**
   With no hypothesis: a person is OFFBOARDED, with a time, exactly if the audited mark of an offboarding came at some
   step since which the row has been there.
   */
  lemma {:induction false} OffboardedExactly(r: Run, h: Hypotheses, i: nat, u: UserId)
    requires IsRun(r, h) && i < |r.states| && u in r.states[i].rows
    ensures r.states[i].rows[u].status == OFFBOARDED <==> exists k :: 0 <= k < i && MarkedSince(r, k, i, u)
    ensures r.states[i].rows[u].status == OFFBOARDED <==> r.states[i].rows[u].offboardedAt.Some?
  {
    var n := i - 1;
    if i > 0 {
      RestAtStep(r, h, n, u);
      if u in r.states[n].rows {
        OffboardedExactly(r, h, n, u);
      }
      MarkedSinceStep(r, n, i, u);
    }
  }

  /** At step c the offboarding handler's directory call met an entry of its user, and this is the time it reported. */
  predicate ReportsTime(s: State, e: Step, handler: nat, u: UserId, at: Stamp) {
    && e.OffboardDirectory? && e.handler == handler && e.dn in Matching(s.dir, u)
    && at == if IsOffboarded(s.dir.entries[e.dn]) && OffboardTime(s.dir.entries[e.dn]).Some?
             then OffboardTime(s.dir.entries[e.dn]).value else e.at
  }

  lemma DoneAtStep(s: State, e: Step, handler: nat, k: Handler)
    requires Enabled(s, e) && handler in HandlersAfter(s, e) && HandlersAfter(s, e)[handler] == k && k.pc.OffboardDone?
    ensures (handler in s.handlers && s.handlers[handler] == k)
            || (ReportsTime(s, e, handler, k.user, k.pc.at)
                && handler in s.handlers && s.handlers[handler] == k.(pc := OffboardChecked))
  {
  }

  /** What an offboarding that is about to mark the row goes back to: the directory call whose time it will write. */
  lemma {:induction false} DoneMeans(r: Run, h: Hypotheses, i: nat, handler: nat)
    requires IsRun(r, h) && i < |r.states| && handler in r.states[i].handlers
    requires r.states[i].handlers[handler].pc.OffboardDone?
    ensures var k := r.states[i].handlers[handler];
            exists c :: 0 <= c < i && ReportsTime(r.states[c], r.steps[c], handler, k.user, k.pc.at)
  {
    if i > 0 {
      var k := r.states[i].handlers[handler];
      assert RunStep(r, h, i - 1);
      DoneAtStep(r.states[i - 1], r.steps[i - 1], handler, k);
      if handler in r.states[i - 1].handlers && r.states[i - 1].handlers[handler] == k {
        DoneMeans(r, h, i - 1, handler);
      } else {
        assert ReportsTime(r.states[i - 1], r.steps[i - 1], handler, k.user, k.pc.at);
      }
    }
  }

  predicate Offboarding(pc: HandlerPc) {
    pc.OffboardChecked? || pc.OffboardDone?
  }

  /** And to the check before it, which found the row of its user COMPLETED. */
  lemma {:induction false} OffboardingMeans(r: Run, h: Hypotheses, i: nat, handler: nat)
    requires IsRun(r, h) && i < |r.states| && handler in r.states[i].handlers
    requires Offboarding(r.states[i].handlers[handler].pc)
    ensures var k := r.states[i].handlers[handler];
            && k.checkedAt < i && r.steps[k.checkedAt].OffboardCheck? && k.user in r.states[k.checkedAt].rows
            && r.states[k.checkedAt].rows[k.user].jobStatus == COMPLETED
  {
    if i > 0 {
      HandlerAtStep(r, h, i - 1, handler);
      if handler in r.states[i - 1].handlers {
        OffboardingMeans(r, h, i - 1, handler);
      }
    }
  }
}
