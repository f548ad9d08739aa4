/**
 The request handlers of backend/routers/onboard.py, each run without interference, against the
 protocol: a handler gets through exactly when its first step is enabled and nothing it calls raises, and leaves
 the committed rows and the directory as its steps do. `s` is the protocol's view of the world the handler starts
 in. `stored` says whether the handler's own database writes succeed; where they do not, the request ends with an
 error, the session is rolled back, and the handler is gone.
 */
module OnboardingHandlers {
  import opened Common
  import opened IsoTime
  import opened OnboardingModel
  import opened OnboardingRecords
  import opened Directory
  import opened OnboardingProtocol
  import JobStore

  datatype HttpError = Unauthorized | NotFoundError | ConflictError | ServerError

  ghost predicate Sees(s: State, db: Session)
    reads db
  {
    s.rows == db.committed == db.working
  }

  /** The job is created before the insert is tried, so a refused request leaves it in the store. */
  method OnboardUser(db: Session, jobs: JobStore.JobStore, profile: Profile, actor: string, u: UserId, j: JobId,
                     stored: bool, ghost s: State, now: nat)
    returns (r: Result<JobId, HttpError>)
    requires Sees(s, db) && s.now == now && u !in s.past.profiles && j !in s.past.owner && Matching(s.dir, u) == {}
    modifies db, jobs
    ensures r == if !Enabled(s, Onboard(u, j, profile, actor)) then Err(ConflictError)
                 else if stored then Ok(j) else Err(ServerError)
    ensures db.committed == if r.Ok? then Next(s, Onboard(u, j, profile, actor)).rows else s.rows
    ensures jobs.jobs == old(jobs.jobs)[j := JobStore.NewJob(PENDING, now)]
  {
    jobs.CreateJob(j, PENDING, now);
    var record := db.CreatePendingOnboardingRecord(u, j, actor, profile, now);
    if record.Err? {
      return Err(ConflictError);
    }
    if !stored {
      db.Rollback();
      return Err(ServerError);
    }
    db.Commit();
    r := Ok(j);
  }

  /** The rows as a callback's two steps leave them, the SELECT and, if it found a row, the UPDATE. */
  ghost predicate ReportedBySteps(s: State, h: nat, j: JobId, reported: JobStatus, err: Option<ErrorText>, rows: Table)
  {
    exists found, loaded ::
      && Enabled(s, Callback(h, j, reported, err, found, loaded))
      && var s1 := Next(s, Callback(h, j, reported, err, found, loaded));
         if found.None? then s1.rows == rows
         else Enabled(s1, CallbackWrite(h)) && Next(s1, CallbackWrite(h)).rows == rows
  }

  lemma CallbackSteps(s: State, h: nat, j: JobId, reported: JobStatus, err: Option<ErrorText>, u: UserId)
    requires reported in {JIRA_CREATING, COMPLETED, FAILED} && h !in s.handlers && u in Holders(s.rows, j)
    ensures var e, w := Callback(h, j, reported, err, Some(u), LoadedFrom(s.rows[u])),
                        StatusWrite(j, u, reported, err, LoadedFrom(s.rows[u]));
            && Enabled(s, e) && Enabled(Next(s, e), CallbackWrite(h))
            && Next(Next(s, e), CallbackWrite(h)).rows == StatusFlushed(s.rows, w, s.now)
  {
    var e := Callback(h, j, reported, err, Some(u), LoadedFrom(s.rows[u]));
    CallbackFinds(s, e);
    CallbackWrites(Next(s, e), h, LookupOf(s, e).value);
  }

  lemma CallbackFinds(s: State, e: Step)
    requires Enabled(s, e) && e.Callback? && e.found.Some?
    ensures var s1 := Next(s, e);
            s1.rows == s.rows && s1.now == s.now && PendingOf(s1, OfHandler(e.handler)) == LookupOf(s, e)
  {
  }

  lemma CallbackWrites(s: State, h: nat, p: Pending)
    requires PendingOf(s, OfHandler(h)) == Some(p) && CanFlush(s.rows, p.write)
    ensures Enabled(s, CallbackWrite(h))
    ensures Next(s, CallbackWrite(h)).rows == StatusFlushed(s.rows, p.write, s.now)
  {
  }

  lemma CallbackInSteps(s: State, h: nat, j: JobId, reported: JobStatus, err: Option<ErrorText>)
    requires reported in {JIRA_CREATING, COMPLETED, FAILED} && h !in s.handlers && |Holders(s.rows, j)| <= 1
    ensures ReportedBySteps(s, h, j, reported, err, JobStatusSet(s.rows, j, reported, err, s.now))
  {
    if Holders(s.rows, j) == {} {
      JobWriteIsFenced(s.rows, j, reported, err, s.now);
      var e := Callback(h, j, reported, err, None, Loaded(PENDING, None));
      assert Enabled(s, e) && RowsAfter(s, e) == s.rows;
    } else {
      var u :| u in Holders(s.rows, j);
      assert Holders(s.rows, j) == {u} by {
        assert |Holders(s.rows, j) - {u}| == 0;
      }
      CallbackSteps(s, h, j, reported, err, u);
      UndisturbedWrite(s.rows, StatusWrite(j, u, reported, err, LoadedFrom(s.rows[u])), s.now);
    }
  }

  /**
   n8n's `error` becomes the row's message; a missing or empty one leaves both row and job data as they were. The
   job store is told before the row is written, whatever becomes of that.
   */
  method ReportJobStatus(db: Session, jobs: JobStore.JobStore, secretMatches: bool, j: JobId, reported: JobStatus,
                         error: string, stored: bool, ghost s: State, ghost h: nat, now: nat)
    returns (r: Result<(), HttpError>)
    requires Sees(s, db) && s.now == now && |Holders(s.rows, j)| <= 1 && h !in s.handlers
    requires reported in {JIRA_CREATING, COMPLETED, FAILED}
    modifies db, jobs
    ensures r == if !secretMatches then Err(Unauthorized)
                 else if j !in old(jobs.jobs) && Holders(s.rows, j) == {} then Err(NotFoundError)
                 else if stored then Ok(()) else Err(ServerError)
    ensures r.Ok? ==> ReportedBySteps(s, h, j, reported, Some(Text(error)), db.committed)
    ensures r.Ok? ==> db.committed == JobStatusSet(s.rows, j, reported, Some(Text(error)), now)
    ensures r.Err? ==> db.committed == s.rows
    ensures jobs.jobs == if (r.Ok? || r.error == ServerError) && j in old(jobs.jobs)
                         then old(jobs.jobs)[j := JobStore.Updated(old(jobs.jobs)[j], reported, ErrorData(error), now)]
                         else old(jobs.jobs)
    ensures r.Ok? || r.error == ServerError ==>
              JobStore.Told(old(jobs.jobs), jobs.jobs, j, [reported],
                            if error != "" then map["error" := error] else map[], now)
  {
    if !secretMatches {
      return Err(Unauthorized);
    }
    if jobs.GetJob(j).None? {
      var found := Holders(db.working, j);
      if found == {} {
        return Err(NotFoundError);
      }
    }
    jobs.UpdateJobStatus(j, reported, ErrorData(error), now);
    if !stored {
      return Err(ServerError);
    }
    var _ := db.UpdateOnboardingJobStatus(j, reported, Some(Text(error)), now);
    db.Commit();
    CallbackInSteps(s, h, j, reported, Some(Text(error)));
    r := Ok(());
  }

  function ErrorData(error: string): JobStore.Data {
    if error != "" then map["error" := error] else map[]
  }

  lemma OffboardCheckStep(s: State, h: nat, u: UserId, dn: Dn, at: Stamp, answer: Answer)
    requires Enabled(s, OffboardCheck(h, u)) && dn in Matching(s.dir, u)
    requires IsOffboarded(s.dir.entries[dn]) ==> OffboardTime(s.dir.entries[dn]).Some?
    ensures var s1 := Next(s, OffboardCheck(h, u));
            && s1.rows == s.rows && s1.dir == s.dir && s1.now == s.now
            && h in s1.handlers && s1.handlers[h].user == u && s1.handlers[h].pc == OffboardChecked
            && Enabled(s1, OffboardDirectory(h, dn, at, answer))
  {
  }

  lemma OffboardDirectoryStep(s: State, h: nat, dn: Dn, at: Stamp, answer: Answer, told: Stamp, audited: bool)
    requires Enabled(s, OffboardDirectory(h, dn, at, answer))
    requires (if IsOffboarded(s.dir.entries[dn]) then OffboardTime(s.dir.entries[dn]) else Some(at)) == Some(told)
    ensures var s2 := Next(s, OffboardDirectory(h, dn, at, answer));
            && s2.rows == s.rows && s2.now == s.now && s2.dir == Offboarded(s.dir, dn, at, answer)
            && h in s2.handlers && s2.handlers[h].user == s.handlers[h].user && s2.handlers[h].pc == OffboardDone(told)
            && Enabled(s2, OffboardMark(h, audited))
  {
  }

  lemma OffboardMarkStep(s: State, h: nat, audited: bool)
    requires Enabled(s, OffboardMark(h, audited))
    ensures var s3 := Next(s, OffboardMark(h, audited));
            && s3.dir == s.dir
            && s3.rows == if audited then OffboardMarked(s.rows, s.handlers[h].user, s.handlers[h].pc.at, s.now)
                 else s.rows
  {
  }

  /** The directory as the offboarding steps leave it, for a handler that gets as far as its directory call. */
  ghost predicate OffboardedBySteps(s: State, h: nat, u: UserId, dn: Dn, at: Stamp, answer: Answer, dir: Contents) {
    && Enabled(s, OffboardCheck(h, u))
    && var s1 := Next(s, OffboardCheck(h, u));
       && Enabled(s1, OffboardDirectory(h, dn, at, answer))
       && Next(s1, OffboardDirectory(h, dn, at, answer)).dir == dir
  }

  lemma OffboardingInSteps(s: State, h: nat, u: UserId, dn: Dn, at: Stamp, answer: Answer, told: Stamp)
    requires Enabled(s, OffboardCheck(h, u)) && dn in Matching(s.dir, u)
    requires (if IsOffboarded(s.dir.entries[dn]) then OffboardTime(s.dir.entries[dn]) else Some(at)) == Some(told)
    ensures OffboardedBySteps(s, h, u, dn, at, answer, Offboarded(s.dir, dn, at, answer))
  {
    OffboardCheckStep(s, h, u, dn, at, answer);
    OffboardDirectoryStep(Next(s, OffboardCheck(h, u)), h, dn, at, answer, told, true);
  }

  lemma MarkedBySteps(s: State, h: nat, u: UserId, dn: Dn, at: Stamp, answer: Answer, told: Stamp, audited: bool)
    requires dn in Matching(s.dir, u) && OffboardedBySteps(s, h, u, dn, at, answer, Offboarded(s.dir, dn, at, answer))
    requires (if IsOffboarded(s.dir.entries[dn]) then OffboardTime(s.dir.entries[dn]) else Some(at)) == Some(told)
    ensures var s2 := Next(Next(s, OffboardCheck(h, u)), OffboardDirectory(h, dn, at, answer));
            && Enabled(s2, OffboardMark(h, audited))
            && Next(s2, OffboardMark(h, audited)).rows == if audited then OffboardMarked(s.rows, u, told, s.now)
                 else s.rows
  {
    OffboardCheckStep(s, h, u, dn, at, answer);
    var s1 := Next(s, OffboardCheck(h, u));
    OffboardDirectoryStep(s1, h, dn, at, answer, told, audited);
    OffboardMarkStep(Next(s1, OffboardDirectory(h, dn, at, answer)), h, audited);
  }

  /** The row's mark and the audit entry, in one transaction. */
  method MarkRecord(db: Session, u: UserId, at: Stamp, audited: bool, actor: string, now: nat)
    requires db.committed == db.working
    modifies db
    ensures db.committed == db.working == if audited then OffboardMarked(old(db.committed), u, at, now)
            else old(db.committed)
    ensures db.audit == old(db.audit) + if audited then [AuditEntry(actor, "user.offboard", u)] else []
    ensures audited && u in old(db.committed) ==>
              && u in db.committed && db.committed[u].status == OFFBOARDED
              && db.committed[u].offboardedAt == Some(at)
  {
    db.MarkOffboarded(u, at, now);
    db.WriteAuditLog(AuditEntry(actor, "user.offboard", u), audited);
    db.Commit();
  }

  /** The provider's deactivation of a user whose row is COMPLETED. */
  method DeactivateAccount(server: DirectoryServer, u: UserId, at: Stamp, answer: Answer, ending: Ending,
                           ghost s: State, ghost h: nat)
    returns (r: Result<Deactivated, HttpError>)
    requires s.dir == server.Model() && Enabled(s, OffboardCheck(h, u))
    modifies server
    ensures r == Err(NotFoundError) <==> !ending.FailsFirst? && Matching(s.dir, u) == {}
    ensures r.Err? ==> r.error in {NotFoundError, ServerError}
    ensures r.Err? && server.Model() != s.dir ==>
              && r.error == ServerError && ending.FailsLater?
              && exists dn :: OffboardedBySteps(s, h, u, dn, at, answer, server.Model())
    ensures r.Ok? ==>
              var dn := r.value.externalId;
              && ending.Completes? && r.value.userId == u && dn in Matching(s.dir, u)
              && (if IsOffboarded(s.dir.entries[dn]) then OffboardTime(s.dir.entries[dn]) else Some(at))
                 == Some(r.value.offboardedAt)
              && server.Model() == Offboarded(s.dir, dn, at, answer)
              && OffboardedBySteps(s, h, u, dn, at, answer, server.Model())
  {
    var deactivated := server.DeactivateUser(u, at, answer, ending);
    if deactivated.Err? {
      if server.Model() != s.dir {
        ghost var dn :| dn in Matching(s.dir, u) && server.Model() == Offboarded(s.dir, dn, at, answer);
        OffboardingInSteps(s, h, u, dn, at, answer, at);
      }
      return Err(if deactivated.error == NotFound then NotFoundError else ServerError);
    }
    var d := deactivated.value;
    OffboardingInSteps(s, h, u, d.externalId, at, answer, d.offboardedAt);
    r := Ok(d);
  }

  /**
   An LDAP exception ends the request, before the directory is touched or with some of the edits made; the row is
   then as it was. The protocol has the latter as the directory step, with the groups not reached among the
   refusing ones, and the handler gone.
   */
  method OffboardUser(db: Session, server: DirectoryServer, u: UserId, at: Stamp, answer: Answer, ending: Ending,
                      stored: bool, audited: bool, actor: string, ghost s: State, ghost h: nat, now: nat)
    returns (r: Result<Deactivated, HttpError>)
    requires Sees(s, db) && s.now == now && s.dir == server.Model() && h !in s.handlers
    modifies db, server
    ensures r == Err(NotFoundError) <==>
              u !in s.rows || (s.rows[u].jobStatus == COMPLETED && !ending.FailsFirst? && Matching(s.dir, u) == {})
    ensures r == Err(ConflictError) <==> u in s.rows && s.rows[u].jobStatus != COMPLETED
    ensures r.Ok? ==> ending.Completes? && stored
    ensures r.Err? ==> db.committed == s.rows
    ensures db.audit == old(db.audit) + if r.Ok? && audited then [AuditEntry(actor, "user.offboard", u)] else []
    ensures r.Ok? && audited ==>
              && u in db.committed && db.committed[u].status == OFFBOARDED
              && db.committed[u].offboardedAt == Some(r.value.offboardedAt)
    ensures r.Err? && server.Model() != s.dir ==>
              && r.error == ServerError && (ending.FailsLater? || !stored)
              && exists dn :: OffboardedBySteps(s, h, u, dn, at, answer, server.Model())
    ensures r.Ok? ==>
              var dn := r.value.externalId;
              && r.value.userId == u && OffboardedBySteps(s, h, u, dn, at, answer, server.Model())
              && var s2 := Next(Next(s, OffboardCheck(h, u)), OffboardDirectory(h, dn, at, answer));
                 && Enabled(s2, OffboardMark(h, audited))
                 && db.committed == Next(s2, OffboardMark(h, audited)).rows
  {
    if u !in db.working {
      return Err(NotFoundError);
    }
    if db.working[u].jobStatus != COMPLETED {
      return Err(ConflictError);
    }
    var deactivated := DeactivateAccount(server, u, at, answer, ending, s, h);
    if deactivated.Err? {
      return Err(deactivated.error);
    }
    var d := deactivated.value;
    if !stored {
      return Err(ServerError);
    }
    MarkRecord(db, u, d.offboardedAt, audited, actor, now);
    MarkedBySteps(s, h, u, d.externalId, at, answer, d.offboardedAt, audited);
    r := Ok(d);
  }

  lemma RollbackCheckStep(s: State, h: nat, u: UserId, dn: Dn)
    requires Enabled(s, RollbackCheck(h, u)) && (s.rows[u].externalId.Some? ==> Picks(s.dir, u, dn))
    ensures var s1 := Next(s, RollbackCheck(h, u));
            && s1.rows == s.rows && s1.dir == s.dir && h in s1.handlers && s1.handlers[h].user == u
            && s1.handlers[h].pc == RollbackChecked(s.rows[u].externalId.Some?)
  {
  }

  /** The directory as rollback's delete leaves it. */
  function DeletedFrom(dir: Contents, u: UserId, dn: Dn, answer: Answer): Contents {
    if dn in Matching(dir, u) then Removed(dir, dn, answer) else dir
  }

  /** Rows and directory as a rollback that gets through leaves them. */
  ghost predicate RolledBackBySteps(s: State, h: nat, u: UserId, dn: Dn, answer: Answer, audited: bool, rows: Table,
                                    dir: Contents) {
    && Enabled(s, RollbackCheck(h, u))
    && var s1 := Next(s, RollbackCheck(h, u));
       && Enabled(s1, RollbackCommit(h, dn, answer, audited))
       && Next(s1, RollbackCommit(h, dn, answer, audited)).rows == rows
       && Next(s1, RollbackCommit(h, dn, answer, audited)).dir == dir
  }

  lemma RollbackInSteps(s: State, h: nat, u: UserId, dn: Dn, answer: Answer, audited: bool)
    requires Enabled(s, RollbackCheck(h, u)) && (s.rows[u].externalId.Some? ==> Picks(s.dir, u, dn))
    ensures RolledBackBySteps(s, h, u, dn, answer, audited, if audited then s.rows - {u} else s.rows,
                              if s.rows[u].externalId.Some? then DeletedFrom(s.dir, u, dn, answer) else s.dir)
  {
    RollbackCheckStep(s, h, u, dn);
    RollbackCommitStep(Next(s, RollbackCheck(h, u)), h, dn, answer, audited);
  }

  lemma RollbackCommitStep(s: State, h: nat, dn: Dn, answer: Answer, audited: bool)
    requires h in s.handlers && s.handlers[h].pc.RollbackChecked?
    requires s.handlers[h].pc.purge ==> Picks(s.dir, s.handlers[h].user, dn)
    ensures Enabled(s, RollbackCommit(h, dn, answer, audited))
    ensures var s2 := Next(s, RollbackCommit(h, dn, answer, audited));
            && s2.rows == (if audited then s.rows - {s.handlers[h].user} else s.rows)
            && s2.dir == if s.handlers[h].pc.purge then DeletedFrom(s.dir, s.handlers[h].user, dn, answer) else s.dir
  {
  }

  /** A handler that ends behind its directory call. */
  ghost predicate DeletedBySteps(s: State, h: nat, u: UserId, dn: Dn, answer: Answer, dir: Contents) {
    && Enabled(s, RollbackCheck(h, u))
    && var s1 := Next(s, RollbackCheck(h, u));
       Enabled(s1, RollbackDirectory(h, dn, answer)) && Next(s1, RollbackDirectory(h, dn, answer)).dir == dir
  }

  lemma DeletingInSteps(s: State, h: nat, u: UserId, dn: Dn, answer: Answer)
    requires Enabled(s, RollbackCheck(h, u)) && s.rows[u].externalId.Some? && Picks(s.dir, u, dn)
    ensures DeletedBySteps(s, h, u, dn, answer, DeletedFrom(s.dir, u, dn, answer))
  {
    RollbackCheckStep(s, h, u, dn);
  }

  /** The delete raised, or the row's delete was refused behind it. */
  predicate RollbackRaises(rows: Table, dir: Contents, u: UserId, ending: Ending, stored: bool)
    requires u in rows
  {
    || !stored
    || (rows[u].externalId.Some? && (ending.FailsFirst? || (ending.FailsLater? && Matching(dir, u) != {})))
  }

  /** The provider's delete, and which of the entries found it was about. */
  method DeleteAccount(server: DirectoryServer, u: UserId, answer: Answer, ending: Ending)
    returns (r: Result<(), DirError>, ghost dn: Dn)
    modifies server
    ensures r.Err? <==> ending.FailsFirst? || (ending.FailsLater? && Matching(old(server.Model()), u) != {})
    ensures Picks(old(server.Model()), u, dn)
    ensures server.Model() == if ending.FailsFirst? then old(server.Model())
                              else DeletedFrom(old(server.Model()), u, dn, answer)
  {
    ghost var dir := server.Model();
    dn := UserDn("");
    if Matching(dir, u) != {} {
      dn :| dn in Matching(dir, u);
    }
    r := server.DeleteUser(u, answer, ending);
    if !ending.FailsFirst? && Matching(dir, u) != {} {
      dn :| dn in Matching(dir, u) && server.Model() == Removed(dir, dn, answer);
    }
  }

  /** The row's delete and the audit entry, in one transaction. */
  method DeleteRecord(db: Session, u: UserId, audited: bool, actor: string)
    requires db.committed == db.working
    modifies db
    ensures db.committed == db.working == if audited then old(db.committed) - {u} else old(db.committed)
    ensures db.audit == old(db.audit) + if audited then [AuditEntry(actor, "user.onboarding_rollback", u)] else []
  {
    var _ := db.HardDeleteOnboardingRecord(u);
    db.WriteAuditLog(AuditEntry(actor, "user.onboarding_rollback", u), audited);
    db.Commit();
  }

  /** The handler behind its check, with the entry its delete was about. */
  method RollBack(db: Session, server: DirectoryServer, u: UserId, answer: Answer, ending: Ending, stored: bool,
                  audited: bool, actor: string)
    returns (r: Result<(), HttpError>, ghost dn: Dn)
    requires db.committed == db.working && u in db.committed
    modifies db, server
    ensures r == if RollbackRaises(old(db.committed), old(server.Model()), u, ending, stored) then Err(ServerError)
                 else Ok(())
    ensures Picks(old(server.Model()), u, dn)
    ensures server.Model() == if old(db.committed)[u].externalId.Some? && !ending.FailsFirst?
                              then DeletedFrom(old(server.Model()), u, dn, answer) else old(server.Model())
    ensures db.committed == if r.Ok? && audited then old(db.committed) - {u} else old(db.committed)
    ensures db.audit
            == old(db.audit) + if r.Ok? && audited then [AuditEntry(actor, "user.onboarding_rollback", u)] else []
  {
    dn := UserDn("");
    if db.working[u].externalId.Some? {
      var deleted;
      deleted, dn := DeleteAccount(server, u, answer, ending);
      if deleted.Err? {
        return Err(ServerError), dn;
      }
    } else if Matching(server.Model(), u) != {} {
      dn :| dn in Matching(server.Model(), u);
    }
    if !stored {
      return Err(ServerError), dn;
    }
    DeleteRecord(db, u, audited, actor);
    r := Ok(());
  }

  method RollbackOnboarding(db: Session, server: DirectoryServer, u: UserId, answer: Answer, ending: Ending,
                            stored: bool, audited: bool, actor: string, ghost s: State, ghost h: nat)
    returns (r: Result<(), HttpError>)
    requires Sees(s, db) && s.dir == server.Model() && h !in s.handlers
    modifies db, server
    ensures r == if u !in s.rows then Err(NotFoundError)
                 else if !Retryable(s.rows[u].jobStatus) then Err(ConflictError)
                 else if RollbackRaises(s.rows, s.dir, u, ending, stored) then Err(ServerError) else Ok(())
    ensures r.Err? ==> db.committed == s.rows
    ensures r.Ok? ==> db.committed == if audited then s.rows - {u} else s.rows
    ensures db.audit
            == old(db.audit) + if r.Ok? && audited then [AuditEntry(actor, "user.onboarding_rollback", u)] else []
    ensures r.Err? && server.Model() != s.dir ==>
              r.error == ServerError && exists dn :: DeletedBySteps(s, h, u, dn, answer, server.Model())
    ensures r.Ok? ==> exists dn :: RolledBackBySteps(s, h, u, dn, answer, audited, db.committed, server.Model())
  {
    if u !in db.working {
      return Err(NotFoundError);
    }
    if !Retryable(db.working[u].jobStatus) {
      return Err(ConflictError);
    }
    assert Enabled(s, RollbackCheck(h, u));
    ghost var dn;
    r, dn := RollBack(db, server, u, answer, ending, stored, audited, actor);
    if s.rows[u].externalId.Some? {
      DeletingInSteps(s, h, u, dn, answer);
    }
    RollbackInSteps(s, h, u, dn, answer, audited);
    assert r.Ok? ==> RolledBackBySteps(s, h, u, dn, answer, audited, db.committed, server.Model());
  }

  /** Which of the two pipelines to schedule, and for whom. */
  datatype Scheduled = Scheduled(user: UserId, kind: Kind)

  /** Fresh job id, PENDING and no message, committed. */
  method SwapJob(db: Session, u: UserId, newJob: JobId, now: nat)
    requires db.committed == db.working && u in db.working
    modifies db
    ensures db.committed == db.working == old(db.committed)[u := RetryRow(old(db.committed)[u], newJob, now)]
  {
    var record := db.working[u];
    var after := record.(jobId := Some(newJob), jobStatus := PENDING, errorMessage := None);
    db.working := db.working[u := Touched(record, after, now)];
    db.Commit();
  }

  lemma RetryStep(s: State, u: UserId, j: JobId, newJob: JobId, rotate: bool, actor: string)
    requires u in Holders(s.rows, j) && Retryable(s.rows[u].jobStatus) && newJob !in s.past.owner
    ensures var step := Retry(u, j, newJob, rotate, actor);
            && Enabled(s, step) && Next(s, step).rows == s.rows[u := RetryRow(s.rows[u], newJob, s.now)]
            && Next(s, step).tasks[newJob]
               == Task(u, if s.rows[u].externalId.None? then Full else Resumed(rotate), s.rows[u].profile, actor, Start)
  {
  }

  method RetryOnboarding(db: Session, jobs: JobStore.JobStore, j: JobId, newJob: JobId, rotate: bool, actor: string,
                         stored: bool, ghost s: State, now: nat)
    returns (r: Result<Scheduled, HttpError>)
    requires Sees(s, db) && s.now == now && |Holders(s.rows, j)| <= 1 && newJob !in s.past.owner
    modifies db, jobs
    ensures r == Err(NotFoundError) <==> Holders(s.rows, j) == {}
    ensures r == Err(ConflictError) <==> exists u :: u in Holders(s.rows, j) && !Retryable(s.rows[u].jobStatus)
    ensures r.Err? ==> r.error in {NotFoundError, ConflictError, ServerError} && db.committed == s.rows
    ensures r == Err(ServerError) ==> !stored
    ensures jobs.jobs == if r.Ok? || r.error == ServerError
                         then old(jobs.jobs)[newJob := JobStore.NewJob(PENDING, now)] else old(jobs.jobs)
    ensures r.Ok? ==>
              var step := Retry(r.value.user, j, newJob, rotate, actor);
              && Enabled(s, step) && db.committed == Next(s, step).rows && stored
              && r.value.kind == (if s.rows[r.value.user].externalId.None? then Full else Resumed(rotate))
              && Next(s, step).tasks[newJob]
                 == Task(r.value.user, r.value.kind, s.rows[r.value.user].profile, actor, Start)
  {
    var found := Holders(db.working, j);
    if found == {} {
      return Err(NotFoundError);
    }
    var u :| u in found;
    assert found == {u} by {
      assert |found - {u}| == 0;
    }
    var record := db.working[u];
    if !Retryable(record.jobStatus) {
      return Err(ConflictError);
    }
    jobs.CreateJob(newJob, PENDING, now);
    if !stored {
      return Err(ServerError);
    }
    SwapJob(db, u, newJob, now);
    RetryStep(s, u, j, newJob, rotate, actor);
    r := Ok(Scheduled(u, if record.externalId.None? then Full else Resumed(rotate)));
  }
}
