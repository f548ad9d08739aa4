/**
 The operational record kept in Postgres: what each function of
 onboarding_record_service.py, the sweeper and write_audit_log do to the table,
 first as functions on the table, then as methods of the session they run in.
 */
module OnboardingRecords {
  import opened Common
  import opened IsoTime
  import opened OnboardingModel

  // ---------------------------------------------------------------- functions on the table

  /** `updated_at` moves only when the ORM emits an UPDATE, that is when some column changed. */
  function Touched(before: Row, after: Row, now: nat): Row {
    if after == before then before else after.(updatedAt := now)
  }

  predicate EmailTaken(t: Table, email: string) {
    exists u :: u in t && t[u].profile.email == email
  }

  /** None when the unique email constraint refuses the insert. */
  function Upserted(t: Table, p: Provisioned, job: JobId, actor: string, st: JobStatus, now: nat): Option<Table> {
    if p.userId in t then
      var r := t[p.userId];
      Some(t[p.userId :=
          Touched(r, r.(externalId := p.externalId, jobId := Some(job), jobStatus := st, requestedBy := actor), now)])
    else if EmailTaken(t, p.profile.email) then None
    else Some(t[p.userId := Row(p.profile, ACTIVE, p.externalId, Some(job), st, actor, None, None, now)])
  }

  function PendingInserted(t: Table, u: UserId, job: JobId, actor: string, profile: Profile, now: nat): Option<Table> {
    if u in t || EmailTaken(t, profile.email) then None
    else Some(t[u := Row(profile, ACTIVE, None, Some(job), PENDING, actor, None, None, now)])
  }

  /** Python's truth value of `error_message`. */
  predicate Truthy(err: Option<ErrorText>) {
    err.Some? && err.value != Text("")
  }

  function WithJobStatus(r: Row, st: JobStatus, err: Option<ErrorText>, now: nat): Row {
    Touched(r, r.(jobStatus := st, errorMessage := if Truthy(err) then err else r.errorMessage), now)
  }

  /** The users whose row currently carries `job`. */
  function Holders(t: Table, job: JobId): set<UserId> {
    set u | u in t && t[u].jobId == Some(job)
  }

  function JobStatusSet(t: Table, job: JobId, st: JobStatus, err: Option<ErrorText>, now: nat): Table {
    map u | u in t :: if t[u].jobId == Some(job) then WithJobStatus(t[u], st, err, now) else t[u]
  }

  function OffboardMarked(t: Table, u: UserId, at: Stamp, now: nat): Table {
    if u in t then t[u := Touched(t[u], t[u].(status := OFFBOARDED, offboardedAt := Some(at)), now)] else t
  }

  /** The retry handler's own write: a fresh job id, PENDING, no error. */
  function RetryRow(r: Row, job: JobId, now: nat): Row {
    Touched(r, r.(jobId := Some(job), jobStatus := PENDING, errorMessage := None), now)
  }

  predicate Stale(r: Row, cutoff: int) {
    InProgress(r.jobStatus) && r.updatedAt < cutoff
  }

  function SweptRow(r: Row, now: nat): Row {
    Touched(r,
            if r.externalId.Some?
            then r.(jobStatus := PARTIALLY_COMPLETE, errorMessage := Some(NoConfirmation(STALE_MINUTES)))
            else r.(jobStatus := FAILED, errorMessage := Some(NoProgress(STALE_MINUTES))),
            now)
  }

  /** One sweeper tick; rows another transaction has locked are skipped. */
  function Swept(t: Table, cutoff: int, locked: set<UserId>, now: nat): Table {
    map u | u in t :: if Stale(t[u], cutoff) && u !in locked then SweptRow(t[u], now) else t[u]
  }

  // ---------------------------------------------------------------- a task's own write

  /** Of the columns a task's write assigns, those its UPDATE carries because another value is loaded. */
  datatype Columns = Columns(jobId: bool, status: bool)

  /** A task's write to an existing row, with the columns it carries; `after` is the row if it carries them all. */
  function Carried(r: Row, after: Row, columns: Columns, now: nat): Row {
    var written := after.(jobId := if columns.jobId then after.jobId else r.jobId,
                          jobStatus := if columns.status then after.jobStatus else r.jobStatus);
    if written == r && columns == Columns(false, false) then r else written.(updatedAt := now)
  }

  /** The upsert with the columns its UPDATE carries; an INSERT carries all. */
  function UpsertedWith(t: Table, p: Provisioned, job: JobId, actor: string, st: JobStatus, columns: Columns, now: nat)
    : Option<Table>
  {
    if p.userId in t then
      var r := t[p.userId];
      Some(t[p.userId :=
          Carried(r, r.(externalId := p.externalId, jobId := Some(job), jobStatus := st, requestedBy := actor), columns,
                  now)])
    else Upserted(t, p, job, actor, st, now)
  }

  /** The columns of an upsert whose SELECT and UPDATE nobody comes between. */
  function UpsertColumns(t: Table, u: UserId, job: JobId, st: JobStatus): Columns {
    if u in t then Columns(t[u].jobId != Some(job), t[u].jobStatus != st) else Columns(true, true)
  }

  lemma UndisturbedUpsert(t: Table, p: Provisioned, job: JobId, actor: string, st: JobStatus, now: nat)
    ensures UpsertedWith(t, p, job, actor, st, UpsertColumns(t, p.userId, job, st), now)
            == Upserted(t, p, job, actor, st, now)
  {
  }

  // ---------------------------------------------------------------- a status write in its two halves

  /** What the session has loaded of a row; the ORM leaves a column out of the UPDATE if its new value is loaded. */
  datatype Loaded = Loaded(status: JobStatus, message: Option<ErrorText>)

  function LoadedFrom(r: Row): Loaded {
    Loaded(r.jobStatus, r.errorMessage)
  }

  /** A status write between its awaits: the SELECT found the user's row by job id, the UPDATE will go by user id. */
  datatype StatusWrite = StatusWrite(job: JobId, user: UserId, to: JobStatus, err: Option<ErrorText>, loaded: Loaded)

  predicate SetsStatus(w: StatusWrite) {
    w.to != w.loaded.status
  }

  predicate SetsMessage(w: StatusWrite) {
    Truthy(w.err) && w.err != w.loaded.message
  }

  /** Whether there is an UPDATE at all. */
  predicate Dirty(w: StatusWrite) {
    SetsStatus(w) || SetsMessage(w)
  }

  function Flushed(r: Row, w: StatusWrite, now: nat): Row {
    if !Dirty(w) then r
    else r.(jobStatus := if SetsStatus(w) then w.to else r.jobStatus,
            errorMessage := if SetsMessage(w) then w.err else r.errorMessage,
            updatedAt := now)
  }

  function StatusFlushed(t: Table, w: StatusWrite, now: nat): Table {
    if w.user in t then t[w.user := Flushed(t[w.user], w, now)] else t
  }

  /** An UPDATE that matches no row raises. */
  predicate CanFlush(t: Table, w: StatusWrite) {
    w.user in t || !Dirty(w)
  }

  /** What a plain SELECT by job id can find. */
  predicate Finds(t: Table, job: JobId, found: Option<UserId>) {
    match found
    case Some(u) => u in Holders(t, job)
    case None => Holders(t, job) == {}
  }

  // ---------------------------------------------------------------- what a sweep means

  lemma SweepResolves(t: Table, cutoff: int, locked: set<UserId>, now: nat)
    ensures var s := Swept(t, cutoff, locked, now);
            && s.Keys == t.Keys
            && (forall u | u in t && u !in locked && t[u].updatedAt < cutoff
                           && t[u].jobStatus in {PENDING, AD_CREATING, EMAIL_SENDING, JIRA_CREATING} ::
                  && Retryable(s[u].jobStatus)
                  && (s[u].jobStatus == PARTIALLY_COMPLETE <==> t[u].externalId.Some?)
                  && s[u].externalId == t[u].externalId && s[u].jobId == t[u].jobId
                  && s[u].profile == t[u].profile && s[u].updatedAt == now)
            && (forall u | u in t && (u in locked || !InProgress(t[u].jobStatus) || cutoff <= t[u].updatedAt) ::
                 s[u] == t[u])
            && Swept(s, cutoff, locked, now) == s
            && (forall u | u in s && InProgress(s[u].jobStatus) && u !in locked :: cutoff <= s[u].updatedAt)
  {
    var s := Swept(t, cutoff, locked, now);
    assert forall u | u in s :: Stale(s[u], cutoff) ==> u in locked;
    assert Swept(s, cutoff, locked, now) == s;
  }

  // ---------------------------------------------------------------- what a status write means

  /**
   A status write nobody comes between touches at most the holders of its job, and of them only status, message and
   time.
   */
  lemma JobWriteIsFenced(t: Table, job: JobId, st: JobStatus, err: Option<ErrorText>, now: nat)
    ensures var s := JobStatusSet(t, job, st, err, now);
            && s.Keys == t.Keys
            && (forall u | u in t && u !in Holders(t, job) :: s[u] == t[u])
            && (forall u | u in Holders(t, job) ::
                  && s[u].jobStatus == st
                  && s[u] == t[u].(jobStatus := st, errorMessage := s[u].errorMessage, updatedAt := s[u].updatedAt)
                  && s[u].errorMessage == (if Truthy(err) then err else t[u].errorMessage)
                  && s[u].updatedAt in {t[u].updatedAt, now})
            && (Holders(t, job) == {} ==> s == t)
  {
    var s := JobStatusSet(t, job, st, err, now);
    if Holders(t, job) == {} {
      forall u | u in t ensures s[u] == t[u] {
        assert u !in Holders(t, job);
      }
    }
  }

  /** If nobody came between its halves, a status write is what its SELECT promises: the write by job id. */
  lemma UndisturbedWrite(t: Table, w: StatusWrite, now: nat)
    requires Holders(t, w.job) == {w.user} && w.loaded == LoadedFrom(t[w.user])
    ensures StatusFlushed(t, w, now) == JobStatusSet(t, w.job, w.to, w.err, now)
  {
    forall u | u in t ensures StatusFlushed(t, w, now)[u] == JobStatusSet(t, w.job, w.to, w.err, now)[u] {
      assert t[u].jobId == Some(w.job) <==> u in Holders(t, w.job);
    }
  }

  /** The row as the UPDATE finds it differs from what it writes. */
  predicate Lands(t: Table, w: StatusWrite, now: nat) {
    && w.user in t && Dirty(w)
    && (|| (SetsStatus(w) && t[w.user].jobStatus != w.to)
        || (SetsMessage(w) && t[w.user].errorMessage != w.err)
        || t[w.user].updatedAt != now)
  }

  /**
   The second half on whatever table it meets: it touches the row of the user found, whatever job id that row carries
   by then, and of it only status, message and time; and the table changes exactly if the write lands.
   */
  lemma StatusWriteGoesByUser(t: Table, w: StatusWrite, now: nat)
    ensures var s := StatusFlushed(t, w, now);
            && s.Keys == t.Keys
            && (forall u | u in t && u != w.user :: s[u] == t[u])
            && (w.user in t ==>
                  && s[w.user] == t[w.user].(jobStatus := s[w.user].jobStatus,
                                             errorMessage := s[w.user].errorMessage,
                                             updatedAt := s[w.user].updatedAt)
                  && s[w.user].jobStatus == (if SetsStatus(w) then w.to else t[w.user].jobStatus)
                  && s[w.user].errorMessage == (if SetsMessage(w) then w.err else t[w.user].errorMessage)
                  && s[w.user].updatedAt == (if Dirty(w) then now else t[w.user].updatedAt))
            && (s != t <==> Lands(t, w, now))
  {
    var s := StatusFlushed(t, w, now);
    if !Lands(t, w, now) {
      assert w.user in t ==> s[w.user] == t[w.user];
      assert s == t;
    }
  }

  // ---------------------------------------------------------------- the session

  datatype AuditEntry = AuditEntry(actor: string, action: string, target: UserId)

  datatype DbError = IntegrityError | MultipleResultsFound | StaleDataError

  /** One transaction's view: `working` holds the flushed writes, `committed` what every other session sees. */
  class Session {
    var committed: Table
    var working: Table
    var audit: seq<AuditEntry>

    constructor (table: Table)
      ensures committed == working == table && audit == []
    {
      committed, working, audit := table, table, [];
    }

    method Commit()
      modifies this
      ensures committed == working == old(working) && audit == old(audit)
    {
      committed := working;
    }

    method Rollback()
      modifies this
      ensures committed == working == old(committed) && audit == old(audit)
    {
      working := committed;
    }

    method UpsertOnboardingRecord(p: Provisioned, job: JobId, actor: string, st: JobStatus, now: nat)
      returns (r: Result<Row, DbError>)
      modifies this`working
      ensures var after := Upserted(old(working), p, job, actor, st, now);
              if after.Some? then working == after.value && r == Ok(working[p.userId])
              else working == old(working) && r == Err(IntegrityError)
      ensures r.Err? <==> p.userId !in old(working) && EmailTaken(old(working), p.profile.email)
      ensures forall u | u in old(working) && u != p.userId :: u in working && working[u] == old(working)[u]
      ensures r.Ok? ==>
                && r.value.externalId == p.externalId && r.value.jobId == Some(job) && r.value.jobStatus == st
                && r.value.requestedBy == actor
                && if p.userId in old(working) then
                     var was := old(working)[p.userId];
                     && r.value.profile == was.profile && r.value.status == was.status
                     && r.value.errorMessage == was.errorMessage && r.value.offboardedAt == was.offboardedAt
                   else
                     && r.value.profile == p.profile && r.value.status == ACTIVE
                     && r.value.errorMessage.None? && r.value.offboardedAt.None?
    {
      var record: Row;
      if p.userId !in working {
        if EmailTaken(working, p.profile.email) {
          return Err(IntegrityError);
        }
        record := Row(p.profile, ACTIVE, p.externalId, Some(job), st, actor, None, None, now);
      } else {
        record := working[p.userId];
        record := record.(externalId := p.externalId);
        record := record.(jobId := Some(job));
        record := record.(jobStatus := st);
        record := record.(requestedBy := actor);
        record := Touched(working[p.userId], record, now);
      }
      working := working[p.userId := record];
      r := Ok(record);
    }

    /** The first half of update_onboarding_job_status: the SELECT, and the assignments that wait for the flush. */
    method FindByJob(job: JobId, st: JobStatus, err: Option<ErrorText>)
      returns (r: Result<Option<StatusWrite>, DbError>)
      ensures |Holders(working, job)| > 1 ==> r == Err(MultipleResultsFound)
      ensures |Holders(working, job)| <= 1 ==>
                && r.Ok?
                && match r.value
                   case None => Holders(working, job) == {}
                   case Some(w) =>
                     Holders(working, job) == {w.user}
                         && w == StatusWrite(job, w.user, st, err, LoadedFrom(working[w.user]))
    {
      var found := Holders(working, job);
      if |found| > 1 {
        return Err(MultipleResultsFound);
      }
      if found == {} {
        return Ok(None);
      }
      var u :| u in found;
      assert found == {u} by {
        assert |found - {u}| == 0;
      }
      r := Ok(Some(StatusWrite(job, u, st, err, LoadedFrom(working[u]))));
    }

    /** The second half: the flush, on the rows as they are by then. */
    method FlushStatus(w: StatusWrite, now: nat) returns (r: Result<(), DbError>)
      modifies this`working
      ensures r == if CanFlush(old(working), w) then Ok(()) else Err(StaleDataError)
      ensures working == StatusFlushed(old(working), w, now)
    {
      r := Ok(());
      if !SetsStatus(w) && !SetsMessage(w) {
        assert w.user in working ==> working[w.user := working[w.user]] == working;
        return;
      }
      if w.user !in working {
        return Err(StaleDataError);
      }
      var record := working[w.user];
      if SetsStatus(w) {
        record := record.(jobStatus := w.to);
      }
      if SetsMessage(w) {
        record := record.(errorMessage := w.err);
      }
      working := working[w.user := record.(updatedAt := now)];
    }

    /** Both halves with nothing in between. */
    method UpdateOnboardingJobStatus(job: JobId, st: JobStatus, err: Option<ErrorText>, now: nat)
      returns (r: Result<(), DbError>)
      modifies this`working
      ensures |Holders(old(working), job)| <= 1 ==>
              r == Ok(()) && working == JobStatusSet(old(working), job, st, err, now)
      ensures |Holders(old(working), job)| > 1 ==> r == Err(MultipleResultsFound) && working == old(working)
    {
      var found := FindByJob(job, st, err);
      if found.Err? {
        return Err(found.error);
      }
      if found.value.None? {
        JobWriteIsFenced(working, job, st, err, now);
        return Ok(());
      }
      var w := found.value.value;
      assert w.user in Holders(working, job);
      UndisturbedWrite(working, w, now);
      r := FlushStatus(w, now);
    }

    method CreatePendingOnboardingRecord(u: UserId, job: JobId, actor: string, profile: Profile, now: nat)
      returns (r: Result<Row, DbError>)
      modifies this
      ensures var after := PendingInserted(old(working), u, job, actor, profile, now);
              if after.Some? then working == after.value && committed == old(committed) && r == Ok(working[u])
              else working == committed == old(committed) && r == Err(IntegrityError)
      ensures r.Err? <==> u in old(working) || EmailTaken(old(working), profile.email)
      ensures r.Ok? ==> r.value == Row(profile, ACTIVE, None, Some(job), PENDING, actor, None, None, now)
      ensures audit == old(audit)
    {
      if u in working || EmailTaken(working, profile.email) {
        Rollback();
        return Err(IntegrityError);
      }
      var record := Row(profile, ACTIVE, None, Some(job), PENDING, actor, None, None, now);
      working := working[u := record];
      r := Ok(record);
    }

    method MarkOffboarded(u: UserId, at: Stamp, now: nat)
      modifies this`working
      ensures working == OffboardMarked(old(working), u, at, now)
      ensures working.Keys == old(working).Keys
      ensures forall v | v in old(working) && v != u :: working[v] == old(working)[v]
      ensures u in old(working) ==>
                && working[u].status == OFFBOARDED && working[u].offboardedAt == Some(at)
                && working[u] == old(working)[u].(status := OFFBOARDED, offboardedAt := Some(at),
                                                  updatedAt := working[u].updatedAt)
    {
      if u in working {
        var record := working[u].(status := OFFBOARDED);
        record := record.(offboardedAt := Some(at));
        working := working[u := Touched(working[u], record, now)];
      }
    }

    method HardDeleteOnboardingRecord(u: UserId) returns (r: Option<Row>)
      modifies this`working
      ensures working == old(working) - {u}
      ensures r == if u in old(working) then Some(old(working)[u]) else None
    {
      r := None;
      if u in working {
        r := Some(working[u]);
        working := working - {u};
      }
    }

    /**
     Adds the entry and commits the shared session; when that commit fails, rolls the shared
     session back and returns normally, so the caller's flushed work is gone without an error.
     */
    method WriteAuditLog(entry: AuditEntry, commitSucceeds: bool)
      modifies this
      ensures commitSucceeds ==> committed == working == old(working) && audit == old(audit) + [entry]
      ensures !commitSucceeds ==> committed == working == old(committed) && audit == old(audit)
    {
      if commitSucceeds {
        audit := audit + [entry];
        Commit();
      } else {
        Rollback();
      }
    }

    /**
     One tick: SELECT ... FOR UPDATE SKIP LOCKED, then resolve the rows one by one, then commit.
     `notified` lists what was pushed to live stream listeners.
     */
    method SweepStaleOnboardingJobs(locked: set<UserId>, cutoff: int, now: nat)
      returns (notified: seq<(JobId, JobStatus)>)
      requires working == committed
      modifies this
      ensures committed == working == Swept(old(working), cutoff, locked, now) && audit == old(audit)
      ensures forall u | u in old(working) && Stale(old(working)[u], cutoff) && u !in locked
              && old(working)[u].jobId.Some? ::
                (old(working)[u].jobId.value, committed[u].jobStatus) in notified
      ensures forall n | n in notified :: exists u ::
              u in old(working) && u !in locked && Stale(old(working)[u], cutoff)
              && old(working)[u].jobId == Some(n.0) && committed[u].jobStatus == n.1
    {
      notified := [];
      var before := working;
      var staleRows := set u | u in before && Stale(before[u], cutoff) && u !in locked;
      var todo := staleRows;
      while todo != {}
        invariant todo <= staleRows
        invariant working.Keys == before.Keys && committed == before && audit == old(audit)
        invariant forall u | u in before ::
                  working[u] == if u in staleRows - todo then SweptRow(before[u], now) else before[u]
        invariant forall u | u in staleRows - todo && before[u].jobId.Some? ::
                    (before[u].jobId.value, SweptRow(before[u], now).jobStatus) in notified
        invariant forall n | n in notified :: exists u :: u in staleRows - todo && before[u].jobId == Some(n.0)
                                                          && SweptRow(before[u], now).jobStatus == n.1
        decreases todo
      {
        var u :| u in todo;
        var record := ResolveRow(working[u], now);
        working := working[u := record];
        if record.jobId.Some? {
          notified := notified + [(record.jobId.value, record.jobStatus)];
        }
        todo := todo - {u};
      }
      assert working == Swept(before, cutoff, locked, now);
      Commit();
    }
  }

  method ResolveRow(row: Row, now: nat) returns (record: Row)
    ensures record == SweptRow(row, now)
  {
    record := row;
    if record.externalId.Some? {
      record := record.(jobStatus := PARTIALLY_COMPLETE, errorMessage := Some(NoConfirmation(STALE_MINUTES)));
    } else {
      record := record.(jobStatus := FAILED, errorMessage := Some(NoProgress(STALE_MINUTES)));
    }
    record := Touched(row, record, now);
  }

  /**
   The commit every caller issues after write_audit_log keeps the caller's flushed work exactly
   when the audit commit succeeded or there was no flushed work to lose.
   */
  method AuditThenCommit(db: Session, entry: AuditEntry, commitSucceeds: bool)
    modifies db
    ensures db.committed == old(db.working) <==> commitSucceeds || old(db.working == db.committed)
    ensures db.committed == old(db.working) || db.committed == old(db.committed)
  {
    db.WriteAuditLog(entry, commitSucceeds);
    db.Commit();
  }
}
