/**
 The onboarding operation as a transition system. A state holds the committed rows,
 the directory, the live pipeline tasks with their program counters, the request handlers
 that are between two of their awaits, and the clock. A step is what one participant does to
 rows or directory in one piece: one directory call, or the writes one commit makes visible. A
 status write by job id is two steps, its SELECT and its UPDATE, and whatever happens between
 the SELECT and the UPDATE of a task's own write shows in the columns that write carries. Steps
 of all participants interleave freely, and every task and handler may vanish at any point.

 Program counters of a task (backend/services/onboarding_pipeline.py):

   Start --Create--> Added --JoinGroup--> Created --Record--> Recorded        (full run)
   Start --Claim---------------------------------------------> Recorded      (resumed run)
   Recorded --SetPassword--> PasswordSet --Announce--> Announced --Post--> Posted
   Posted --Accepted--> gone;   Posted --Refused--> Noting --Noted--> gone
   any of these --Raise--> Failing --MarkFailed--> Marking --Marked--> gone
 */
module OnboardingProtocol {
  import opened Common
  import opened IsoTime
  import opened OnboardingModel
  import opened OnboardingRecords
  import opened Directory

  datatype Kind = Full | Resumed(rotate: bool)

  /** A status write that found its row at step `foundAt` and has still to write it. */
  datatype Pending = Pending(write: StatusWrite, foundAt: nat)

  datatype Pc =
    | Start
    | Added
    | Created
    | Recorded
    | PasswordSet
    | Announced
    | Posted
    | Noting(noting: Pending)
    | Failing
    | Marking(marking: Pending)

  datatype Task = Task(user: UserId, kind: Kind, profile: Profile, actor: string, pc: Pc)

  /** Up to here a task still writes the row by user id, whatever job id the row carries. */
  predicate PreDispatch(t: Task) {
    t.pc in {Start, Added, Created, Recorded, PasswordSet, Announced}
  }

  datatype HandlerPc =
    | OffboardChecked
    | OffboardDone(at: Stamp)
    | RollbackChecked(purge: bool)   // purge: external_id was set when the handler looked
    | RollbackPurged
    | CallbackFound(found: Pending)

  datatype Handler = Handler(user: UserId, pc: HandlerPc, checkedAt: nat)

  /**
   What has happened so far; no step's guard or effect on the rest of the state looks at it, except to draw fresh ids.
   */
  datatype History = History(
    steps: nat,
    owner: map<JobId, UserId>,          // every job id ever drawn, with its user
    profiles: map<UserId, Profile>,     // every user id ever drawn, with the request's fields
    retriedAs: map<JobId, JobId>,       // job ids a retry has replaced, with the replacement
    announcedAt: map<JobId, nat>,       // when EMAIL_SENDING was committed for the job
    dispatchedAt: map<JobId, nat>,      // when the n8n webhook was called for the job
    lost: set<UserId>,                  // entry added, but the task ended before committing external_id
    purged: set<UserId>)                // rollback deleted the entry and has not deleted the row

  datatype State = State(
    rows: Table,
    dir: Contents,
    tasks: map<JobId, Task>,
    handlers: map<nat, Handler>,
    now: nat,
    lastSweep: nat,
    past: History)

  datatype Step =
    | Onboard(user: UserId, job: JobId, profile: Profile, actor: string)
    | Create(job: JobId)
    | CreateConflict(job: JobId)
    | JoinGroup(job: JobId, added: bool)
    | Record(job: JobId, columns: Columns)
    | Claim(job: JobId, columns: Columns)
    | SetPassword(job: JobId)
    | Announce(job: JobId, columns: Columns, audited: bool)
    | Post(job: JobId)
    | Accepted(job: JobId)
    | Refused(job: JobId, found: Option<UserId>, loaded: Loaded)
    | Noted(job: JobId)
    | Raise(job: JobId)
    | MarkFailed(job: JobId, err: Option<ErrorText>, found: Option<UserId>, loaded: Loaded)
    | Marked(job: JobId)
    | Crash(job: JobId)
    | Callback(handler: nat, job: JobId, reported: JobStatus, err: Option<ErrorText>, found: Option<UserId>,
               loaded: Loaded)
    | CallbackWrite(handler: nat)
    | Retry(user: UserId, job: JobId, newJob: JobId, rotate: bool, actor: string)
    | Sweep(locked: set<UserId>)
    | Tick(elapsed: nat)
    | OffboardCheck(handler: nat, user: UserId)
    | OffboardDirectory(handler: nat, dn: Dn, at: Stamp, answer: Answer)
    | OffboardMark(handler: nat, audited: bool)
    | RollbackCheck(handler: nat, user: UserId)
    | RollbackCommit(handler: nat, dn: Dn, answer: Answer, audited: bool)
    | RollbackDirectory(handler: nat, dn: Dn, answer: Answer)
    | RollbackRow(handler: nat, audited: bool)
    | HandlerGone(handler: nat)

  // ---------------------------------------------------------------- guards

  predicate At(s: State, j: JobId, pc: Pc) {
    j in s.tasks && s.tasks[j].pc == pc
  }

  function Account(t: Task): Provisioned {
    Provisioned(t.user, Some(DnOf(t.profile.email)), t.profile)
  }

  function UpsertedFor(s: State, j: JobId, st: JobStatus, columns: Columns): Option<Table>
    requires j in s.tasks
  {
    UpsertedWith(s.rows, Account(s.tasks[j]), j, s.tasks[j].actor, st, columns, s.now)
  }

  /** Who can have a status write pending. */
  datatype Writer = OfTask(job: JobId) | OfHandler(handler: nat)

  function PendingOf(s: State, p: Writer): Option<Pending> {
    match p
    case OfTask(j) =>
      if j !in s.tasks then None
      else (match s.tasks[j].pc case Noting(p) => Some(p) case Marking(p) => Some(p) case _ => None)
    case OfHandler(h) =>
      if h !in s.handlers then None else (match s.handlers[h].pc case CallbackFound(p) => Some(p) case _ => None)
  }

  predicate CanWrite(s: State, p: Writer) {
    PendingOf(s, p).Some? && CanFlush(s.rows, PendingOf(s, p).value.write)
  }

  /** delete_user takes one of the entries its search found; with none it does nothing. */
  predicate Picks(d: Contents, u: UserId, dn: Dn) {
    Matching(d, u) == {} || dn in Matching(d, u)
  }

  predicate Enabled(s: State, e: Step) {
    match e
    case Onboard(u, j, profile, actor) =>
      && u !in s.past.profiles && j !in s.past.owner && Matching(s.dir, u) == {}
      && PendingInserted(s.rows, u, j, actor, profile, s.now).Some?
    case Create(j) => At(s, j, Start) && s.tasks[j].kind == Full && DnOf(s.tasks[j].profile.email) !in s.dir.entries
    case CreateConflict(j) => At(s, j, Start) && s.tasks[j].kind == Full
        && DnOf(s.tasks[j].profile.email) in s.dir.entries
    case JoinGroup(j, added) =>
      At(s, j, Added) && s.tasks[j].kind == Full && (added || s.tasks[j].profile.department in s.dir.groups)
    case Record(j, columns) =>
      At(s, j, Created) && s.tasks[j].kind == Full && UpsertedFor(s, j, AD_CREATING, columns).Some?
    case Claim(j, _) => At(s, j, Start) && s.tasks[j].kind.Resumed?
    case SetPassword(j) =>
      At(s, j, Recorded) && (s.tasks[j].kind == Resumed(false) || DnOf(s.tasks[j].profile.email) in s.dir.entries)
    case Announce(j, columns, audited) =>
      && At(s, j, PasswordSet)
      && (if s.tasks[j].kind == Full then UpsertedFor(s, j, EMAIL_SENDING, columns).Some?
          else s.tasks[j].user in s.rows && audited)
    case Post(j) => At(s, j, Announced)
    case Accepted(j) => At(s, j, Posted)
    case Refused(j, found, _) => At(s, j, Posted) && Finds(s.rows, j, found)
    case Noted(j) => j in s.tasks && s.tasks[j].pc.Noting? && CanWrite(s, OfTask(j))
    case Raise(j) => j in s.tasks && s.tasks[j].pc != Failing && !s.tasks[j].pc.Marking?
    case MarkFailed(j, _, found, _) => At(s, j, Failing) && Finds(s.rows, j, found)
    case Marked(j) => j in s.tasks && s.tasks[j].pc.Marking? && CanWrite(s, OfTask(j))
    case Crash(j) => j in s.tasks
    case Callback(h, j, reported, _, found, _) =>
      h !in s.handlers && reported in {JIRA_CREATING, COMPLETED, FAILED} && Finds(s.rows, j, found)
    case CallbackWrite(h) => h in s.handlers && s.handlers[h].pc.CallbackFound? && CanWrite(s, OfHandler(h))
    case Retry(u, j, newJob, _, _) =>
      u in s.rows && s.rows[u].jobId == Some(j) && Retryable(s.rows[u].jobStatus) && newJob !in s.past.owner
    case Sweep(_) => true
    case Tick(_) => true
    case OffboardCheck(h, u) => h !in s.handlers && u in s.rows && s.rows[u].jobStatus == COMPLETED
    case OffboardDirectory(h, dn, _, _) =>
      && h in s.handlers && s.handlers[h].pc == OffboardChecked && dn in Matching(s.dir, s.handlers[h].user)
      && (IsOffboarded(s.dir.entries[dn]) ==> OffboardTime(s.dir.entries[dn]).Some?)
    case OffboardMark(h, _) => h in s.handlers && s.handlers[h].pc.OffboardDone?
    case RollbackCheck(h, u) => h !in s.handlers && u in s.rows && Retryable(s.rows[u].jobStatus)
    case RollbackCommit(h, dn, _, _) =>
      && h in s.handlers && s.handlers[h].pc.RollbackChecked?
      && (s.handlers[h].pc.purge ==> Picks(s.dir, s.handlers[h].user, dn))
    case RollbackDirectory(h, dn, _) =>
      h in s.handlers && s.handlers[h].pc == RollbackChecked(true) && Picks(s.dir, s.handlers[h].user, dn)
    case RollbackRow(h, _) => h in s.handlers && s.handlers[h].pc == RollbackPurged
    case HandlerGone(h) => h in s.handlers
  }

  // ---------------------------------------------------------------- effects

  /** The job whose pipeline task takes the step. */
  function Actor(e: Step): Option<JobId> {
    match e
    case Create(j) => Some(j)
    case CreateConflict(j) => Some(j)
    case JoinGroup(j, _) => Some(j)
    case Record(j, _) => Some(j)
    case Claim(j, _) => Some(j)
    case SetPassword(j) => Some(j)
    case Announce(j, _, _) => Some(j)
    case Post(j) => Some(j)
    case Accepted(j) => Some(j)
    case Refused(j, _, _) => Some(j)
    case Noted(j) => Some(j)
    case Raise(j) => Some(j)
    case MarkFailed(j, _, _, _) => Some(j)
    case Marked(j) => Some(j)
    case Crash(j) => Some(j)
    case _ => None
  }

  function Looked(s: State, j: JobId, found: Option<UserId>, to: JobStatus, err: Option<ErrorText>, loaded: Loaded)
    : Option<Pending>
  {
    match found
    case Some(u) => Some(Pending(StatusWrite(j, u, to, err, loaded), s.past.steps))
    case None => None
  }

  const UNREACHABLE := Text("n8n unreachable")

  /** The status write whose SELECT the step is, if it finds a row. */
  function LookupOf(s: State, e: Step): Option<Pending> {
    match e
    case Refused(j, found, loaded) => Looked(s, j, found, PARTIALLY_COMPLETE, Some(UNREACHABLE), loaded)
    case MarkFailed(j, err, found, loaded) => Looked(s, j, found, FAILED, err, loaded)
    case Callback(_, j, reported, err, found, loaded) => Looked(s, j, found, reported, err, loaded)
    case _ => None
  }

  function WriterOf(e: Step): Option<Writer> {
    match e
    case Noted(j) => Some(OfTask(j))
    case Marked(j) => Some(OfTask(j))
    case CallbackWrite(h) => Some(OfHandler(h))
    case _ => None
  }

  /** The status write whose UPDATE the step is. */
  function WriteOf(s: State, e: Step): Option<StatusWrite> {
    match WriterOf(e)
    case Some(p) => (match PendingOf(s, p) case Some(pending) => Some(pending.write) case None => None)
    case None => None
  }

  /**
   Where the task is afterwards; None when the step was its last. A resumed run without a row just ends, and so does
   a status write that finds none.
   */
  function PcAfter(s: State, e: Step): Option<Pc>
    requires Enabled(s, e)
  {
    match e
    case Create(_) => Some(Added)
    case CreateConflict(_) => Some(Failing)
    case JoinGroup(_, _) => Some(Created)
    case Record(_, _) => Some(Recorded)
    case Claim(j, _) => if s.tasks[j].user in s.rows then Some(Recorded) else None
    case SetPassword(_) => Some(PasswordSet)
    case Announce(_, _, _) => Some(Announced)
    case Post(_) => Some(Posted)
    case Refused(_, _, _) => (match LookupOf(s, e) case Some(p) => Some(Noting(p)) case None => None)
    case Raise(_) => Some(Failing)
    case MarkFailed(_, _, _, _) => (match LookupOf(s, e) case Some(p) => Some(Marking(p)) case None => None)
    case _ => None
  }

  function TasksAfter(s: State, e: Step): map<JobId, Task>
    requires Enabled(s, e)
  {
    match Actor(e)
    case Some(j) =>
      (match PcAfter(s, e)
       case Some(pc) => s.tasks[j := s.tasks[j].(pc := pc)]
       case None => s.tasks - {j})
    case None =>
      match e
      case Onboard(u, j, profile, actor) => s.tasks[j := Task(u, Full, profile, actor, Start)]
      case Retry(u, _, newJob, rotate, actor) =>
        s.tasks[newJob :=
            Task(u, if s.rows[u].externalId.None? then Full else Resumed(rotate), s.rows[u].profile, actor, Start)]
      case _ => s.tasks
  }

  /** The user whose row the step deletes: the flushed DELETE survives only a successful audit write. */
  function DeletedRow(s: State, e: Step): Option<UserId>
    requires Enabled(s, e)
  {
    match e
    case RollbackCommit(h, _, _, audited) => if audited then Some(s.handlers[h].user) else None
    case RollbackRow(h, audited) => if audited then Some(s.handlers[h].user) else None
    case _ => None
  }

  /** A task's write by user id. A failed audit write in a full run takes the EMAIL_SENDING update with it. */
  function WrittenByTask(s: State, e: Step): Option<Table>
    requires Enabled(s, e)
  {
    match e
    case Record(j, columns) => UpsertedFor(s, j, AD_CREATING, columns)
    case Announce(j, columns, audited) =>
      if !audited then None
      else if s.tasks[j].kind == Full then UpsertedFor(s, j, EMAIL_SENDING, columns)
      else
        var r := s.rows[s.tasks[j].user];
        Some(s.rows[s.tasks[j].user := Touched(r, r.(jobStatus := EMAIL_SENDING), s.now)])
    case Claim(j, columns) =>
      if s.tasks[j].user !in s.rows then None
      else
        var r := s.rows[s.tasks[j].user];
        Some(s.rows[s.tasks[j].user := Carried(r, r.(jobId := Some(j), jobStatus := AD_CREATING), columns, s.now)])
    case _ => None
  }

  function RowsAfter(s: State, e: Step): Table
    requires Enabled(s, e)
  {
    if WrittenByTask(s, e).Some? then WrittenByTask(s, e).value
    else if WriteOf(s, e).Some? then StatusFlushed(s.rows, WriteOf(s, e).value, s.now)
    else if DeletedRow(s, e).Some? then s.rows - {DeletedRow(s, e).value}
    else
      match e
      case Onboard(u, j, profile, actor) => PendingInserted(s.rows, u, j, actor, profile, s.now).value
      case Retry(u, _, newJob, _, _) => s.rows[u := RetryRow(s.rows[u], newJob, s.now)]
      case Sweep(locked) => Swept(s.rows, s.now - STALE_TIMEOUT, locked, s.now)
      case OffboardMark(h, audited) =>
        if audited then OffboardMarked(s.rows, s.handlers[h].user, s.handlers[h].pc.at, s.now) else s.rows
      case _ => s.rows
  }

  /** The user whose directory entry a rollback asks to be deleted in this step. */
  function PurgedUser(s: State, e: Step): Option<UserId>
    requires Enabled(s, e)
  {
    match e
    case RollbackCommit(h, _, _, _) => if s.handlers[h].pc.purge then Some(s.handlers[h].user) else None
    case RollbackDirectory(h, _, _) => Some(s.handlers[h].user)
    case _ => None
  }

  function DirAfter(s: State, e: Step): Contents
    requires Enabled(s, e)
  {
    if PurgedUser(s, e).Some? then
      if e.dn in Matching(s.dir, PurgedUser(s, e).value) then Removed(s.dir, e.dn, e.answer) else s.dir
    else
      match e
      case Create(j) => WithEntry(s.dir, s.tasks[j].user, s.tasks[j].profile)
      case JoinGroup(j, added) =>
        if added then Joined(s.dir, s.tasks[j].profile.department, DnOf(s.tasks[j].profile.email)) else s.dir
      case OffboardDirectory(_, dn, at, answer) => Offboarded(s.dir, dn, at, answer)
      case _ => s.dir
  }

  function HandlersAfter(s: State, e: Step): map<nat, Handler>
    requires Enabled(s, e)
  {
    match e
    case OffboardCheck(h, u) => s.handlers[h := Handler(u, OffboardChecked, s.past.steps)]
    case OffboardDirectory(h, dn, at, _) =>
      var entry := s.dir.entries[dn];
      s.handlers[h := s.handlers[h].(pc := OffboardDone(if IsOffboarded(entry) then OffboardTime(entry).value else at))]
    case OffboardMark(h, _) => s.handlers - {h}
    case RollbackCheck(h, u) => s.handlers[h := Handler(u, RollbackChecked(s.rows[u].externalId.Some?), s.past.steps)]
    case RollbackCommit(h, _, _, _) => s.handlers - {h}
    case RollbackDirectory(h, _, _) => s.handlers[h := s.handlers[h].(pc := RollbackPurged)]
    case RollbackRow(h, _) => s.handlers - {h}
    case Callback(h, _, _, _, _, _) =>
      (match LookupOf(s, e)
       case Some(p) => s.handlers[h := Handler(p.write.user, CallbackFound(p), s.past.steps)]
       case None => s.handlers)
    case CallbackWrite(h) => s.handlers - {h}
    case HandlerGone(h) => s.handlers - {h}
    case _ => s.handlers
  }

  /** A task that ends between the LDAP add and the commit of external_id leaves an entry no row knows. */
  function LostAfter(s: State, e: Step): set<UserId>
    requires Enabled(s, e)
  {
    if (e.Raise? || e.Crash?) && s.tasks[e.job].pc in {Added, Created} then s.past.lost + {s.tasks[e.job].user}
    else s.past.lost
  }

  function PurgedAfter(s: State, e: Step): set<UserId>
    requires Enabled(s, e)
  {
    if DeletedRow(s, e).Some? then s.past.purged - {DeletedRow(s, e).value}
    else if PurgedUser(s, e).Some? && PurgedUser(s, e).value in s.rows && e.answer.accepted
    then s.past.purged + {PurgedUser(s, e).value}
    else s.past.purged
  }

  function OwnerAfter(s: State, e: Step): map<JobId, UserId> {
    match e
    case Onboard(u, j, _, _) => s.past.owner[j := u]
    case Retry(u, _, newJob, _, _) => s.past.owner[newJob := u]
    case _ => s.past.owner
  }

  function ProfilesAfter(s: State, e: Step): map<UserId, Profile> {
    if e.Onboard? then s.past.profiles[e.user := e.profile] else s.past.profiles
  }

  function AnnouncedAfter(s: State, e: Step): map<JobId, nat> {
    if e.Announce? && e.audited then s.past.announcedAt[e.job := s.past.steps] else s.past.announcedAt
  }

  function DispatchedAfter(s: State, e: Step): map<JobId, nat> {
    if e.Post? then s.past.dispatchedAt[e.job := s.past.steps] else s.past.dispatchedAt
  }

  function RetriedAfter(s: State, e: Step): map<JobId, JobId> {
    if e.Retry? then s.past.retriedAs[e.job := e.newJob] else s.past.retriedAs
  }

  function PastAfter(s: State, e: Step): History
    requires Enabled(s, e)
  {
    History(
      s.past.steps + 1,
      OwnerAfter(s, e),
      ProfilesAfter(s, e),
      RetriedAfter(s, e),
      AnnouncedAfter(s, e),
      DispatchedAfter(s, e),
      LostAfter(s, e),
      PurgedAfter(s, e))
  }

  function Next(s: State, e: Step): State
    requires Enabled(s, e)
  {
    State(
      RowsAfter(s, e),
      DirAfter(s, e),
      TasksAfter(s, e),
      HandlersAfter(s, e),
      if e.Tick? then s.now + e.elapsed else s.now,
      if e.Sweep? then s.now else s.lastSweep,
      PastAfter(s, e))
  }

  /** Nothing onboarded yet; the directory may hold anything, as long as its groups are legal. */
  ghost predicate Init(s: State) {
    && s.rows == map[] && s.tasks == map[] && s.handlers == map[] && s.lastSweep <= s.now
    && s.past == History(0, map[], map[], map[], map[], map[], {}, {})
    && GroupsInhabited(s.dir)
  }

  // ---------------------------------------------------------------- hypotheses

  /** H1. No stage before dispatch outlasts the stale timeout: a live task's row is never old enough to be swept. */
  predicate StagesFresh(s: State) {
    forall j | j in s.tasks && PreDispatch(s.tasks[j]) && s.tasks[j].user in s.rows ::
      s.now <= s.rows[s.tasks[j].user].updatedAt + STALE_TIMEOUT
  }

  datatype Hypotheses = Hypotheses(
    stagesFresh: bool,          // H1: whenever the sweeper ticks, StagesFresh holds
    callbacksDispatched: bool,  // H2: n8n calls back only for job ids its webhook was called with
    auditsSucceed: bool,        // H3: write_audit_log's commit succeeds
    rollbackAtomic: bool,       // H4: rollback's directory delete and row delete are one step
    noLateRetry: bool)          // H5: no retry of a user between the SELECT and the UPDATE of a status write for it

  predicate Audited(e: Step) {
    match e
    case Announce(_, _, audited) => audited
    case OffboardMark(_, audited) => audited
    case RollbackCommit(_, _, _, audited) => audited
    case RollbackRow(_, audited) => audited
    case _ => true
  }

  /** A status write has found the user's row and has still to write it. */
  ghost predicate WritePending(s: State, u: UserId) {
    exists p :: PendingOf(s, p).Some? && PendingOf(s, p).value.write.user == u
  }

  ghost predicate Allowed(h: Hypotheses, s: State, e: Step) {
    && (h.stagesFresh && e.Sweep? ==> StagesFresh(s))
    && (h.callbacksDispatched && e.Callback? ==> e.job in s.past.dispatchedAt)
    && (h.auditsSucceed ==> Audited(e))
    && (h.rollbackAtomic ==> !e.RollbackDirectory?)
    && (h.noLateRetry && e.Retry? ==> !WritePending(s, e.user))
  }

  /** states[i] --steps[i]--> states[i + 1] */
  datatype Run = Run(states: seq<State>, steps: seq<Step>)

  ghost predicate RunStep(r: Run, h: Hypotheses, i: nat)
    requires |r.states| == |r.steps| + 1 && i < |r.steps|
  {
    && Enabled(r.states[i], r.steps[i])
    && Allowed(h, r.states[i], r.steps[i])
    && r.states[i + 1] == Next(r.states[i], r.steps[i])
  }

  ghost predicate IsRun(r: Run, h: Hypotheses) {
    && |r.states| == |r.steps| + 1 && Init(r.states[0])
    && forall i | 0 <= i < |r.steps| :: RunStep(r, h, i)
  }
}
