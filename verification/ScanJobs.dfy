/**
 Scan jobs of backend/services/scanner.py: the job registry, the task pool of async_scan_subnet run
 under an arbitrary scheduler, and run_scan with its queue, its transaction and its terminal event.
 */
module ScanJobs {
  import opened Common
  import opened ScanModel
  import opened HostScan
  import opened Devices

  datatype JobStatus = Running | Completed | Failed

  class ScanJob {
    var status: JobStatus
    const subnet: string
    var queue: seq<Event>
    var hostsTotal: nat
    var hostsScanned: nat

    constructor (subnet: string)
      ensures this.subnet == subnet && status == Running && queue == [] && hostsTotal == 0 && hostsScanned == 0
    {
      this.subnet := subnet;
      status, queue, hostsTotal, hostsScanned := Running, [], 0, 0;
    }

    /** `push_progress`: the queue is unbounded, so the put never suspends. */
    method PushProgress(host: string, scanned: nat, total: nat)
      modifies this
      ensures queue == old(queue) + [Progress(total, scanned, host)]
      ensures hostsScanned == scanned && hostsTotal == total && status == old(status)
    {
      hostsScanned, hostsTotal := scanned, total;
      queue := queue + [Progress(total, scanned, host)];
    }
  }

  class Registry {
    var jobs: map<string, ScanJob>

    method CreateJob(id: string, subnet: string)
      modifies this
      ensures id in jobs && fresh(jobs[id]) && jobs == old(jobs)[id := jobs[id]]
      ensures jobs[id].status == Running && jobs[id].queue == [] && jobs[id].subnet == subnet
    {
      var job := new ScanJob(subnet);
      jobs := jobs[id := job];
    }
  }

  // ---------------------------------------------------------------- which results come back

  /** The hosts among the first n whose task gives a result, in host order. */
  function Survivors(w: Work, n: nat): (hs: seq<nat>)
    requires ValidWork(w) && n <= |w.hosts|
    ensures forall i | 0 <= i < |hs| :: hs[i] < n && EndingAt(w, hs[i]).Gives?
  {
    if n == 0 then []
    else Survivors(w, n - 1) + if EndingAt(w, n - 1).Gives? then [n - 1] else []
  }

  function Collected(w: Work, n: nat): seq<ScanResult>
    requires ValidWork(w) && n <= |w.hosts|
  {
    var hs := Survivors(w, n);
    seq(|hs|, i requires 0 <= i < |hs| => EndingAt(w, hs[i]).result)
  }

  /** Every host whose task gives a result, once and in host order; no other. */
  lemma {:induction false} SurvivorsExactly(w: Work, n: nat)
    requires ValidWork(w) && n <= |w.hosts|
    ensures var hs := Survivors(w, n);
            && (forall i, j | 0 <= i < j < |hs| :: hs[i] < hs[j])
            && (forall h: nat :: h in hs <==> h < n && EndingAt(w, h).Gives?)
  {
    if n > 0 {
      SurvivorsExactly(w, n - 1);
    }
  }

  function EnrichedAll(results: seq<ScanResult>, local: map<string, Local>): seq<ScanResult> {
    seq(|results|, i requires 0 <= i < |results| => Enriched(results[i], local))
  }

  /** What a finished scan returns: it names no schedule. */
  function ScanResults(w: Work, local: map<string, Local>): seq<ScanResult>
    requires ValidWork(w)
  {
    EnrichedAll(Collected(w, |w.hosts|), local)
  }

  function CountOf(results: seq<ScanResult>, status: Liveness): nat {
    if results == [] then 0
    else CountOf(results[..|results| - 1], status) + if results[|results| - 1].status == status then 1 else 0
  }

  ghost function Online(w: Work, n: nat): set<nat>
    requires ValidWork(w) && n <= |w.hosts|
  {
    set h: nat | h < n && IsOnline(w.replies[h])
  }

  ghost function Offline(w: Work, n: nat): set<nat>
    requires ValidWork(w) && n <= |w.hosts|
  {
    set h: nat | h < n && IsOffline(w.replies[h])
  }

  lemma CountsOn(results: seq<ScanResult>, result: ScanResult)
    ensures CountOf(results + [result], Up) == CountOf(results, Up) + if result.status.Up? then 1 else 0
    ensures CountOf(results + [result], Down) == CountOf(results, Down) + if result.status.Down? then 1 else 0
  {
    assert (results + [result])[..|results|] == results;
  }

  lemma OnlineGrows(w: Work, n: nat)
    requires ValidWork(w) && n < |w.hosts|
    ensures |Online(w, n + 1)| == |Online(w, n)| + if IsOnline(w.replies[n]) then 1 else 0
  {
    if IsOnline(w.replies[n]) {
      assert Online(w, n + 1) == Online(w, n) + {n};
    } else {
      assert Online(w, n + 1) == Online(w, n);
    }
  }

  lemma OfflineGrows(w: Work, n: nat)
    requires ValidWork(w) && n < |w.hosts|
    ensures |Offline(w, n + 1)| == |Offline(w, n)| + if IsOffline(w.replies[n]) then 1 else 0
  {
    if IsOffline(w.replies[n]) {
      assert Offline(w, n + 1) == Offline(w, n) + {n};
    } else {
      assert Offline(w, n + 1) == Offline(w, n);
    }
  }

  lemma ResultsGrow(w: Work, local: map<string, Local>, n: nat)
    requires ValidWork(w) && n < |w.hosts|
    ensures EnrichedAll(Collected(w, n + 1), local)
            == EnrichedAll(Collected(w, n), local)
               + if EndingAt(w, n).Gives? then [Enriched(EndingAt(w, n).result, local)] else []
  {
  }

  ghost predicate CountsAgree(w: Work, results: seq<ScanResult>, n: nat)
    requires ValidWork(w) && n <= |w.hosts|
  {
    && CountOf(results, Up) == |Online(w, n)| && CountOf(results, Down) == |Offline(w, n)|
    && |results| == |Online(w, n)| + |Offline(w, n)|
  }

  lemma StatusOfReply(w: Work, local: map<string, Local>, n: nat)
    requires ValidWork(w) && n < |w.hosts|
    ensures EndingAt(w, n).Gives? <==> IsOnline(w.replies[n]) || IsOffline(w.replies[n])
    ensures EndingAt(w, n).Gives? ==>
              var status := Enriched(EndingAt(w, n).result, local).status;
              && (status.Up? <==> IsOnline(w.replies[n])) && (status.Down? <==> IsOffline(w.replies[n]))
  {
    EndingMeans(w.hosts[n], w.replies[n]);
  }

  lemma CountsGoOn(w: Work, local: map<string, Local>, before: seq<ScanResult>, n: nat)
    requires ValidWork(w) && n < |w.hosts| && CountsAgree(w, before, n)
    ensures CountsAgree(w, before + if EndingAt(w, n).Gives? then [Enriched(EndingAt(w, n).result, local)] else [],
                        n + 1)
  {
    StatusOfReply(w, local, n);
    OnlineGrows(w, n);
    OfflineGrows(w, n);
    if EndingAt(w, n).Gives? {
      CountsOn(before, Enriched(EndingAt(w, n).result, local));
    } else {
      assert before + [] == before;
    }
  }

  /** Enrichment changes no status, so the counts are those of the replies. */
  lemma {:induction false} CountsOfReplies(w: Work, local: map<string, Local>, n: nat)
    requires ValidWork(w) && n <= |w.hosts|
    ensures CountsAgree(w, EnrichedAll(Collected(w, n), local), n)
  {
    if n == 0 {
      assert Online(w, 0) == {} && Offline(w, 0) == {};
    } else {
      CountsOfReplies(w, local, n - 1);
      ResultsGrow(w, local, n - 1);
      CountsGoOn(w, local, EnrichedAll(Collected(w, n - 1), local), n - 1);
    }
  }

  lemma {:induction false} UpAndDownAreAll(results: seq<ScanResult>)
    ensures CountOf(results, Up) + CountOf(results, Down) == |results|
  {
    if results != [] {
      UpAndDownAreAll(results[..|results| - 1]);
    }
  }

  // ---------------------------------------------------------------- the task pool

  lemma {:induction false} RunsOn(w: Work, p: Pool, schedule: seq<nat>, h: nat)
    requires ValidWork(w) && |p.phases| == |w.hosts| && Runs(w, p, schedule) && Enabled(After(w, p, schedule), h)
    ensures Runs(w, p, schedule + [h])
    ensures |After(w, p, schedule).phases| == |w.hosts|
    ensures After(w, p, schedule + [h]) == Step(w, After(w, p, schedule), h)
    decreases |schedule|
  {
    if schedule == [] {
      assert [] + [h] == [h] && [h][1..] == [];
      assert After(w, Step(w, p, h), []) == Step(w, p, h);
    } else {
      RunsOn(w, Step(w, p, schedule[0]), schedule[1..], h);
      assert (schedule + [h])[1..] == schedule[1..] + [h];
    }
  }

  ghost predicate AllDone(p: Pool) {
    forall h | 0 <= h < |p.phases| :: p.phases[h].Done?
  }

  /** A complete schedule from the start. */
  ghost predicate Schedules(w: Work, schedule: seq<nat>)
    requires ValidWork(w)
  {
    Runs(w, Start(w), schedule) && AllDone(After(w, Start(w), schedule))
  }

  /** The tasks of one call: the semaphore's free slots, the shared counter and what each task ended with. */
  class TaskPool {
    const w: Work
    const job: ScanJob
    ghost const before: seq<Event>
    var phases: seq<Phase>
    var free: nat
    var scannedCount: nat
    var endings: seq<Ending>
    ghost var schedule: seq<nat>
    ghost var finished: seq<nat>
    ghost var reported: seq<Event>

    ghost function Value(): Pool
      reads this
    {
      Pool(phases, free, scannedCount, finished, reported)
    }

    ghost predicate Valid()
      reads this, job
    {
      && ValidWork(w)
      && Sound(w, Value())
      && Runs(w, Start(w), schedule)
      && After(w, Start(w), schedule) == Value()
      && job.queue == before + reported
      && |endings| == |w.hosts|
      && forall h | 0 <= h < |endings| && phases[h].Done? :: endings[h] == EndingAt(w, h)
    }

    constructor (job: ScanJob, w: Work)
      requires ValidWork(w)
      ensures Valid() && this.job == job && this.w == w && before == job.queue
    {
      this.job, this.w := job, w;
      phases, endings := seq(|w.hosts|, i => Waiting), seq(|w.hosts|, i => Nothing);
      free, scannedCount := MAX_CONCURRENT_SCANS, 0;
      before, schedule, finished, reported := job.queue, [], [], [];
      new;
      StartIsSound(w);
      assert Value() == Start(w);
      assert job.queue + [] == job.queue;
    }

    predicate CanRun(h: nat)
      reads this
    {
      h < |phases| && (phases[h].Pinging? || phases[h].Probing? || (phases[h].Waiting? && free > 0))
    }

    /** One turn of the task of host h: up to its next await, or to its end. */
    method RunTask(h: nat)
      requires Valid() && CanRun(h)
      modifies this, job
      ensures Valid() && job.status == old(job.status)
      ensures schedule == old(schedule) + [h] && Turns(phases) < Turns(old(phases))
    {
      StepIsSound(w, Value(), h);
      RunsOn(w, Start(w), schedule, h);
      assert InPlace(w, Value(), h);
      ghost var after := Step(w, Value(), h);
      schedule := schedule + [h];
      Turn(h);
      assert Value() == after;
    }

    method Turn(h: nat)
      requires ValidWork(w) && |phases| == |endings| == |w.hosts| && CanRun(h)
      requires InPlace(w, Value(), h)
      requires job.queue == before + reported
      modifies this`phases, this`endings, this`free, this`scannedCount, this`finished, this`reported, job
      ensures Value() == Step(w, old(Value()), h)
      ensures job.queue == before + reported && job.status == old(job.status)
      ensures endings == if phases[h].Done? then old(endings)[h := EndingAt(w, h)] else old(endings)
    {
      var host, reply := w.hosts[h], w.replies[h];
      var ending := EndingOf(host, reply);
      if phases[h].Waiting? {
        if reply.ping.PingUnavailable? {
          phases, endings := phases[h := Done], endings[h := ending];
        } else {
          phases, free := phases[h := Pinging], free - 1;
        }
      } else if phases[h].Pinging? && NeedsProbe(reply) {
        if reply.probe.ProbeUnavailable? {
          phases, endings, free := phases[h := Done], endings[h := ending], free + 1;
        } else {
          phases := phases[h := Probing];
        }
      } else {
        phases, endings, free := phases[h := Done], endings[h := ending], free + 1;
        scannedCount := scannedCount + 1;
        finished := finished + [h];
        if ending.Gives? {
          job.PushProgress(host, scannedCount, |w.hosts|);
        }
        reported := reported + Report(w, h, scannedCount);
      }
    }

    /** The event loop: as long as some task can run, any one of them does. */
    method RunAll()
      requires Valid()
      modifies this, job
      ensures Valid() && job.status == old(job.status) && AllDone(Value())
    {
      while exists h: nat | h < |phases| :: CanRun(h)
        invariant Valid() && job.status == old(job.status)
        decreases Turns(phases)
      {
        var h: nat :| h < |phases| && CanRun(h);
        RunTask(h);
      }
      if !AllDone(Value()) {
        var h := NeverStuck(w, Value());
        assert CanRun(h);
      }
    }
  }

  /** `local` is None when reading the interfaces raises, or asking for a host's own values does. */
  method AsyncScanSubnet(job: ScanJob, w: Work, local: Option<map<string, Local>>)
    returns (results: Option<seq<ScanResult>>, ghost schedule: seq<nat>)
    requires ValidWork(w)
    modifies job
    ensures results == if local.Some? then Some(ScanResults(w, local.value)) else None
    ensures Schedules(w, schedule)
    ensures job.queue == old(job.queue) + After(w, Start(w), schedule).queue
    ensures job.status == old(job.status)
  {
    var tasks := new TaskPool(job, w);
    tasks.RunAll();
    schedule := tasks.schedule;
    var scanned := Gathered(w, tasks.endings);
    if local.None? {
      return None, tasks.schedule;
    }
    var enriched := EnrichLocal(scanned, local.value);
    results := Some(enriched);
  }

  /** What gather returns, without the exceptions and the tasks that returned None. */
  method Gathered(w: Work, endings: seq<Ending>) returns (results: seq<ScanResult>)
    requires ValidWork(w) && |endings| == |w.hosts| && forall h | 0 <= h < |endings| :: endings[h] == EndingAt(w, h)
    ensures results == Collected(w, |w.hosts|)
  {
    results := [];
    for i := 0 to |endings|
      invariant results == Collected(w, i)
    {
      if endings[i].Gives? {
        results := results + [endings[i].result];
      }
    }
  }

  method EnrichLocal(scanned: seq<ScanResult>, local: map<string, Local>) returns (results: seq<ScanResult>)
    ensures results == EnrichedAll(scanned, local)
  {
    results := scanned;
    for i := 0 to |results|
      invariant |results| == |scanned|
      invariant forall k | 0 <= k < |results| :: results[k] == if k < i then Enriched(scanned[k], local) else scanned[k]
    {
      results := results[i := Enriched(results[i], local)];
    }
  }

  // ---------------------------------------------------------------- one progress event a result

  ghost function GivingAmong(w: Work, finished: seq<nat>): set<nat>
    requires ValidWork(w) && forall i | 0 <= i < |finished| :: finished[i] < |w.hosts|
  {
    set i | 0 <= i < |finished| && EndingAt(w, finished[i]).Gives? :: finished[i]
  }

  ghost function Giving(w: Work, n: nat): set<nat>
    requires ValidWork(w) && n <= |w.hosts|
  {
    set h: nat | h < n && EndingAt(w, h).Gives?
  }

  lemma GivingGrows(w: Work, finished: seq<nat>, n: nat)
    requires ValidWork(w) && Distinct(finished) && forall i | 0 <= i < |finished| :: finished[i] < |w.hosts|
    requires |finished| == n + 1
    ensures finished[n] !in GivingAmong(w, finished[..n])
    ensures GivingAmong(w, finished)
         == GivingAmong(w, finished[..n]) + if EndingAt(w, finished[n]).Gives? then {finished[n]} else {}
  {
  }

  lemma {:induction false} ReportsCount(w: Work, finished: seq<nat>)
    requires ValidWork(w) && Distinct(finished) && forall i | 0 <= i < |finished| :: finished[i] < |w.hosts|
    ensures |Reports(w, finished)| == |GivingAmong(w, finished)|
  {
    if finished == [] {
      assert GivingAmong(w, finished) == {};
    } else {
      var n := |finished| - 1;
      ReportsCount(w, finished[..n]);
      GivingGrows(w, finished, n);
    }
  }

  lemma {:induction false} SurvivorsCount(w: Work, n: nat)
    requires ValidWork(w) && n <= |w.hosts|
    ensures |Survivors(w, n)| == |Giving(w, n)|
  {
    if n == 0 {
      assert Giving(w, 0) == {};
    } else {
      SurvivorsCount(w, n - 1);
      assert Giving(w, n) == Giving(w, n - 1) + if EndingAt(w, n - 1).Gives? then {n - 1} else {};
    }
  }

  lemma {:induction false} ReportNamed(w: Work, finished: seq<nat>, k: nat)
    requires ValidWork(w) && forall i | 0 <= i < |finished| :: finished[i] < |w.hosts|
    requires k < |finished| && EndingAt(w, finished[k]).Gives?
    ensures Progress(|w.hosts|, k + 1, w.hosts[finished[k]]) in Reports(w, finished)
  {
    var n := |finished| - 1;
    if k < n {
      ReportNamed(w, finished[..n], k);
    }
  }

  /** Whatever the schedule, a finished scan has sent one progress event for each result it returns, naming its host. */
  lemma EveryResultIsReported(w: Work, schedule: seq<nat>)
    requires ValidWork(w) && Schedules(w, schedule)
    ensures var queue := After(w, Start(w), schedule).queue;
            && |queue| == |Survivors(w, |w.hosts|)|
            && forall h | h in Survivors(w, |w.hosts|) :: exists k: nat :: Progress(|w.hosts|, k, w.hosts[h]) in queue
  {
    StartIsSound(w);
    RunIsSound(w, Start(w), schedule);
    var p := After(w, Start(w), schedule);
    ReportsCount(w, p.finished);
    SurvivorsCount(w, |w.hosts|);
    SurvivorsExactly(w, |w.hosts|);
    forall h: nat ensures h in GivingAmong(w, p.finished) <==> h in Giving(w, |w.hosts|) {
      assert h in p.finished <==> Counted(w, p, h);
    }
    assert GivingAmong(w, p.finished) == Giving(w, |w.hosts|);
    forall h | h in Survivors(w, |w.hosts|) ensures exists k: nat :: Progress(|w.hosts|, k, w.hosts[h]) in p.queue {
      assert Counted(w, p, h);
      var k :| 0 <= k < |p.finished| && p.finished[k] == h;
      ReportNamed(w, p.finished, k);
    }
  }

  // ---------------------------------------------------------------- run_scan

  const FAILED := "Scan failed due to an internal error"

  function FindingsOf(results: seq<ScanResult>, clock: nat -> nat): seq<Finding> {
    seq(|results|, i requires 0 <= i < |results| => Finding(results[i], clock(i)))
  }

  function Outcome(results: seq<ScanResult>): Event {
    Complete(|results|, CountOf(results, Up), CountOf(results, Down))
  }

  /** The event of a scan that succeeds, in terms of what nmap answered. */
  ghost function Success(w: Work): Event
    requires ValidWork(w)
  {
    var online, offline := |Online(w, |w.hosts|)|, |Offline(w, |w.hosts|)|;
    Complete(online + offline, online, offline)
  }

  lemma OutcomeIsSuccess(w: Work, local: map<string, Local>)
    requires ValidWork(w)
    ensures Outcome(ScanResults(w, local)) == Success(w)
  {
    CountsOfReplies(w, local, |w.hosts|);
  }

  /**
   `hosts` is None when the subnet does not parse, `local` when local introspection raises, and `fault` says where
   the transaction breaks.
   */
  method RunScan(registry: Registry, id: string, hosts: Option<seq<string>>, replies: seq<Reply>,
                 local: Option<map<string, Local>>, clock: nat -> nat, fault: Fault, db: DeviceDb)
    returns (ghost schedule: seq<nat>, committed: bool)
    requires hosts.Some? ==> |hosts.value| == |replies|
    modifies db, if id in registry.jobs then {registry.jobs[id]} else {}
    ensures registry.jobs == old(registry.jobs)
    ensures id !in registry.jobs ==> !committed
    ensures id in registry.jobs && hosts.None? ==>
      var job := registry.jobs[id];
      !committed && job.status == Failed && job.queue == old(job.queue) + [Error(FAILED)]
    ensures id in registry.jobs && hosts.Some? ==>
      var job, w := registry.jobs[id], Work(hosts.value, replies);
      && Schedules(w, schedule)
      && (committed <==> local.Some? && Commits(fault, |ScanResults(w, local.value)|))
      && job.status == (if committed && !fault.CloseFails? then Completed else Failed)
      && job.queue == old(job.queue) + After(w, Start(w), schedule).queue
                      + [if job.status == Completed then Success(w) else Error(FAILED)]
      && (committed ==>
            var findings := FindingsOf(ScanResults(w, local.value), clock);
            db.rows == UpdatedAll(old(db.rows), findings) && db.history == old(db.history) + SnapshotsOf(findings))
    ensures !committed ==> db.rows == old(db.rows) && db.history == old(db.history)
  {
    schedule, committed := [], false;
    if id !in registry.jobs {
      return;
    }
    var job := registry.jobs[id];
    job.hostsTotal := if hosts.Some? then |hosts.value| else 0;
    var raised := true;
    if hosts.Some? {
      var w := Work(hosts.value, replies);
      var results;
      results, schedule := AsyncScanSubnet(job, w, local);
      if results.Some? {
        committed, raised := db.RecordScan(FindingsOf(results.value, clock), fault);
        if !raised {
          job.status := Completed;
          OutcomeIsSuccess(w, local.value);
          job.queue := job.queue + [Outcome(results.value)];
        }
      }
    }
    if raised {
      job.status := Failed;
      job.queue := job.queue + [Error(FAILED)];
    }
  }

  // ---------------------------------------------------------------- the table after a scan

  ghost predicate DistinctHosts(w: Work) {
    forall g, h | 0 <= g < h < |w.hosts| :: w.hosts[g] != w.hosts[h]
  }

  ghost predicate GivesFor(w: Work, h: nat, ip: string)
    requires ValidWork(w)
  {
    h < |w.hosts| && w.hosts[h] == ip && EndingAt(w, h).Gives?
  }

  lemma FindingIp(w: Work, local: map<string, Local>, clock: nat -> nat, i: nat)
    requires ValidWork(w) && i < |Survivors(w, |w.hosts|)|
    ensures var h := Survivors(w, |w.hosts|)[i];
            && GivesFor(w, h, w.hosts[h])
            && FindingsOf(ScanResults(w, local), clock)[i] == Finding(Enriched(EndingAt(w, h).result, local), clock(i))
            && FindingsOf(ScanResults(w, local), clock)[i].result.ip == w.hosts[h]
  {
  }

  lemma FindingsAreDistinct(w: Work, local: map<string, Local>, clock: nat -> nat)
    requires ValidWork(w) && DistinctHosts(w)
    ensures DistinctIps(FindingsOf(ScanResults(w, local), clock))
  {
    var findings := FindingsOf(ScanResults(w, local), clock);
    var hs := Survivors(w, |w.hosts|);
    SurvivorsExactly(w, |w.hosts|);
    forall i, j | 0 <= i < j < |findings| ensures findings[i].result.ip != findings[j].result.ip {
      FindingIp(w, local, clock, i);
      FindingIp(w, local, clock, j);
      assert hs[i] < hs[j];
    }
  }

  /** nmap's answer for the host is one that gives a result. */
  ghost predicate AnsweredFor(w: Work, h: nat, ip: string)
    requires ValidWork(w)
  {
    h < |w.hosts| && w.hosts[h] == ip && (IsOnline(w.replies[h]) || IsOffline(w.replies[h]))
  }

  function LocalOf(local: map<string, Local>, ip: string): Option<Local> {
    if ip in local then Some(local[ip]) else None
  }

  /**
   What a reply, and for the local host what introspection read, makes of a row, field by field. Introspection fills
   in hostname and MAC only where nmap has none; percentages it did not obtain stay as they were.
   */
  predicate ReplySays(was: Option<Device>, reply: Reply, l: Option<Local>, at: nat, after: Option<Device>) {
    if IsOnline(reply) then
      && after.Some?
      && after.value.status == DeviceStatus.Online && after.value.lastSeen == Some(at)
      && after.value.latency == Some(reply.latency)
      && after.value.osInfo == (if reply.probe.Probed? then reply.probe.osInfo else None)
      && after.value.ports == (if reply.probe.Probed? then reply.probe.ports else None)
      && after.value.hostname
         == (if reply.ping.hostname.None? && l.Some? then l.value.hostname else reply.ping.hostname)
      && after.value.mac == (if reply.ping.mac.None? && l.Some? then l.value.mac else reply.ping.mac)
      && after.value.cpu
         == Newest(if l.Some? then l.value.cpu else None, if was.Some? then Some(was.value.cpu) else None)
      && after.value.memory
         == Newest(if l.Some? then l.value.memory else None, if was.Some? then Some(was.value.memory) else None)
    else if was.Some? then after == Some(was.value.(status := DeviceStatus.Offline))
    else after.None?
  }

  lemma ResultSays(host: string, reply: Reply, local: map<string, Local>, was: Option<Device>, at: nat,
                   after: Option<Device>)
    requires EndingOf(host, reply).Gives?
    requires RowSays(was, Finding(Enriched(EndingOf(host, reply).result, local), at), after)
    ensures ReplySays(was, reply, LocalOf(local, host), at, after)
  {
    EndingMeans(host, reply);
  }

  /** The place of host h among the results. */
  lemma {:induction false} SurvivorRank(w: Work, h: nat, n: nat)
    requires ValidWork(w) && h < n <= |w.hosts| && EndingAt(w, h).Gives?
    ensures var i := |Survivors(w, h)|; i < |Survivors(w, n)| && Survivors(w, n)[i] == h
  {
    if h < n - 1 {
      SurvivorRank(w, h, n - 1);
    }
  }

  /**
   A committed scan changes the row of each host as nmap's answer for that host says, at the time its result was
   written, and no other row.
   */
  lemma TableAfterScan(w: Work, local: map<string, Local>, clock: nat -> nat, rows: Table, ip: string)
    requires ValidWork(w) && DistinctHosts(w)
    ensures var was, after := Lookup(rows, ip), Lookup(UpdatedAll(rows, FindingsOf(ScanResults(w, local), clock)), ip);
            if exists h: nat :: AnsweredFor(w, h, ip)
            then exists h: nat ::
                   && AnsweredFor(w, h, ip)
                   && ReplySays(was, w.replies[h], LocalOf(local, ip), clock(|Survivors(w, h)|), after)
            else after == was
  {
    var findings := FindingsOf(ScanResults(w, local), clock);
    if h: nat :| AnsweredFor(w, h, ip) {
      EndingMeans(w.hosts[h], w.replies[h]);
      SurvivorRank(w, h, |w.hosts|);
      var i := |Survivors(w, h)|;
      FindingIp(w, local, clock, i);
      FindingsAreDistinct(w, local, clock);
      EachRow(rows, findings, i);
      ResultSays(w.hosts[h], w.replies[h], local, Lookup(rows, ip), clock(i), Lookup(UpdatedAll(rows, findings), ip));
    } else {
      forall i | 0 <= i < |findings| ensures findings[i].result.ip != ip {
        FindingIp(w, local, clock, i);
        var h := Survivors(w, |w.hosts|)[i];
        EndingMeans(w.hosts[h], w.replies[h]);
        assert !AnsweredFor(w, h, ip);
      }
      OthersStay(rows, findings, ip);
    }
  }

  /** What a reader of the job's queue sees: rising progress, then one terminal event, last. */
  ghost predicate ScanEvents(events: seq<Event>, total: nat) {
    && events != []
    && Terminal(events[|events| - 1])
    && Rising(events[..|events| - 1], total, total)
  }

  lemma QueueOfScan(w: Work, schedule: seq<nat>, terminal: Event)
    requires ValidWork(w) && Schedules(w, schedule) && Terminal(terminal)
    ensures ScanEvents(After(w, Start(w), schedule).queue + [terminal], |w.hosts|)
  {
    EverySchedule(w, schedule);
    var queue := After(w, Start(w), schedule).queue;
    assert (queue + [terminal])[..|queue|] == queue;
  }
}
