/**
 The host tasks of async_scan_subnet (backend/services/scanner.py). Between two awaits a task runs
 alone, so a schedule is the sequence of tasks that get to run up to their next await.
 */
module HostScan {
  import opened ScanModel

  const MAX_CONCURRENT_SCANS := 50

  /** Waiting for the semaphore; inside it at the ping or at the OS call; or over. */
  datatype Phase = Waiting | Pinging | Probing | Done

  /** The subnet's hosts, and what nmap answers for each. */
  datatype Work = Work(hosts: seq<string>, replies: seq<Reply>)

  predicate ValidWork(w: Work) {
    |w.hosts| == |w.replies|
  }

  function EndingAt(w: Work, h: nat): Ending
    requires ValidWork(w) && h < |w.hosts|
  {
    EndingOf(w.hosts[h], w.replies[h])
  }

  /** `finished` records the order in which tasks were counted; it decides nothing. */
  datatype Pool = Pool(phases: seq<Phase>, free: nat, scanned: nat, finished: seq<nat>, queue: seq<Event>)

  function Start(w: Work): Pool {
    Pool(seq(|w.hosts|, i => Waiting), MAX_CONCURRENT_SCANS, 0, [], [])
  }

  predicate Enabled(p: Pool, h: nat) {
    h < |p.phases| && match p.phases[h]
      case Waiting => p.free > 0
      case Pinging => true
      case Probing => true
      case Done => false
  }

  /** The event for the task counted as number `scanned`; a task without result is counted silently. */
  function Report(w: Work, h: nat, scanned: nat): seq<Event>
    requires ValidWork(w) && h < |w.hosts|
  {
    if EndingAt(w, h).Gives? then [Progress(|w.hosts|, scanned, w.hosts[h])] else []
  }

  /** Leaving the semaphore, counting and reporting happen without an await between them. */
  function Finish(w: Work, p: Pool, h: nat): Pool
    requires ValidWork(w) && h < |w.hosts| && |p.phases| == |w.hosts|
  {
    Pool(p.phases[h := Done], p.free + 1, p.scanned + 1, p.finished + [h], p.queue + Report(w, h, p.scanned + 1))
  }

  function Step(w: Work, p: Pool, h: nat): Pool
    requires ValidWork(w) && |p.phases| == |w.hosts| && Enabled(p, h)
  {
    match p.phases[h]
    case Waiting =>
      if w.replies[h].ping.PingUnavailable? then p.(phases := p.phases[h := Done])
      else p.(phases := p.phases[h := Pinging], free := p.free - 1)
    case Pinging =>
      if !NeedsProbe(w.replies[h]) then Finish(w, p, h)
      else if w.replies[h].probe.ProbeUnavailable? then p.(phases := p.phases[h := Done], free := p.free + 1)
      else p.(phases := p.phases[h := Probing])
    case Probing => Finish(w, p, h)
    case Done => assert false; p
  }

  ghost predicate Runs(w: Work, p: Pool, schedule: seq<nat>)
    requires ValidWork(w) && |p.phases| == |w.hosts|
    decreases |schedule|
  {
    schedule == [] || (Enabled(p, schedule[0]) && Runs(w, Step(w, p, schedule[0]), schedule[1..]))
  }

  ghost function After(w: Work, p: Pool, schedule: seq<nat>): Pool
    requires ValidWork(w) && |p.phases| == |w.hosts| && Runs(w, p, schedule)
    decreases |schedule|
  {
    if schedule == [] then p else After(w, Step(w, p, schedule[0]), schedule[1..])
  }

  // ---------------------------------------------------------------- counting

  function Inside(phases: seq<Phase>): nat {
    if phases == [] then 0
    else (if phases[0].Pinging? || phases[0].Probing? then 1 else 0) + Inside(phases[1..])
  }

  /** Turns still to come: each task runs at most three times. */
  function Turns(phases: seq<Phase>): nat {
    if phases == [] then 0
    else (match phases[0] case Waiting => 3 case Pinging => 2 case Probing => 1 case Done => 0) + Turns(phases[1..])
  }

  function Occupies(phase: Phase): nat {
    Inside([phase])
  }

  function TurnsOf(phase: Phase): nat {
    Turns([phase])
  }

  lemma {:induction false} CountsAfterUpdate(phases: seq<Phase>, h: nat, phase: Phase)
    requires h < |phases|
    ensures Inside(phases[h := phase]) == Inside(phases) - Occupies(phases[h]) + Occupies(phase)
    ensures Turns(phases[h := phase]) == Turns(phases) - TurnsOf(phases[h]) + TurnsOf(phase)
  {
    if h > 0 {
      CountsAfterUpdate(phases[1..], h - 1, phase);
      assert phases[h := phase][1..] == phases[1..][h - 1 := phase];
    } else {
      assert phases[h := phase][1..] == phases[1..];
    }
  }

  lemma {:induction false} NobodyInside(phases: seq<Phase>)
    requires forall h | 0 <= h < |phases| :: phases[h].Waiting? || phases[h].Done?
    ensures Inside(phases) == 0
  {
    if phases != [] {
      NobodyInside(phases[1..]);
    }
  }

  lemma {:induction false} StartCounts(phases: seq<Phase>)
    requires forall h | 0 <= h < |phases| :: phases[h].Waiting?
    ensures Turns(phases) == 3 * |phases|
  {
    if phases != [] {
      StartCounts(phases[1..]);
    }
  }

  // ---------------------------------------------------------------- what every schedule keeps

  /** The progress events of the tasks counted so far: the k-th of them says k. */
  function Reports(w: Work, finished: seq<nat>): seq<Event>
    requires ValidWork(w) && forall i | 0 <= i < |finished| :: finished[i] < |w.hosts|
  {
    if finished == [] then []
    else
      var n := |finished| - 1;
      Reports(w, finished[..n]) + Report(w, finished[n], |finished|)
  }

  ghost predicate Counted(w: Work, p: Pool, h: nat)
    requires ValidWork(w) && |p.phases| == |w.hosts|
  {
    h < |w.hosts| && p.phases[h].Done? && !EndingAt(w, h).Raised?
  }

  ghost predicate InPlace(w: Work, p: Pool, h: nat)
    requires ValidWork(w) && |p.phases| == |w.hosts| && h < |w.hosts|
  {
    && (p.phases[h].Pinging? ==> !w.replies[h].ping.PingUnavailable?)
    && (p.phases[h].Probing? ==> NeedsProbe(w.replies[h]) && !w.replies[h].probe.ProbeUnavailable?)
  }

  ghost predicate Distinct(s: seq<nat>) {
    forall i, j | 0 <= i < j < |s| :: s[i] != s[j]
  }

  ghost predicate Sound(w: Work, p: Pool)
    requires ValidWork(w)
  {
    && |p.phases| == |w.hosts|
    && Inside(p.phases) + p.free == MAX_CONCURRENT_SCANS
    && (forall h: nat | h < |w.hosts| :: InPlace(w, p, h))
    && p.scanned == |p.finished|
    && Distinct(p.finished)
    && (forall i | 0 <= i < |p.finished| :: p.finished[i] < |w.hosts|)
    && (forall h: nat :: h in p.finished <==> Counted(w, p, h))
    && p.queue == Reports(w, p.finished)
  }

  lemma StartIsSound(w: Work)
    requires ValidWork(w)
    ensures Sound(w, Start(w))
  {
    NobodyInside(Start(w).phases);
  }

  lemma FinishIsSound(w: Work, p: Pool, h: nat)
    requires ValidWork(w) && Sound(w, p) && h < |w.hosts|
    requires p.phases[h].Pinging? || p.phases[h].Probing?
    requires !EndingAt(w, h).Raised?
    ensures Sound(w, Finish(w, p, h))
  {
    var q := Finish(w, p, h);
    CountsAfterUpdate(p.phases, h, Done);
    assert !Counted(w, p, h);
    assert q.finished[..|p.finished|] == p.finished;
    forall k: nat ensures k in q.finished <==> Counted(w, q, k) {
      assert k != h ==> (Counted(w, q, k) <==> Counted(w, p, k));
    }
    forall k: nat | k < |w.hosts| ensures InPlace(w, q, k) {
      assert InPlace(w, p, k);
    }
  }

  /** Any other step only moves one task, and never to a counted end. */
  lemma MoveIsSound(w: Work, p: Pool, h: nat, phase: Phase, free: nat)
    requires ValidWork(w) && Sound(w, p) && h < |w.hosts| && !p.phases[h].Done?
    requires phase.Done? ==> EndingAt(w, h).Raised?
    requires free + Occupies(phase) == p.free + Occupies(p.phases[h])
    requires InPlace(w, p.(phases := p.phases[h := phase]), h)
    ensures Sound(w, p.(phases := p.phases[h := phase], free := free))
  {
    var q := p.(phases := p.phases[h := phase], free := free);
    CountsAfterUpdate(p.phases, h, phase);
    forall k: nat ensures k in q.finished <==> Counted(w, q, k) {
      assert Counted(w, q, k) <==> Counted(w, p, k);
    }
    forall k: nat | k < |w.hosts| ensures InPlace(w, q, k) {
      assert InPlace(w, p, k);
    }
  }

  lemma StepIsSound(w: Work, p: Pool, h: nat)
    requires ValidWork(w) && Sound(w, p) && Enabled(p, h)
    ensures Sound(w, Step(w, p, h))
    ensures Turns(Step(w, p, h).phases) < Turns(p.phases)
  {
    assert InPlace(w, p, h);
    var q := Step(w, p, h);
    CountsAfterUpdate(p.phases, h, q.phases[h]);
    if q.finished != p.finished {
      FinishIsSound(w, p, h);
    } else {
      MoveIsSound(w, p, h, q.phases[h], q.free);
    }
  }

  /** No schedule gets stuck: while a task is not over, some task can run. */
  lemma NeverStuck(w: Work, p: Pool) returns (h: nat)
    requires ValidWork(w) && Sound(w, p)
    requires exists k :: 0 <= k < |p.phases| && !p.phases[k].Done?
    ensures Enabled(p, h)
  {
    if k :| 0 <= k < |p.phases| && (p.phases[k].Pinging? || p.phases[k].Probing?) {
      h := k;
    } else {
      NobodyInside(p.phases);
      h :| 0 <= h < |p.phases| && !p.phases[h].Done?;
    }
  }

  lemma {:induction false} RunIsSound(w: Work, p: Pool, schedule: seq<nat>)
    requires ValidWork(w) && Sound(w, p) && Runs(w, p, schedule)
    ensures Sound(w, After(w, p, schedule))
    ensures Turns(After(w, p, schedule).phases) + |schedule| <= Turns(p.phases)
    decreases |schedule|
  {
    if schedule != [] {
      StepIsSound(w, p, schedule[0]);
      RunIsSound(w, Step(w, p, schedule[0]), schedule[1..]);
    }
  }

  // ---------------------------------------------------------------- what the events say

  /** The `hosts_scanned` of successive progress events grow strictly, between lo + 1 and hi. */
  ghost predicate Rising(events: seq<Event>, total: nat, hi: nat) {
    && (forall i | 0 <= i < |events| :: Within(events[i], total, hi))
    && (forall i, j | 0 <= i < j < |events| :: Before(events[i], events[j]))
  }

  ghost predicate Within(e: Event, total: nat, hi: nat) {
    e.Progress? && e.hostsFound == total && 1 <= e.hostsScanned <= hi
  }

  ghost predicate Before(e: Event, f: Event) {
    e.Progress? && f.Progress? && e.hostsScanned < f.hostsScanned
  }

  lemma {:induction false} ReportsRise(w: Work, finished: seq<nat>)
    requires ValidWork(w) && forall i | 0 <= i < |finished| :: finished[i] < |w.hosts|
    ensures Rising(Reports(w, finished), |w.hosts|, |finished|)
  {
    if finished != [] {
      var n := |finished| - 1;
      ReportsRise(w, finished[..n]);
      assert forall i | 0 <= i < |Reports(w, finished[..n])| :: Within(Reports(w, finished[..n])[i], |w.hosts|, n);
    }
  }

  lemma {:induction false} DistinctFit(s: seq<nat>, n: nat)
    requires Distinct(s) && forall i | 0 <= i < |s| :: s[i] < n
    ensures |s| <= n
    decreases |s|
  {
    if s != [] {
      var last := |s| - 1;
      var m := s[last];
      var t := seq(last, i requires 0 <= i < last => if s[i] == n - 1 then m else s[i]);
      DistinctFit(t, n - 1);
    }
  }

  /** Whatever the schedule: at most 50 inside, rising progress within 1..total, and the end within 3 turns a task. */
  lemma EverySchedule(w: Work, schedule: seq<nat>)
    requires ValidWork(w) && Runs(w, Start(w), schedule)
    ensures var p := After(w, Start(w), schedule);
            && |p.phases| == |w.hosts| && Inside(p.phases) <= 50
            && Rising(p.queue, |w.hosts|, |w.hosts|)
            && (forall h: nat :: h in p.finished <==> Counted(w, p, h))
            && |schedule| <= 3 * |w.hosts|
            && ((forall h: nat :: !Enabled(p, h)) <==> forall h | 0 <= h < |p.phases| :: p.phases[h].Done?)
  {
    StartIsSound(w);
    RunIsSound(w, Start(w), schedule);
    StartCounts(Start(w).phases);
    var p := After(w, Start(w), schedule);
    ReportsRise(w, p.finished);
    DistinctFit(p.finished, |w.hosts|);
    if exists k :: 0 <= k < |p.phases| && !p.phases[k].Done? {
      var h := NeverStuck(w, p);
    }
  }
}
