/**
 The device table of backend/services/scanner.py: what one scan result does to it, what a whole
 scan does, and the health scores recorded beside it. Rows are keyed by their unique IP address.
 */
module Devices {
  import opened Common
  import opened ScanModel

  datatype DeviceStatus = Online | Offline | Unknown

  datatype Device = Device(
    hostname: Option<string>,
    mac: Option<string>,
    status: DeviceStatus,
    osInfo: Option<string>,
    latency: Option<real>,
    ports: Option<seq<Port>>,
    cpu: Option<real>,
    memory: Option<real>,
    lastSeen: Option<nat>)

  type Table = map<string, Device>

  /** A result and the time at which it is written. */
  datatype Finding = Finding(result: ScanResult, at: nat)

  function Lookup(rows: Table, ip: string): Option<Device> {
    if ip in rows then Some(rows[ip]) else None
  }

  /** The row a host that is up is inserted as, or refreshed to. */
  function Refreshed(was: Option<Device>, f: Finding): Device {
    var r := f.result;
    Device(r.hostname, r.mac, Online, r.osInfo, r.latency, r.ports,
           if was.Some? then Or(r.cpu, was.value.cpu) else r.cpu,
           if was.Some? then Or(r.memory, was.value.memory) else r.memory,
           Some(f.at))
  }

  /** What a finding makes of the one row it is about. */
  function CellAfter(was: Option<Device>, f: Finding): Option<Device> {
    match f.result.status
    case Up => Some(Refreshed(was, f))
    case Down => if was.Some? then Some(was.value.(status := Offline)) else None
  }

  /** The new value if there is one, else the old row's if there is one. */
  function Newest(now: Option<real>, was: Option<Option<real>>): Option<real> {
    if now.Some? then now else if was.Some? then was.value else None
  }

  /**
   What a result says about its row, field by field: down changes the status of an existing row and creates none; up
   gives a row seen now, with everything the result knows, and old percentages where it knows none.
   */
  predicate RowSays(was: Option<Device>, f: Finding, after: Option<Device>) {
    var r := f.result;
    match r.status
    case Down => if was.Some? then after == Some(was.value.(status := Offline)) else after.None?
    case Up =>
      && after.Some?
      && after.value.status == Online && after.value.lastSeen == Some(f.at)
      && after.value.hostname == r.hostname && after.value.mac == r.mac && after.value.osInfo == r.osInfo
      && after.value.latency == r.latency && after.value.ports == r.ports
      && after.value.cpu == Newest(r.cpu, if was.Some? then Some(was.value.cpu) else None)
      && after.value.memory == Newest(r.memory, if was.Some? then Some(was.value.memory) else None)
  }

  function Updated(rows: Table, f: Finding): Table {
    match CellAfter(Lookup(rows, f.result.ip), f)
    case Some(row) => rows[f.result.ip := row]
    case None => rows
  }

  function UpdatedAll(rows: Table, findings: seq<Finding>): Table {
    if findings == [] then rows
    else Updated(UpdatedAll(rows, findings[..|findings| - 1]), findings[|findings| - 1])
  }

  ghost predicate DistinctIps(findings: seq<Finding>) {
    forall i, j | 0 <= i < j < |findings| :: findings[i].result.ip != findings[j].result.ip
  }

  // ---------------------------------------------------------------- pointwise

  lemma {:induction false} OthersStay(rows: Table, findings: seq<Finding>, ip: string)
    requires forall i | 0 <= i < |findings| :: findings[i].result.ip != ip
    ensures Lookup(UpdatedAll(rows, findings), ip) == Lookup(rows, ip)
  {
    if findings != [] {
      OthersStay(rows, findings[..|findings| - 1], ip);
    }
  }

  /** Each row depends on its own finding and its own old value only. */
  lemma {:induction false} EachRow(rows: Table, findings: seq<Finding>, k: nat)
    requires DistinctIps(findings) && k < |findings|
    ensures var f := findings[k];
            && Lookup(UpdatedAll(rows, findings), f.result.ip) == CellAfter(Lookup(rows, f.result.ip), f)
            && RowSays(Lookup(rows, f.result.ip), f, Lookup(UpdatedAll(rows, findings), f.result.ip))
  {
    var n := |findings| - 1;
    var f := findings[k];
    if k == n {
      OthersStay(rows, findings[..n], f.result.ip);
    } else {
      EachRow(rows, findings[..n], k);
      assert findings[n].result.ip != f.result.ip;
    }
  }

  /** The findings of one scan may be written in any order. */
  lemma OrderDoesNotMatter(rows: Table, a: seq<Finding>, b: seq<Finding>)
    requires DistinctIps(a) && DistinctIps(b)
    requires forall f :: f in a <==> f in b
    ensures UpdatedAll(rows, a) == UpdatedAll(rows, b)
  {
    var x, y := UpdatedAll(rows, a), UpdatedAll(rows, b);
    forall ip: string ensures Lookup(x, ip) == Lookup(y, ip) {
      if k :| 0 <= k < |a| && a[k].result.ip == ip {
        assert a[k] in b;
        var j :| 0 <= j < |b| && b[j] == a[k];
        EachRow(rows, a, k);
        EachRow(rows, b, j);
      } else {
        forall j | 0 <= j < |b| ensures b[j].result.ip != ip {
          assert b[j] in a;
        }
        OthersStay(rows, a, ip);
        OthersStay(rows, b, ip);
      }
    }
    SameTable(x, y);
  }

  lemma SameTable(x: Table, y: Table)
    requires forall ip: string :: Lookup(x, ip) == Lookup(y, ip)
    ensures x == y
  {
    forall ip: string ensures ip in x <==> ip in y {
      assert Lookup(x, ip) == Lookup(y, ip);
    }
    forall ip | ip in x ensures x[ip] == y[ip] {
      assert Lookup(x, ip) == Lookup(y, ip);
    }
  }

  /** The rows after a scan: exactly the old ones and the hosts that were up. */
  lemma RowsAfterScan(rows: Table, findings: seq<Finding>, ip: string)
    requires DistinctIps(findings)
    ensures ip in UpdatedAll(rows, findings) <==>
      ip in rows || exists i :: 0 <= i < |findings| && findings[i].result.ip == ip && findings[i].result.status.Up?
  {
    if k :| 0 <= k < |findings| && findings[k].result.ip == ip {
      EachRow(rows, findings, k);
    } else {
      OthersStay(rows, findings, ip);
    }
  }

  // ---------------------------------------------------------------- health

  /** The deduction for one percentage; an unknown one costs nothing. */
  function Strain(pct: Option<real>): real {
    if pct.None? then 0.0 else if pct.value > 95.0 then 40.0 else if pct.value > 80.0 then 20.0 else 0.0
  }

  function HealthScore(r: ScanResult): Option<real> {
    if r.status.Up? then Some(100.0 - Strain(r.cpu) - Strain(r.memory)) else None
  }

  /** Known, and above the limit. */
  predicate Above(pct: Option<real>, limit: real) {
    pct.Some? && pct.value > limit
  }

  method ComputeHealthScore(result: ScanResult) returns (score: Option<real>)
    ensures score == HealthScore(result)
    ensures score.None? <==> result.status.Down?
    ensures score.Some? ==> score.value in {100.0, 80.0, 60.0, 40.0, 20.0}
    ensures result.status.Up? && result.cpu.None? && result.memory.None? ==> score == Some(100.0)
    ensures score.Some? ==>
              score.value == 100.0 - (if Above(result.cpu, 80.0) then 20.0 else 0.0)
                                   - (if Above(result.cpu, 95.0) then 20.0 else 0.0)
                                   - (if Above(result.memory, 80.0) then 20.0 else 0.0)
                                   - (if Above(result.memory, 95.0) then 20.0 else 0.0)
  {
    if result.status.Down? {
      return None;
    }
    var total := 100.0;
    var pcts := [result.cpu, result.memory];
    for i := 0 to 2
      invariant total
                == 100.0 - (if i > 0 then Strain(result.cpu) else 0.0) - (if i > 1 then Strain(result.memory) else 0.0)
    {
      var pct := pcts[i];
      if pct.None? {
        continue;
      }
      if pct.value > 95.0 {
        total := total - 40.0;
      } else if pct.value > 80.0 {
        total := total - 20.0;
      }
    }
    return Some(if total < 0.0 then 0.0 else total);
  }

  datatype Snapshot = Snapshot(ip: string, score: real)

  /** The snapshots a scan records: one for every host that is up. */
  function SnapshotOf(r: ScanResult): seq<Snapshot> {
    match HealthScore(r)
    case Some(score) => [Snapshot(r.ip, score)]
    case None => []
  }

  function SnapshotsOf(findings: seq<Finding>): seq<Snapshot> {
    if findings == [] then []
    else
      var r := findings[|findings| - 1].result;
      SnapshotsOf(findings[..|findings| - 1]) + SnapshotOf(r)
  }

  /** Among the first n findings, those of hosts that are up, in order. */
  function UpAmong(findings: seq<Finding>, n: nat): (up: seq<nat>)
    requires n <= |findings|
    ensures forall i | 0 <= i < |up| :: up[i] < n && findings[up[i]].result.status.Up?
  {
    if n == 0 then [] else UpAmong(findings, n - 1) + if findings[n - 1].result.status.Up? then [n - 1] else []
  }

  lemma {:induction false} UpAmongExactly(findings: seq<Finding>, n: nat)
    requires n <= |findings|
    ensures var up := UpAmong(findings, n);
            && (forall i, j | 0 <= i < j < |up| :: up[i] < up[j])
            && (forall i: nat :: i in up <==> i < n && findings[i].result.status.Up?)
  {
    if n > 0 {
      UpAmongExactly(findings, n - 1);
    }
  }

  /** One snapshot for each host that is up, in order, with its own score; none for the others. */
  lemma {:induction false} SnapshotsAre(findings: seq<Finding>, n: nat)
    requires n <= |findings|
    ensures var up, snapshots := UpAmong(findings, n), SnapshotsOf(findings[..n]);
            && |snapshots| == |up|
            && forall i | 0 <= i < |up| ::
                 && snapshots[i].ip == findings[up[i]].result.ip
                 && Some(snapshots[i].score) == HealthScore(findings[up[i]].result)
  {
    if n > 0 {
      SnapshotsAre(findings, n - 1);
      assert findings[..n][..n - 1] == findings[..n - 1];
    }
  }

  // ---------------------------------------------------------------- the database

  /** Where the scan's transaction breaks, if it does. */
  datatype Fault = NoFault | OpenFails | UpsertFails(k: nat) | CommitFails | CloseFails

  /** Whether n results get committed. */
  predicate Commits(fault: Fault, n: nat) {
    fault.NoFault? || fault.CloseFails? || (fault.UpsertFails? && fault.k >= n)
  }

  class DeviceDb {
    var rows: Table
    var history: seq<Snapshot>

    constructor ()
      ensures rows == map[] && history == []
    {
      rows, history := map[], [];
    }

    /** The scan's one transaction: all findings and their snapshots, or, on any failure before the commit, nothing. */
    method RecordScan(findings: seq<Finding>, fault: Fault) returns (committed: bool, raised: bool)
      modifies this
      ensures committed <==> Commits(fault, |findings|)
      ensures committed <==> fault.NoFault? || fault.CloseFails? || (fault.UpsertFails? && fault.k >= |findings|)
      ensures raised <==> !committed || fault.CloseFails?
      ensures rows == if committed then UpdatedAll(old(rows), findings) else old(rows)
      ensures history == old(history) + if committed then SnapshotsOf(findings) else []
    {
      if fault.OpenFails? {
        return false, true;
      }
      var pending, added := rows, [];
      var i := 0;
      while i < |findings|
        invariant 0 <= i <= |findings|
        invariant fault.UpsertFails? ==> i <= fault.k
        invariant pending == UpdatedAll(rows, findings[..i]) && added == SnapshotsOf(findings[..i])
        invariant rows == old(rows) && history == old(history)
      {
        if fault == UpsertFails(i) {
          return false, true;
        }
        var f := findings[i];
        assert findings[..i + 1][..i] == findings[..i];
        pending := UpsertDevice(pending, f);
        if f.result.ip in pending {
          var score := ComputeHealthScore(f.result);
          if score.Some? {
            added := added + [Snapshot(f.result.ip, score.value)];
          }
        }
        i := i + 1;
      }
      assert findings[..i] == findings;
      if fault.CommitFails? {
        return false, true;
      }
      rows, history := pending, history + added;
      return true, fault.CloseFails?;
    }
  }

  /** Hosts that are up: insert, or on conflict update. Hosts that are down: update only. */
  method UpsertDevice(rows: Table, f: Finding) returns (after: Table)
    ensures after == Updated(rows, f)
    ensures RowSays(Lookup(rows, f.result.ip), f, Lookup(after, f.result.ip))
    ensures forall ip: string | ip != f.result.ip :: Lookup(after, ip) == Lookup(rows, ip)
  {
    var r := f.result;
    if r.status.Up? {
      if r.ip !in rows {
        after := rows[r.ip :=
            Device(r.hostname, r.mac, Online, r.osInfo, r.latency, r.ports, r.cpu, r.memory, Some(f.at))];
      } else {
        var row := rows[r.ip];
        after := rows[r.ip := row.(
          hostname := r.hostname, mac := r.mac, status := Online, osInfo := r.osInfo, latency := r.latency,
          ports := r.ports,
          cpu := if r.cpu.Some? then r.cpu else row.cpu,
          memory := if r.memory.Some? then r.memory else row.memory,
          lastSeen := Some(f.at))];
      }
    } else if r.ip in rows {
      after := rows[r.ip := rows[r.ip].(status := Offline)];
    } else {
      after := rows;
    }
  }
}
