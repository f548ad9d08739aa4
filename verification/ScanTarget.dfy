/**
 From an accepted subnet to the scan of it: what the validator of backend/schemas/scan.py lets through is what the
 scanner's tasks, events and table updates are about.
 */
module ScanTarget {
  import opened Subnet
  import opened SubnetText
  import opened ScanModel
  import opened HostScan
  import opened ScanJobs
  import opened Devices

  function AcceptedNetwork(text: string, other: string -> Parsed): Network
    requires ValidateText(text, other).Ok?
  {
    ValidatePrivateSubnet(ParseNetwork(text, other)).value
  }

  lemma HostsAreAddresses(text: string, other: string -> Parsed)
    requires ValidateText(text, other).Ok?
    ensures var hosts := Hosts(AcceptedNetwork(text, other));
            forall i | 0 <= i < |hosts| :: 0 <= hosts[i] < ADDRESSES && Private(hosts[i])
  {
    HostsOfAccepted(ParseNetwork(text, other));
    var hosts := Hosts(AcceptedNetwork(text, other));
    forall i | 0 <= i < |hosts| ensures 0 <= hosts[i] < ADDRESSES && Private(hosts[i]) {
      assert Private(hosts[i]);
    }
  }

  /** `[str(ip) for ip in network.hosts()]` for the normalised text the job was created with. */
  function ScannedHosts(text: string, other: string -> Parsed): seq<string>
    requires ValidateText(text, other).Ok?
  {
    var hosts := Hosts(AcceptedNetwork(text, other));
    HostsAreAddresses(text, other);
    seq(|hosts|, i requires 0 <= i < |hosts| => PrintAddress(hosts[i]))
  }

  /** The scanner parses the normalised text again and finds the network that was accepted. */
  lemma NormalisedNetwork(text: string, other: string -> Parsed)
    requires ValidateText(text, other).Ok?
    ensures var subnet := ValidateText(text, other).value;
            ValidateText(subnet, other).Ok? && AcceptedNetwork(subnet, other) == AcceptedNetwork(text, other)
  {
    NetworkRoundTrip(AcceptedNetwork(text, other), other);
    ValidationIsStable(ParseNetwork(text, other));
  }

  predicate Targets(w: Work, text: string, other: string -> Parsed) {
    ValidWork(w) && ValidateText(text, other).Ok? && w.hosts == ScannedHosts(text, other)
  }

  /** The name of a private address. */
  ghost predicate NamesPrivate(name: string) {
    exists a: Address :: Private(a) && name == PrintAddress(a)
  }

  lemma NamesDiffer(w: Work, text: string, other: string -> Parsed, g: nat, h: nat)
    requires Targets(w, text, other) && g < h < |w.hosts|
    ensures w.hosts[g] != w.hosts[h]
  {
    HostNamesDiffer(ParseNetwork(text, other), g, h);
  }

  lemma TargetIsPrivate(w: Work, text: string, other: string -> Parsed, h: nat)
    requires Targets(w, text, other) && h < |w.hosts|
    ensures NamesPrivate(w.hosts[h])
  {
    var hosts := Hosts(AcceptedNetwork(text, other));
    HostsAreAddresses(text, other);
    assert Private(hosts[h]) && w.hosts[h] == PrintAddress(hosts[h]);
  }

  /** A scan of an accepted subnet has 1 to 1022 hosts, all private and all different. */
  lemma AcceptedTarget(w: Work, text: string, other: string -> Parsed)
    requires Targets(w, text, other)
    ensures 1 <= |w.hosts| <= 1022 && DistinctHosts(w)
    ensures forall h | 0 <= h < |w.hosts| :: NamesPrivate(w.hosts[h])
  {
    HostsOfAccepted(ParseNetwork(text, other));
    forall g, h | 0 <= g < h < |w.hosts| ensures w.hosts[g] != w.hosts[h] {
      NamesDiffer(w, text, other, g, h);
    }
    forall h | 0 <= h < |w.hosts| ensures NamesPrivate(w.hosts[h]) {
      TargetIsPrivate(w, text, other, h);
    }
  }

  /** Its tasks are over after at most 3066 turns, never more than 50 at once, and no count shown exceeds 1022. */
  lemma AcceptedScanEnds(w: Work, text: string, other: string -> Parsed, schedule: seq<nat>)
    requires Targets(w, text, other) && Runs(w, Start(w), schedule)
    ensures |schedule| <= 3 * 1022
    ensures Inside(After(w, Start(w), schedule).phases) <= 50
    ensures Rising(After(w, Start(w), schedule).queue, |w.hosts|, 1022)
  {
    AcceptedTarget(w, text, other);
    EverySchedule(w, schedule);
  }

  /** A committed scan of it touches only rows of its private hosts, each as nmap's answer for that host says. */
  lemma AcceptedScanTable(w: Work, text: string, other: string -> Parsed, local: map<string, Local>, clock: nat -> nat,
                          rows: Table, ip: string)
    requires Targets(w, text, other)
    ensures var was, after := Lookup(rows, ip), Lookup(UpdatedAll(rows, FindingsOf(ScanResults(w, local), clock)), ip);
            after != was ==>
              && NamesPrivate(ip)
              && exists h: nat ::
                   && AnsweredFor(w, h, ip)
                   && ReplySays(was, w.replies[h], LocalOf(local, ip), clock(|Survivors(w, h)|), after)
  {
    AcceptedTarget(w, text, other);
    TableAfterScan(w, local, clock, rows, ip);
    var after := Lookup(UpdatedAll(rows, FindingsOf(ScanResults(w, local), clock)), ip);
    if after != Lookup(rows, ip) {
      var h: nat :| AnsweredFor(w, h, ip);
      assert NamesPrivate(w.hosts[h]);
    }
  }
}
