/**
 Values of the scan path of backend/services/scanner.py: what nmap and psutil answer, the result
 kept for a host, and the events of a scan job.
 */
module ScanModel {
  import opened Common

  datatype Liveness = Up | Down

  datatype Port = Port(number: nat, service: string)

  datatype ScanResult = ScanResult(
    ip: string,
    hostname: Option<string>,
    status: Liveness,
    mac: Option<string>,
    osInfo: Option<string>,
    latency: Option<real>,
    ports: Option<seq<Port>>,
    cpu: Option<real>,
    memory: Option<real>)

  /** The `-sn` call: no usable nmap, a failing scan, or its answer for the host. */
  datatype Ping =
    | PingUnavailable
    | PingFails
    | NotListed
    | Listed(status: Liveness, hostname: Option<string>, mac: Option<string>)

  /** The `-O -F` call, made for hosts that are up. */
  datatype Probe = ProbeUnavailable | ProbeFails | Probed(osInfo: Option<string>, ports: Option<seq<Port>>)

  datatype Reply = Reply(ping: Ping, latency: real, probe: Probe)

  /** What local introspection reads, as far as it gets; None is a value it did not obtain. */
  datatype Local = Local(cpu: Option<real>, memory: Option<real>, hostname: Option<string>, mac: Option<string>)

  /** How the task of one host ends: with an exception, with None, or with a result. */
  datatype Ending = Raised | Nothing | Gives(result: ScanResult)

  datatype Event =
    | Progress(hostsFound: nat, hostsScanned: nat, currentHost: string)
    | Complete(totalHosts: nat, online: nat, offline: nat)
    | Error(message: string)

  predicate Terminal(e: Event) {
    !e.Progress?
  }

  function ParsePing(host: string, ping: Ping): ScanResult
    requires ping.NotListed? || ping.Listed?
  {
    if ping.Listed?
    then ScanResult(host, ping.hostname, ping.status, ping.mac, None, None, None, None, None)
    else ScanResult(host, None, Down, None, None, None, None, None, None)
  }

  /** Up hosts are probed, and only they. */
  predicate NeedsProbe(reply: Reply) {
    reply.ping.Listed? && reply.ping.status.Up?
  }

  function EndingOf(host: string, reply: Reply): Ending {
    if reply.ping.PingUnavailable? then Raised
    else if reply.ping.PingFails? then Nothing
    else
      var result := ParsePing(host, reply.ping);
      if !NeedsProbe(reply) then Gives(result)
      else if reply.probe.ProbeUnavailable? then Raised
      else
        var timed := result.(latency := Some(reply.latency));
        if reply.probe.ProbeFails? then Gives(timed)
        else Gives(timed.(osInfo := reply.probe.osInfo, ports := reply.probe.ports))
  }

  /** nmap lists the host as up, and could be called for the probe. */
  predicate IsOnline(reply: Reply) {
    reply.ping.Listed? && reply.ping.status.Up? && !reply.probe.ProbeUnavailable?
  }

  /** nmap does not list the host, or lists it as down. */
  predicate IsOffline(reply: Reply) {
    reply.ping.NotListed? || (reply.ping.Listed? && reply.ping.status.Down?)
  }

  /**
   What a reply means. A host that is not listed is down and nothing is known of it; a listed one keeps its status,
   hostname and MAC; one that is up and was probed has the latency, and what the probe found if it found anything.
   There is no result exactly for a ping that could not be made or failed, and a probe that could not be made.
   */
  lemma EndingMeans(host: string, reply: Reply)
    ensures var ending := EndingOf(host, reply);
            && (ending.Gives? <==> IsOnline(reply) || IsOffline(reply))
            && (ending.Nothing? <==> reply.ping.PingFails?)
            && (ending.Raised? <==>
                  || reply.ping.PingUnavailable?
                  || (reply.ping.Listed? && reply.ping.status.Up? && reply.probe.ProbeUnavailable?))
            && (ending.Gives? ==>
                  var r, probed := ending.result, IsOnline(reply) && reply.probe.Probed?;
                  && r.ip == host && r.cpu.None? && r.memory.None?
                  && r.status == (if IsOnline(reply) then Up else Down)
                  && r.hostname == (if reply.ping.Listed? then reply.ping.hostname else None)
                  && r.mac == (if reply.ping.Listed? then reply.ping.mac else None)
                  && r.latency == (if IsOnline(reply) then Some(reply.latency) else None)
                  && r.osInfo == (if probed then reply.probe.osInfo else None)
                  && r.ports == (if probed then reply.probe.ports else None))
  {
  }

  function Or<T>(first: Option<T>, second: Option<T>): Option<T> {
    if first.Some? then first else second
  }

  /** Local introspection sets cpu and memory, and fills hostname and MAC only where nmap found none. */
  function Enriched(r: ScanResult, local: map<string, Local>): ScanResult {
    if r.ip !in local then r
    else
      var l := local[r.ip];
      r.(cpu := Or(l.cpu, r.cpu), memory := Or(l.memory, r.memory), hostname := Or(r.hostname, l.hostname),
          mac := Or(r.mac, l.mac))
  }
}
