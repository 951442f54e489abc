/**
 * The decision core of the connectivity kill switch, as values.
 *
 * A poll of the kill switch reads its arming flag, asks whether a local
 * network link exists, probes one DNS server on port 53 and one website on
 * port 80, and decides, with the two "protected operation" guards, whether to
 * shut the host down. Everything the host environment supplies for one poll
 * (the interface list, the random draws, the probe outcomes) comes in as a
 * PollInputs value, so the decision is a function of the state and the inputs.
 */
module Decision {

  /** The poll interval is drawn from [LowInterval, HighInterval) milliseconds. */
  const LowInterval: int := 5000
  const HighInterval: int := 10000

  /** The ports of the two probes, and the time a single probe may take (ms). */
  const DnsPort: int := 53
  const HttpPort: int := 80
  const ProbeTimeout: int := 3000

  /** The two reasons a shutdown is triggered with. */
  const LocalNetworkUnavailable: string := "Local network unavailable"
  const ConnectivityLost: string := "Connectivity lost: DNS and website unreachable"

  /** The two flags of a network interface that the local-link test reads. */
  datatype InterfaceFlags = InterfaceFlags(isUp: bool, isLoopBack: bool)

  /**
   * What the kill switch leaves behind, in order: each probe it makes (with
   * its outcome), each shutdown it triggers, and each shutdown a guard delayed.
   */
  datatype Event =
    | Probe(host: string, port: int, timeout: int, connected: bool)
    | Shutdown(reason: string)
    | ShutdownDelayed

  /**
   * What the environment supplies to one poll: the interfaces the host
   * reports, the two indices drawn into the DNS and website pools, whether
   * each probe connects, and the next interval drawn for the timer.
   */
  datatype PollInputs = PollInputs(
    interfaces: seq<InterfaceFlags>,
    dnsIndex: int,
    siteIndex: int,
    dnsReachable: bool,
    siteReachable: bool,
    nextInterval: int)

  /** The observable state of the kill switch. */
  datatype Snapshot = Snapshot(
    armed: bool,
    timerActive: bool,
    interval: int,
    fileOperation: bool,
    upgrade: bool,
    events: seq<Event>)

  predicate InIntervalRange(n: int) {
    LowInterval <= n < HighInterval
  }

  /** The random draws lie where a bounded random generator puts them. */
  predicate WellDrawn(inputs: PollInputs, dnsServers: seq<string>, websites: seq<string>) {
    && 0 <= inputs.dnsIndex < |dnsServers|
    && 0 <= inputs.siteIndex < |websites|
    && InIntervalRange(inputs.nextInterval)
  }

  /** The state invariant: the timer runs exactly while armed, and its interval is in range. */
  predicate Inv(s: Snapshot) {
    s.timerActive == s.armed && InIntervalRange(s.interval)
  }

  /** An interface carries a local link when it is up and is not the loopback. */
  predicate IsActiveLink(flags: InterfaceFlags) {
    flags.isUp && !flags.isLoopBack
  }

  /** The local-link predicate: some interface is up and not loopback. */
  predicate HasActiveLink(interfaces: seq<InterfaceFlags>) {
    exists k :: 0 <= k < |interfaces| && IsActiveLink(interfaces[k])
  }

  /** The state right after construction, with the interval already drawn. */
  function Initial(interval: int): (s: Snapshot)
    requires InIntervalRange(interval)
    ensures Inv(s)
    ensures !s.armed && !s.timerActive && s.interval == interval
    ensures !s.fileOperation && !s.upgrade && s.events == []
  {
    Snapshot(false, false, interval, false, false, [])
  }

  /** The toggle button: arm or disarm, starting or stopping the timer with it. */
  function Toggle(s: Snapshot, checked: bool): (r: Snapshot)
    ensures r.armed == checked && r.timerActive == checked
    ensures InIntervalRange(s.interval) ==> Inv(r)
    ensures r.interval == s.interval && r.events == s.events
    ensures r.fileOperation == s.fileOperation && r.upgrade == s.upgrade
  {
    s.(armed := checked, timerActive := checked)
  }

  /**
   * The events that close a probing cycle: a shutdown when both probes
   * failed and no guard is set, a delayed shutdown when both failed and a
   * guard is set, and nothing when either probe connected.
   */
  function Verdict(dnsOk: bool, siteOk: bool, fileOperation: bool, upgrade: bool): (r: seq<Event>)
    ensures r == [Shutdown(ConnectivityLost)] <==> !dnsOk && !siteOk && !fileOperation && !upgrade
    ensures r == [ShutdownDelayed] <==> !dnsOk && !siteOk && (fileOperation || upgrade)
    ensures r == [] <==> dnsOk || siteOk
  {
    if !dnsOk && !siteOk then
      if !fileOperation && !upgrade then [Shutdown(ConnectivityLost)] else [ShutdownDelayed]
    else
      []
  }

  /**
   * One firing of the poll timer. Disarmed, it does nothing. Without a local
   * link it triggers one shutdown and returns before probing and before
   * drawing a new interval. Otherwise it probes the drawn DNS server on port
   * 53 and the drawn website on port 80, closes the cycle with the Verdict,
   * and takes the freshly drawn interval.
   */
  function Poll(s: Snapshot, dnsServers: seq<string>, websites: seq<string>, inputs: PollInputs): (r: Snapshot)
    requires WellDrawn(inputs, dnsServers, websites)
    // a poll never disarms, never stops the timer and never touches a guard
    ensures r.armed == s.armed && r.timerActive == s.timerActive
    ensures r.fileOperation == s.fileOperation && r.upgrade == s.upgrade
    // the log only grows
    ensures |s.events| <= |r.events| && r.events[..|s.events|] == s.events
    // the interval stays in range
    ensures InIntervalRange(s.interval) ==> InIntervalRange(r.interval)
    // disarmed: nothing changes
    ensures !s.armed ==> r == s
    // no local link: exactly one shutdown, no probe, the interval kept
    ensures s.armed && !HasActiveLink(inputs.interfaces) ==>
      r.events[|s.events|..] == [Shutdown(LocalNetworkUnavailable)] && r.interval == s.interval
    // local link: the DNS probe, then the website probe, then the new interval
    ensures s.armed && HasActiveLink(inputs.interfaces) ==>
      && |r.events| >= |s.events| + 2
      && r.events[|s.events|] == Probe(dnsServers[inputs.dnsIndex], DnsPort, ProbeTimeout, inputs.dnsReachable)
      && r.events[|s.events| + 1] == Probe(websites[inputs.siteIndex], HttpPort, ProbeTimeout, inputs.siteReachable)
      && r.interval == inputs.nextInterval
    // local link: the two probes and the cycle's Verdict are all that is appended
    ensures s.armed && HasActiveLink(inputs.interfaces) ==>
      r.events[|s.events|..] ==
        [Probe(dnsServers[inputs.dnsIndex], DnsPort, ProbeTimeout, inputs.dnsReachable),
         Probe(websites[inputs.siteIndex], HttpPort, ProbeTimeout, inputs.siteReachable)]
        + Verdict(inputs.dnsReachable, inputs.siteReachable, s.fileOperation, s.upgrade)
    // every shutdown a poll triggers has one of the two reasons, under its own condition
    ensures forall e | e in r.events[|s.events|..] && e.Shutdown? ::
      || (e == Shutdown(LocalNetworkUnavailable) && s.armed && !HasActiveLink(inputs.interfaces))
      || (&& e == Shutdown(ConnectivityLost) && s.armed && HasActiveLink(inputs.interfaces)
          && !inputs.dnsReachable && !inputs.siteReachable && !s.fileOperation && !s.upgrade)
    // the connectivity-lost shutdown, and the guard veto
    ensures Shutdown(ConnectivityLost) in r.events[|s.events|..] <==>
      && s.armed && HasActiveLink(inputs.interfaces)
      && !inputs.dnsReachable && !inputs.siteReachable
      && !s.fileOperation && !s.upgrade
    ensures ShutdownDelayed in r.events[|s.events|..] <==>
      && s.armed && HasActiveLink(inputs.interfaces)
      && !inputs.dnsReachable && !inputs.siteReachable
      && (s.fileOperation || s.upgrade)
  {
    if !s.armed then
      s
    else if !HasActiveLink(inputs.interfaces) then
      s.(events := s.events + [Shutdown(LocalNetworkUnavailable)])
    else
      var probes := [Probe(dnsServers[inputs.dnsIndex], DnsPort, ProbeTimeout, inputs.dnsReachable),
                     Probe(websites[inputs.siteIndex], HttpPort, ProbeTimeout, inputs.siteReachable)];
      var verdict := Verdict(inputs.dnsReachable, inputs.siteReachable, s.fileOperation, s.upgrade);
      assert (s.events + probes + verdict)[|s.events|..] == probes + verdict;
      s.(events := s.events + probes + verdict, interval := inputs.nextInterval)
  }

  /** Toggling twice with the same value is toggling once: one timer, not two. */
  lemma ToggleIdempotent(s: Snapshot, checked: bool)
    ensures Toggle(Toggle(s, checked), checked) == Toggle(s, checked)
  {
  }
}
