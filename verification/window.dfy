/**
 * The kill switch window's monitoring state and its slots, as a class whose
 * methods update the fields in place. Each state-changing method is proved
 * against the matching function of module Decision; the widgets, the tray
 * icon and the real timer, sockets and shutdown command are not modelled.
 */
module Window {
  import opened Decision

  class KillSwitchWindow {
    /** The two probe pools. */
    const dnsServers: seq<string> := ["8.8.8.8", "1.1.1.1", "208.67.222.222"]
    const websites: seq<string> := ["www.google.com", "www.amazon.com", "www.wikipedia.org"]

    var killSwitchEnabled: bool
    /** The poll timer: whether it is running, and its interval in milliseconds. */
    var timerActive: bool
    var timerInterval: int
    /** The two guard checkboxes. */
    var fileOperationChecked: bool
    var upgradeChecked: bool
    /** Probes made, shutdowns triggered and shutdowns delayed, in order. */
    var events: seq<Event>

    function State(): Snapshot
      reads this
    {
      Snapshot(killSwitchEnabled, timerActive, timerInterval, fileOperationChecked, upgradeChecked, events)
    }

    /**
     * The invariant every method preserves: the timer runs exactly while
     * armed, with an interval in range. No method needs it, since each one
     * pins its whole new state through State().
     */
    ghost predicate Valid()
      reads this
    {
      Inv(State())
    }

    /** Disarmed, with the timer set up (interval drawn) but not started. */
    constructor (initialInterval: int)
      requires InIntervalRange(initialInterval)
      ensures Valid()
      ensures State() == Initial(initialInterval)
    {
      killSwitchEnabled := false;
      fileOperationChecked, upgradeChecked := false, false;
      events := [];
      timerActive := false;
      timerInterval := initialInterval;
    }

    /** The user ticks or clears the "file operation in progress" box. */
    method SetFileOperationChecked(checked: bool)
      modifies this
      ensures State() == old(State()).(fileOperation := checked)
      ensures old(Valid()) ==> Valid()
    {
      fileOperationChecked := checked;
    }

    /** The user ticks or clears the "system upgrade in progress" box. */
    method SetUpgradeChecked(checked: bool)
      modifies this
      ensures State() == old(State()).(upgrade := checked)
      ensures old(Valid()) ==> Valid()
    {
      upgradeChecked := checked;
    }

    /**
     * Scans the interfaces and stops at the first one that is up and not
     * loopback; an empty list therefore gives false.
     */
    static method LocalNetworkAvailable(interfaces: seq<InterfaceFlags>) returns (available: bool)
      ensures available <==> HasActiveLink(interfaces)
    {
      for k := 0 to |interfaces|
        invariant forall j :: 0 <= j < k ==> !IsActiveLink(interfaces[j])
      {
        if interfaces[k].isUp && !interfaces[k].isLoopBack {
          return true;
        }
      }
      return false;
    }

    /** One probe of `host` on `port`; `reachable` is what the connection attempt reports. */
    method CheckHost(host: string, port: int, reachable: bool) returns (connected: bool)
      modifies this
      ensures connected == reachable
      ensures State() == old(State()).(events := old(events) + [Probe(host, port, ProbeTimeout, connected)])
    {
      connected := reachable;
      events := events + [Probe(host, port, ProbeTimeout, connected)];
    }

    /** Records the shutdown and its reason; the real command is not modelled. */
    method TriggerShutdown(reason: string)
      modifies this
      ensures State() == old(State()).(events := old(events) + [Shutdown(reason)])
    {
      events := events + [Shutdown(reason)];
    }

    /** The toggle button's slot: arm or disarm, and start or stop the timer. */
    method ToggleKillSwitch(checked: bool)
      modifies this
      ensures State() == Toggle(old(State()), checked)
      ensures killSwitchEnabled == checked && timerActive == checked
      ensures old(Valid()) ==> Valid()
    {
      killSwitchEnabled := checked;
      if killSwitchEnabled {
        timerActive := true;
      } else {
        timerActive := false;
      }
    }

    /** The poll timer's slot. */
    method PerformConnectivityCheck(inputs: PollInputs)
      requires WellDrawn(inputs, dnsServers, websites)
      modifies this
      ensures State() == Poll(old(State()), dnsServers, websites, inputs)
      ensures old(Valid()) ==> Valid()
    {
      if !killSwitchEnabled {
        return;
      }

      var linkUp := LocalNetworkAvailable(inputs.interfaces);
      if !linkUp {
        TriggerShutdown(LocalNetworkUnavailable);
        return;
      }

      var dns := dnsServers[inputs.dnsIndex];
      var site := websites[inputs.siteIndex];

      var dnsOk := CheckHost(dns, DnsPort, inputs.dnsReachable);
      var siteOk := CheckHost(site, HttpPort, inputs.siteReachable);

      if !dnsOk && !siteOk {
        if !fileOperationChecked && !upgradeChecked {
          TriggerShutdown(ConnectivityLost);
        } else {
          events := events + [ShutdownDelayed];
        }
      }

      timerInterval := inputs.nextInterval;
    }
  }
}
