/**
 * Sequences of what can happen to the kill switch: the toggle button, the
 * two guard checkboxes and the poll timer firing. The lemmas state what
 * holds after any such sequence, by induction over it.
 */
module Runs {
  import opened Decision

  datatype Action =
    | ToggleClicked(checked: bool)
    | FileOperationBox(checked: bool)
    | UpgradeBox(checked: bool)
    | TimerFired(inputs: PollInputs)

  /** Every timer firing in `actions` comes with well-drawn random values. */
  predicate Drawable(actions: seq<Action>, dnsServers: seq<string>, websites: seq<string>) {
    forall k :: 0 <= k < |actions| && actions[k].TimerFired? ==> WellDrawn(actions[k].inputs, dnsServers, websites)
  }

  function Step(s: Snapshot, dnsServers: seq<string>, websites: seq<string>, a: Action): (r: Snapshot)
    requires a.TimerFired? ==> WellDrawn(a.inputs, dnsServers, websites)
  {
    match a
    case ToggleClicked(checked) => Toggle(s, checked)
    case FileOperationBox(checked) => s.(fileOperation := checked)
    case UpgradeBox(checked) => s.(upgrade := checked)
    case TimerFired(inputs) => Poll(s, dnsServers, websites, inputs)
  }

  function Run(s: Snapshot, dnsServers: seq<string>, websites: seq<string>, actions: seq<Action>): (r: Snapshot)
    requires Drawable(actions, dnsServers, websites)
    decreases |actions|
  {
    if actions == [] then s
    else Run(Step(s, dnsServers, websites, actions[0]), dnsServers, websites, actions[1..])
  }

  /** Every connectivity-lost shutdown and every delayed shutdown follows a failed DNS probe and a failed website probe. */
  predicate ProbedBeforeVerdict(events: seq<Event>) {
    forall k :: 0 <= k < |events| && (events[k] == Shutdown(ConnectivityLost) || events[k] == ShutdownDelayed) ==>
      && 2 <= k
      && events[k - 2].Probe? && events[k - 2].port == DnsPort && !events[k - 2].connected
      && events[k - 1].Probe? && events[k - 1].port == HttpPort && !events[k - 1].connected
  }

  /** The timer runs exactly while armed, with an interval in range, after any run. */
  lemma {:induction false} RunKeepsInv(s: Snapshot, dnsServers: seq<string>, websites: seq<string>, actions: seq<Action>)
    requires Drawable(actions, dnsServers, websites)
    requires Inv(s)
    ensures Inv(Run(s, dnsServers, websites, actions))
    decreases |actions|
  {
    if actions != [] {
      RunKeepsInv(Step(s, dnsServers, websites, actions[0]), dnsServers, websites, actions[1..]);
    }
  }

  /** A run only appends to the log. */
  lemma {:induction false} RunExtendsLog(s: Snapshot, dnsServers: seq<string>, websites: seq<string>, actions: seq<Action>)
    requires Drawable(actions, dnsServers, websites)
    ensures var r := Run(s, dnsServers, websites, actions);
      |s.events| <= |r.events| && r.events[..|s.events|] == s.events
    decreases |actions|
  {
    if actions != [] {
      var m := Step(s, dnsServers, websites, actions[0]);
      RunExtendsLog(m, dnsServers, websites, actions[1..]);
      var r := Run(m, dnsServers, websites, actions[1..]);
      assert r.events[..|s.events|] == r.events[..|m.events|][..|s.events|];
    }
  }

  /**
   * While the switch stays disarmed (it starts disarmed and nobody arms it)
   * nothing is probed, nothing is shut down and the interval is not redrawn,
   * however often the timer fires.
   */
  lemma {:induction false} DisarmedRunIsSilent(s: Snapshot, dnsServers: seq<string>, websites: seq<string>, actions: seq<Action>)
    requires Drawable(actions, dnsServers, websites)
    requires !s.armed
    requires forall k :: 0 <= k < |actions| ==> actions[k] != ToggleClicked(true)
    ensures var r := Run(s, dnsServers, websites, actions);
      !r.armed && r.events == s.events && r.interval == s.interval
    decreases |actions|
  {
    if actions != [] {
      DisarmedRunIsSilent(Step(s, dnsServers, websites, actions[0]), dnsServers, websites, actions[1..]);
    }
  }

  /**
   * While a guard box stays ticked (file operation or upgrade), no run
   * triggers a connectivity-lost shutdown, whatever the probes report.
   */
  lemma {:induction false} HeldGuardVetoes(s: Snapshot, dnsServers: seq<string>, websites: seq<string>, actions: seq<Action>)
    requires Drawable(actions, dnsServers, websites)
    requires || (s.fileOperation && forall k :: 0 <= k < |actions| ==> actions[k] != FileOperationBox(false))
             || (s.upgrade && forall k :: 0 <= k < |actions| ==> actions[k] != UpgradeBox(false))
    ensures var r := Run(s, dnsServers, websites, actions);
      |s.events| <= |r.events| && Shutdown(ConnectivityLost) !in r.events[|s.events|..]
    decreases |actions|
  {
    if actions != [] {
      var m := Step(s, dnsServers, websites, actions[0]);
      assert |s.events| <= |m.events| && Shutdown(ConnectivityLost) !in m.events[|s.events|..];
      HeldGuardVetoes(m, dnsServers, websites, actions[1..]);
      RunExtendsLog(m, dnsServers, websites, actions[1..]);
      var r := Run(m, dnsServers, websites, actions[1..]);
      assert r.events[|s.events|..] == m.events[|s.events|..] + r.events[|m.events|..];
    }
  }

  /** A poll keeps the log's verdicts preceded by their two failed probes. */
  lemma PollKeepsProbedBeforeVerdict(s: Snapshot, dnsServers: seq<string>, websites: seq<string>, inputs: PollInputs)
    requires WellDrawn(inputs, dnsServers, websites)
    requires ProbedBeforeVerdict(s.events)
    ensures ProbedBeforeVerdict(Poll(s, dnsServers, websites, inputs).events)
  {
    var r := Poll(s, dnsServers, websites, inputs);
    var n := |s.events|;
    forall k | 0 <= k < |r.events| && (r.events[k] == Shutdown(ConnectivityLost) || r.events[k] == ShutdownDelayed)
      ensures 2 <= k
      ensures r.events[k - 2].Probe? && r.events[k - 2].port == DnsPort && !r.events[k - 2].connected
      ensures r.events[k - 1].Probe? && r.events[k - 1].port == HttpPort && !r.events[k - 1].connected
    {
      if k < n {
        assert r.events[k] == s.events[k];
        assert r.events[k - 2] == s.events[k - 2] && r.events[k - 1] == s.events[k - 1];
      } else {
        assert r.events[k] in r.events[n..];
        assert s.armed && HasActiveLink(inputs.interfaces);
      }
    }
  }

  /** Any run keeps every verdict in the log preceded by its two failed probes. */
  lemma {:induction false} RunKeepsProbedBeforeVerdict(s: Snapshot, dnsServers: seq<string>, websites: seq<string>, actions: seq<Action>)
    requires Drawable(actions, dnsServers, websites)
    requires ProbedBeforeVerdict(s.events)
    ensures ProbedBeforeVerdict(Run(s, dnsServers, websites, actions).events)
    decreases |actions|
  {
    if actions != [] {
      var m := Step(s, dnsServers, websites, actions[0]);
      if actions[0].TimerFired? {
        PollKeepsProbedBeforeVerdict(s, dnsServers, websites, actions[0].inputs);
      }
      RunKeepsProbedBeforeVerdict(m, dnsServers, websites, actions[1..]);
    }
  }

  /**
   * A guard vetoes only the cycle it is set for: a cycle that loses
   * connectivity while one guard box is ticked is delayed, and once that box
   * is cleared the next such cycle shuts the host down, the switch still armed.
   */
  lemma GuardVetoIsPerCycle(s: Snapshot, dnsServers: seq<string>, websites: seq<string>, first: PollInputs, second: PollInputs)
    requires s.armed && s.fileOperation != s.upgrade
    requires WellDrawn(first, dnsServers, websites) && WellDrawn(second, dnsServers, websites)
    requires HasActiveLink(first.interfaces) && !first.dnsReachable && !first.siteReachable
    requires HasActiveLink(second.interfaces) && !second.dnsReachable && !second.siteReachable
    ensures var m := Poll(s, dnsServers, websites, first);
            var cleared := if s.fileOperation then m.(fileOperation := false) else m.(upgrade := false);
            var r := Poll(cleared, dnsServers, websites, second);
      && m.armed && m.timerActive == s.timerActive
      && ShutdownDelayed in m.events[|s.events|..]
      && Shutdown(ConnectivityLost) !in m.events[|s.events|..]
      && Shutdown(ConnectivityLost) in r.events[|m.events|..]
  {
  }

  /**
   * Arming a freshly built switch and then losing both probes with the local
   * link up and no guard set: the log is exactly the DNS probe, the website
   * probe and one connectivity-lost shutdown, and the timer keeps running at
   * the newly drawn interval.
   */
  lemma ArmThenLoseConnectivity(interval: int, dnsServers: seq<string>, websites: seq<string>, inputs: PollInputs)
    requires InIntervalRange(interval)
    requires WellDrawn(inputs, dnsServers, websites)
    requires HasActiveLink(inputs.interfaces) && !inputs.dnsReachable && !inputs.siteReachable
    ensures var r := Run(Initial(interval), dnsServers, websites, [ToggleClicked(true), TimerFired(inputs)]);
      && r.events == [Probe(dnsServers[inputs.dnsIndex], DnsPort, ProbeTimeout, false),
                      Probe(websites[inputs.siteIndex], HttpPort, ProbeTimeout, false),
                      Shutdown(ConnectivityLost)]
      && r.armed && r.timerActive && r.interval == inputs.nextInterval
  {
    var s0 := Initial(interval);
    var actions := [ToggleClicked(true), TimerFired(inputs)];
    var armed := Toggle(s0, true);
    var polled := Poll(armed, dnsServers, websites, inputs);
    assert actions[1..] == [TimerFired(inputs)] && actions[1..][1..] == [];
    assert Run(armed, dnsServers, websites, [TimerFired(inputs)]) == Run(polled, dnsServers, websites, []);
    assert Run(s0, dnsServers, websites, actions) == Run(armed, dnsServers, websites, actions[1..]);
  }
}
