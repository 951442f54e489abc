# Linux kill switch: the monitoring and decision core

This project models the decision core of a Qt desktop "kill switch" (class
`KillSwitchWindow` in `main.cpp`). Once the user arms it with the toggle
button, a timer fires every 5 to 10 seconds. Each firing checks for a local
network link. Without one, it shuts the host down at once. With one, it probes
a randomly chosen DNS server on port 53 and a randomly chosen website on port
80. It shuts the host down only when both probes fail and neither of the two
guard boxes ("file operation in progress", "system upgrade in progress") is
ticked. It then draws a new interval for the timer.

The model has three modules:

- `Decision` (decision.dfy) holds the values. `Snapshot` is the observable
  state: armed flag, timer running, timer interval, the two guards, and an
  event log. `PollInputs` is everything the environment supplies to one poll:
  the interface flags, the two random pool indices, the two probe outcomes and
  the next random interval. `Toggle`, `Verdict` and `Poll` are the
  specification functions.
- `Window` (window.dfy) holds the class `KillSwitchWindow`. Its fields are
  updated in place. Each slot is proved against the matching `Decision`
  function, and the class invariant is `Valid()`: the timer runs exactly while
  armed, and its interval is in [5000, 10000).
- `Runs` (runs.dfy) treats any sequence of user and timer actions. Its lemmas
  are proved by induction over the sequence.

The environment comes in as parameters:

- the interface list, as `(isUp, isLoopBack)` pairs;
- the two random indices, with `0 <= i < |pool|` required (`WellDrawn`);
- the two probe outcomes;
- the next interval, with `5000 <= n < 10000` required.

The event log stands in for three things: the `checkHost` calls (each records
its host, port, timeout and outcome), `triggerShutdown` (records its reason),
and the "Shutdown delayed" debug line.

Behaviour of the code that the model keeps:

- A shutdown does not disarm the switch or stop the timer. On the probe path
  the interval is redrawn after a shutdown too.
- On the no-local-link path the code returns early. It draws no new interval
  and does not consult the guards, so a ticked guard does not delay that
  shutdown.
- The probe pools are fixed, non-empty lists, and the code never checks them
  for emptiness. The model's `WellDrawn` precondition carries the index bounds.
- Interface enumeration has no failure path in the code: it returns a list,
  possibly empty. An empty list yields "no local link".

## Model

| member | source | states |
|---|---|---|
| `Decision.Initial` | main.cpp:30-35 | The constructed window is disarmed with the timer stopped, no guard ticked and an empty log. Its interval is already drawn, so the state invariant holds. |
| `Window.KillSwitchWindow.constructor` | main.cpp:103-108 | The new object's state is `Initial(interval)` for an interval drawn in [5000, 10000), and `Valid()` holds: the timer is set up but not started. |
| `Decision.Toggle` | main.cpp:130-139 | After a toggle to `b`, the switch is armed iff `b` and the timer runs iff `b`. The interval, the guards and the log are kept, and the state invariant is restored whenever the interval is in range. |
| `Window.KillSwitchWindow.ToggleKillSwitch` | main.cpp:130-139 | The slot sets `killSwitchEnabled` to `b` and starts or stops the timer with it. The new state is `Toggle(old state, b)`, and `Valid()` is preserved. |
| `Decision.ToggleIdempotent` | main.cpp:130-139 | Toggling twice with the same value gives the same state as toggling once: one running timer, not two. |
| `Window.KillSwitchWindow.LocalNetworkAvailable` | main.cpp:118-126 | The early-exit scan returns true iff some interface is up and not loopback, so an empty interface list gives false. |
| `Decision.Verdict` | main.cpp:160-166 | The cycle ends with a connectivity-lost shutdown iff both probes failed and neither guard is set. It ends with a "delayed" event iff both failed and a guard is set, and with nothing iff either probe connected. |
| `Decision.Poll` | main.cpp:142-171 | Disarmed, a poll changes nothing. Without a local link it appends exactly one "Local network unavailable" shutdown and keeps the interval. Otherwise it appends exactly the probe of the drawn DNS server on port 53, the probe of the drawn website on port 80 and the cycle's `Verdict`, and takes the new interval. Every shutdown it appends has one of the two reasons, under that reason's own condition, so a connecting probe or a set guard means no shutdown and a failing unguarded cycle means exactly one. A "Connectivity lost" shutdown is emitted iff armed, linked, both probes failed and no guard is set. A poll never disarms, stops the timer or touches a guard, and the log only grows. |
| `Window.KillSwitchWindow.PerformConnectivityCheck` | main.cpp:142-171 | The timer slot's new state is `Poll(old state, dnsServers, websites, inputs)`, and `Valid()` is preserved. The pool lookups stay in bounds because the drawn indices lie in [0, size). |
| `Window.KillSwitchWindow.CheckHost` | main.cpp:111-115 | A probe returns the connection outcome it is given and appends one probe event with the host, the port and the 3000 ms timeout. |
| `Window.KillSwitchWindow.TriggerShutdown` | main.cpp:174-178 | Appends exactly one shutdown event with the given reason and changes nothing else. |
| `Window.KillSwitchWindow.SetFileOperationChecked` | main.cpp:66 | Ticking or clearing the file-operation box sets that guard and nothing else, and `Valid()` is preserved. |
| `Window.KillSwitchWindow.SetUpgradeChecked` | main.cpp:67 | Ticking or clearing the upgrade box sets that guard and nothing else, and `Valid()` is preserved. |
| `Runs.RunKeepsInv` | main.cpp:130-170 | After any sequence of toggles, box changes and timer firings, the timer runs exactly while armed and the interval stays in [5000, 10000). |
| `Runs.RunExtendsLog` | main.cpp:174-178 | Any run only appends to the event log: the old log is a prefix of the new one. |
| `Runs.DisarmedRunIsSilent` | main.cpp:143-144 | Starting disarmed, and with no action that arms the switch, any number of timer firings adds no event and leaves the interval unchanged. |
| `Runs.HeldGuardVetoes` | main.cpp:160-166 | While either guard box stays ticked, no run emits a "Connectivity lost" shutdown, whatever the probes report. |
| `Runs.PollKeepsProbedBeforeVerdict` | main.cpp:153-166 | A poll keeps the log property that every connectivity-lost or delayed shutdown directly follows a failed port-53 probe and a failed port-80 probe. |
| `Runs.RunKeepsProbedBeforeVerdict` | main.cpp:153-166 | Every run keeps that log property. |
| `Runs.GuardVetoIsPerCycle` | main.cpp:160-170 | Either guard suppresses the shutdown only for its own cycle. With one box ticked, a failing cycle is delayed and leaves the switch armed and the timer as it was. Once that box is cleared, the next failing cycle shuts down. |
| `Runs.ArmThenLoseConnectivity` | main.cpp:130-171 | Arming a fresh switch and then failing both probes with a local link and no guard logs exactly the DNS probe, the website probe and one "Connectivity lost" shutdown. The switch stays armed with the new interval. |

## Left out

- Window, button text, checkbox and tray-icon construction and behaviour (`setupUI`, `setupTrayIcon`, `trayIconActivated`, `closeEvent`): widget plumbing with no decision logic. The two checkboxes appear only as the guard setters.
- Privilege elevation through `geteuid`/`pkexec` and the program's `main`: process I/O.
- The real shutdown command (`shutdown -h now` started detached): `TriggerShutdown` only records the reason in the event log.
- The TCP connection attempt inside `checkHost`: network I/O. The outcome of each probe is an input boolean.
- Interface enumeration through the operating system: the interface list is an input sequence of flag pairs.
- The random generator: the drawn indices and intervals are inputs constrained to their ranges. Their uniform distribution is not modelled.
- Real timer firing and event-loop timing: the timer is a running flag plus an interval, and a firing is a call of `PerformConnectivityCheck`. The model lets the timer fire even when it is stopped, which only strengthens the "disarmed does nothing" property.
