# Verified model of Capcom, StageZero and FlightDirector

This project models the parts of the system that have to be right for a robot's software to come up,
run and go down in order, and proves properties of them.

- **Subsystems.** Every subsystem is driven by a coroutine per state. `subsystem_model.dfy` gives one
  step of one subsystem as functions of its fields and of what it reads of its neighbours;
  `subsystem.dfy` is the object whose methods change fields and write into the neighbours' message
  pipes, proved against those functions; `network.dfy` puts all subsystems together, with their
  queues, StageZero's events in any order, clients, and connections and processes that come, go and
  crash. What every command, report and event does in every state is stated without those functions
  in `conversations.dfy`, `client_commands.dfy`, `entries.dfy`, `crash_outcomes.dfy`,
  `restart_laws.dfy`, `lost_connections.dfy`, `stray_events.dfy` and `broken_commands.dfy`.
  On top are the start and stop cascades from any system at rest (`configs.dfy`,
  `start_cascade.dfy`, `stop_cascade.dfy`, `cascade_measure.dfy`), whole sessions of any number of
  clients (`sessions.dfy`), dependency safety (`command_steps.dfy`, `owed_events.dfy`,
  `dependency_safety.dfy`), what Online says of the processes (`live_processes.dfy`,
  `online_alive.dfy`), the restart after a crash (`lone_restart.dfy`), how it spreads to parents and
  back (`restart_steps.dfy`, `struck_steps.dfy`, `follower_steps.dfy`, `restart_links.dfy`,
  `restart_spread.dfy`, `spread_runs.dfy`, `two_parents.dfy`), the single control token with
  agreement and restart budgets (`control_token.dfy`, `control_runs.dfy`) and reference counts.
  `failing_runs.dfy` and `online_dead.dfy` have the runs from a fresh system that end badly.
- **The objects in a run.** `subsystem_network.dfy` wires up subsystem objects along the dependency
  graph and plays any run on them, each step by the methods of the object concerned;
  `object_runs.dfy` says what the theorems about runs then mean for the objects' own fields.
- **Parameters.** `parameter_server.dfy` is the tree of nodes on the heap with parent pointers and
  the empty entries that failed lookups leave; `parameter_trees.dfy` is what it means,
  `parameter_laws.dfy` and `parameter_rebuild.dfy` what follows. `replication.dfy` is Capcom's copy
  and the one on every StageZero, with updates, broadcasts and reconnections interleaved in any way.
- **Dependency graph.** `flight_graph.dfy`: the loop check, the post-order list and registration.
- **Foundations.** 64-bit word sets of client ids, umbilicals, the symbol table's bytes and the
  expansion of variable references.

A step is one handler call, since handlers do not yield between reading a message and staying or
leaving; the restart wait and the sleep after a failed launch are states of their own. Entering a
state changes the oper state at once, and the entry actions are a separate, later step. What
StageZero, the network, clocks and clients do is nondeterministic, as are the orders of hash maps.

## What the proofs show about the code

- A dependency that two clients shared may stay up for good: a stop leaves nothing over exactly when
  nobody but its client holds what is needed no longer (`StopExactly`, `SessionTight`), and two starts
  and two stops are enough for a leftover (`SharedLeftOver`). What is needed is never taken away, as
  long as each client asks for one subsystem at a time (`NeededIsOnline`, `OwnDependencyLost`).
- An abort delivered in the restart wait leaves two state coroutines; nothing else does
  (`OneCoroutineExactly`), and a start, a crash and an abort lead there (`TwoCoroutinesReachable`).
- A start event for a process that has given its connection back makes it run unconnected; nothing
  else does (`AttachedExactly`). The Offline entry then leaves it running (`OfflineReleasesAll`), and
  launched processes alone lead there (`OfflineWithProcessReachable`). The counts are exact even so.
- After one crash with a restart left, the subsystem, all above it that restart with it, and all below
  them come back Online exactly when the crashed process shares its compute with no other, if each
  restarting subsystem has one parent at most (`SpreadEnds`, `RestartEnds`). With two, one above the
  other, a start can overtake a stop, and a dead process is taken to run (`StopOvertaken`).
- When the crashed process shares its compute, it alone has given back its reference, asking again puts
  the umbilical the others hold back to connecting, nobody connects it, and the subsystem waits in
  Connecting (`SharedCrashStrands`, `SharedCrashReachable`), and all that depend on it wait with it.
- In runs of start and stop commands Online means that all processes are alive (`OnlineMeansAlive`). In
  general a flag lies exactly after a stop event taken where it is ignored, or a start event of a process
  that has died since (`HonestExactly`): two crashes and a start lead to Online with a dead process
  (`OnlineWithDeadReachable`).
- A connection lost during a restart of processes is not made again, because they hold it still
  (`LossStrands`).
- A failed lookup makes every node above the missing one unreadable, since a null pointer is followed
  (`FailedLookupPoisons`), and hides a leaf above it from flattening (`LookupHidesLeaf`).
- A map with an empty map inside does not survive being set and read (`SetMapThenGet`). A map key with
  a slash, or an empty one that is not last, or what a failed lookup left below a node, does not
  survive an upload (`RebuildExactly`).
- A second request for a connected main umbilical silences updates to that StageZero
  (`AskingAgainSilences`, `SilencedReachable`); which StageZeros get them is `ConnectedExactly` and
  `PropagateUpdate`.
- A decoded symbol table exports nothing, whatever the flags of its symbols (`CopyExportsNothing`).
- In Broken and Degraded a command acts on the client the state was entered for, not on its sender
  (`CommandActsOnOwner`, `WrongClientStopped`), and a restart there sends the children a stop
  (`RestartStopsChildren`), because the admin part of that message is unset.

## Model

| member | source | states |
|---|---|---|
| StartCascade.StartEnds | capcom/state_machine.cc:439-610 | a client (id below 64) starts r in a system at rest, whatever any number of other clients have up: every run is at most as long as the measure of its first state, and a run that cannot go on is at rest again, with the client added exactly to what its start comes to, what was up still up, and no message, event or launch left (no lost wake-up, diamonds included) |
| StartCascade.StartStep | capcom/state_machine.cc:236-253 | each step of such a run lowers the measure over queued messages, events owed and states ahead, and keeps the invariant that a waiting parent will still hear of each child |
| StartCascade.NobodyWaits | capcom/state_machine.cc:581-608 | when nothing can run, every subsystem is Offline or serves Online: none is stuck waiting for a report of a child, shared ones included |
| StartCascade.StuckIsStarted | capcom/state_machine.cc:581-608 | a state of the start cascade with nothing left to do is the configuration at rest that the start leads to |
| StopCascade.StopEnds | capcom/state_machine.cc:1175-1356 | a client stops r in a system at rest, whatever any number of clients have up: every run is finite, with the measure as bound, and a run that cannot go on has exactly those subsystems up that some client still holds, and every other one down in both states, with no client, no process running or connected, and no message, event, launch or stop left |
| StopCascade.StopStep | capcom/state_machine.cc:1026-1173 | each step of the stop cascade lowers its measure and keeps its invariant |
| StopCascade.StuckIsDown | capcom/state_machine.cc:1320-1356 | nobody is left waiting in StoppingChildren for the report of a shared child, and what is held by nobody is down with no process running or connected |
| Sessions.OrderCarriedOut | capcom/state_machine.cc:925-949 | one start or stop by any of several clients, whatever the interleaving of its steps, takes one configuration at rest to the next |
| Sessions.SessionCarriedOut | capcom/state_machine.cc:925-949 | over a whole session of orders by any clients the system goes through the configurations of the session, with the reference counts exact |
| Sessions.NeededIsOnline | capcom/state_machine.cc:919-935 | in such a session, with each client asking for one subsystem at a time, whatever some client has asked for and not stopped, and all it depends on, is Online with all processes running at the end of every order, whoever else has stopped what |
| Sessions.StartThenStop | capcom/state_machine.cc:925-949 | a client alone: start, settle, stop, settle; first exactly the root and its dependencies are up, then everything is down, with every umbilical closed and its count zero |
| Sessions.OthersStay | capcom/state_machine.cc:919-935 | what another client holds, and all it depends on, stays up when a client stops anything |
| Sessions.StopExactly | capcom/state_machine.cc:1320-1356 | when exactly what is needed was up before a stop, exactly what is needed is up after it if and only if nobody but the stopping client holds what is needed no longer |
| Sessions.SessionTight | capcom/state_machine.cc:1320-1356 | over whole sessions: exactly what is needed is up all along if and only if that holds of every stop |
| Sessions.SharedLeftOver | capcom/state_machine.cc:919-949 | two clients start two subsystems with a shared child and stop them in turn, and the child stays up for the first of them, who asks for nothing any more |
| Sessions.OwnDependencyLost | capcom/state_machine.cc:919-949 | a client that has started a subsystem and then one it depends on loses both when it stops the first |
| CascadeMeasure.CoroutineLowers | capcom/subsystem.cc:256-270 | a coroutine step lowers the system's measure even though its reports and commands raise the cost of parents and children |
| DependencySafety.ChildrenServeAlways | capcom/state_machine.cc:581-608 | in every state of every run of start and stop commands by any clients from a fresh system, with launches that succeed and neither crashes nor lost connections, a subsystem that is admin Online and Connecting, StartingProcesses or Online has every direct child oper Online |
| DependencySafety.StepKeepsInv | capcom/state_machine.cc:613-619 | every step of any subsystem, its neighbours included, keeps the invariant behind it, among it that an Online subsystem has a client and that StageZero owes starts and stops only where they are awaited |
| CommandSteps.MessageConsiderate | capcom/state_machine.cc:927-949 | for a message in any state: an Online subsystem leaves Online only when no parent is admin Online, and one that comes to rely on its children finds all of them Online |
| OwedEvents.TidyEvent | capcom/state_machine.cc:1046-1115 | in such runs a stop is only ever reported in StoppingProcesses, and a lost connection never |
| OwedEvents.EventTidy | capcom/state_machine.cc:641-731 | an event keeps it that every start on its way comes once for a process that does not run and every stop once for one that does, and changes no other flag than that of its process |
| OwedEvents.EntryTidy | capcom/subsystem.cc:344-359 | entry actions launch or stop exactly what makes that true of the next state, and change no running flag |
| OnlineAlive.OnlineMeansAlive | capcom/state_machine.cc:797-811 | in every state of every such run all processes of an Online subsystem are alive on their StageZeros, and none of one that is Offline, StartingChildren, Connecting or StoppingChildren |
| OnlineAlive.AccurateAlways | capcom/state_machine.cc:641-731 | at any moment of such a run a process is alive exactly when it is flagged as running with no stop on its way, or its start is on its way |
| LiveProcesses.StopLeavesFlag | capcom/state_machine.cc:481-490 | for any event handler: a stop event leaves its process flagged as running exactly in Offline, StartingChildren, Connecting, StoppingChildren, Broken and Degraded, and where it would be a crash that is not acted on |
| LiveProcesses.StepHonest | capcom/state_machine.cc:481-490 | any step of any system keeps it that a process flagged as running is alive or its stop is on its way, exactly unless it takes the last stop event of a dead process where it is ignored, or a start event of a process that has died and whose stop was taken |
| LiveProcesses.HonestExactly | capcom/state_machine.cc:481-490 | the same over whole runs with any crashes, lost connections, restarts and aborts |
| OnlineDead.OnlineWithDeadReachable | capcom/state_machine.cc:2052-2066 | a run from a fresh system to a subsystem that is Online with nothing on its way and a dead process flagged as running |
| LoneRestart.RestartEnds | capcom/state_machine.cc:1712-1731 | one crash of a subsystem without parents and children, with a restart left: every run of the restart is at most as long as the measure of its first state, and one that cannot go on is Online with all processes running and connected if and only if the crashed process shares its compute with no other, else stranded in Connecting |
| LoneRestart.StepAdvances | capcom/state_machine.cc:1732-1796 | each step of such a restart goes on to a later stage or has less on its way, and keeps what its stage says of flags, references, connections and events owed |
| LoneRestart.RestartCanEnd | capcom/state_machine.cc:1712-1731 | from every state of a restart there is a run to one that cannot go on |
| LoneRestart.SharedCrashStrands | capcom/umbilical.cc:5-10 | when the crashed process shares its compute, there is a run to Connecting with nothing running, not all connected, and nothing and nobody left to change it |
| FailingRuns.SharedCrashReachable | capcom/subsystem.cc:34-50 | a run from a fresh system to such a crash |
| LoneRestart.LossRead | stagezero/client/client.h:75-91 | a loss read in RestartingProcesses takes the sockets from the umbilical's client, which no longer counts as connected, and changes nothing else of processes and connectors |
| LoneRestart.LossStrands | capcom/state_machine.cc:302-318 | entering Connecting with a lost connection that all processes hold asks nobody to connect and waits |
| ControlRuns.OneCoroutineExactly | capcom/state_machine.cc:29-47 | for any mix of commands, crashes, lost connections, restarts and aborts: every subsystem has exactly one state coroutine, matching its oper state, and the next step keeps that if and only if it does not deliver an effective abort to a subsystem in its restart wait |
| ControlRuns.AbortedWaitSplits | capcom/state_machine.cc:1465-1465 | the failing case: an aborted restart wait leaves two coroutines, one entering Offline, one entering Restarting |
| FailingRuns.TwoCoroutinesReachable | capcom/state_machine.cc:1441-1486 | a run from a fresh system, start, crash and abort, that leads to a subsystem with two coroutines |
| ControlToken.MessageControlled | capcom/state_machine.cc:154-2166 | handling any message in any state keeps one matching coroutine, agreement and budgets exactly unless it aborts the restart wait |
| ControlToken.EventControlled | capcom/state_machine.cc:1488-1684 | handling any StageZero event in any state keeps one matching coroutine, agreement and budgets |
| ControlToken.EntryControlled | capcom/state_machine.cc:154-2036 | the entry actions of every state enter a new state or go on serving, exactly once |
| ControlRuns.OfflineMeansBoth | capcom/subsystem.h:335-338 | oper Offline, StoppingProcesses or StoppingChildren implies admin Offline, so waiting for IsOffline is waiting for oper Offline |
| ControlRuns.WithinBudgetAlways | capcom/state_machine.cc:1654-1684 | restart counts of subsystems and processes stay between zero and their maximum in every state of every such run |
| ControlRuns.ChargesBounded | capcom/state_machine.cc:1686-1697 | between two resets a subsystem is charged for at most max_restarts restarts |
| ControlRuns.ProcChargesBounded | capcom/state_machine.cc:1488-1684 | between two resets a process is charged for at most its own max_restarts restarts |
| ControlRuns.DelayDoubles | capcom/state_machine.cc:1363-1366 | after n charged restarts the subsystem's restart delay is the smaller of 2^n and 32 seconds |
| ControlRuns.ProcDelayDoubles | capcom/state_machine.cc:1488-1684 | after n charged restarts of a process its restart delay is the smaller of 2^n and 32 seconds |
| ReferenceCounts.ReferencesAlwaysExact | capcom/subsystem.cc:596-611 | in every state of every run that starts with exact counts, each umbilical's dynamic count is the number of processes of that compute that hold it, and an umbilical nobody holds is closed |
| ReferenceCounts.OfflineReleasesAll | capcom/subsystem.cc:604-611 | after the entry actions of Offline no process holds a connection, all counts are zero and all umbilicals closed, and a process runs if and only if it ran before without holding a connection |
| ReferenceCounts.EventAccounted | capcom/subsystem.cc:128-137 | no StageZero event breaks the counts, a lost connection or a stray start event included |
| ReferenceCounts.StepAttached | capcom/state_machine.cc:1889-1964 | a step of the system keeps it that only processes holding a connection run, exactly unless it takes a start event for a process that holds none |
| ReferenceCounts.AttachedExactly | capcom/state_machine.cc:1889-1964 | over whole runs: until such a start event is taken only processes holding a connection run, and the next step ends that exactly when it takes one |
| FailingRuns.StrayReachable | capcom/state_machine.cc:1889-1964 | a run from a fresh system in which launched processes, started twice, crashed and disconnected, are reported started again and run without a connection |
| FailingRuns.OfflineWithProcessReachable | capcom/subsystem.cc:604-611 | a run from a fresh system after whose Offline entry a process still runs |
| SubsystemNetwork.AddSubsystem | capcom/client_handler.cc:402-418 | a new subsystem object, linked with its children both ways and then run, extends objects that represent a system to objects that represent the larger one |
| SubsystemNetwork.SeesView | capcom/state_machine.cc:595-604 | what an object reads of its parents and children is what the system's step is given of them |
| SubsystemNetwork.TakeStep | capcom/state_machine.cc:49-115 | when one object runs a coroutine, all objects together, fields and pipes, go where the system's step goes |
| SubsystemNetwork.Play | capcom/state_machine.cc:49-115 | a whole run, with everything StageZero, connections and clients do, played on the objects leaves them representing the last state of that run |
| ObjectRuns.ObjectsCountExactly | capcom/subsystem.cc:596-611 | after any run the umbilicals of every object count exactly its own processes that hold them |
| ObjectRuns.ObjectsHaveOneCoroutine | capcom/state_machine.cc:29-47 | after a run that aborts no restart wait every object has one coroutine, matching its oper state, and its counters are within their bounds |
| ObjectRuns.ObjectsFindChildrenOnline | capcom/state_machine.cc:581-608 | after a run of commands every object that is admin Online and Connecting, StartingProcesses or Online finds the objects it has as children Online |
| ObjectRuns.ObjectsOnlineAlive | capcom/state_machine.cc:797-811 | after a run of commands all processes of an Online object are alive, and none of an Offline one |
| ObjectRuns.ObjectsStarted | capcom/state_machine.cc:439-610 | a start that has run its course left every object to exactly the clients of the configuration it leads to: Online with all processes running, or Offline with none, and every pipe empty |
| ObjectRuns.ObjectsStopped | capcom/state_machine.cc:1026-1356 | a stop that has run its course did the same |
| ObjectRuns.ObjectsRestarted | capcom/state_machine.cc:1712-1862 | so did a restart that spread, unless the crashed process shares its compute |
| Subsystems.Subsystem.EnterState | capcom/state_machine.cc:29-47 | the oper state changes at once and one coroutine for it is scheduled; nothing else of the subsystem or its surroundings changes |
| Subsystems.Subsystem.NotifyParents | capcom/subsystem.cc:256-270 | every parent's pipe gets exactly one report of the current state at its end, every child's pipe stays as it is |
| Subsystems.Subsystem.SendToChildren | capcom/subsystem.cc:300-315 | every child's pipe gets exactly one command at its end, every parent's pipe stays as it is |
| Subsystems.Subsystem.HandleAdminCommand | capcom/state_machine.cc:117-152 | the sender is a client afterwards if it starts and its bit fits the words, and none if it stops; everybody else is a client exactly as before, and a command without a client changes nobody; the client set decides the next state, and parents are told when that is the present one |
| ClientCommands.CommandMembers | capcom/state_machine.cc:117-152 | over one loop turn in any state but Broken and Degraded: who is a client after a command, and in which states it is heeded at all |
| ClientCommands.OthersKeepOnline | capcom/state_machine.cc:925-949 | an Online subsystem that another client wants stays Online when one client stops it, in both states, keeps that other client and says so to its parents |
| ClientCommands.LastClientStops | capcom/state_machine.cc:925-949 | it goes down exactly when no parent is admin Online and nobody but the stopping client is left |
| Subsystems.Subsystem.ConnectProcess | capcom/subsystem.cc:596-602 | a process takes its reference once; whoever finds the umbilical closed starts the connection |
| Subsystems.Subsystem.DisconnectProcess | capcom/subsystem.cc:604-611 | a process gives its reference back once and is no longer running; its umbilical loses one reference and is closed when none is left, and no other changes |
| Subsystems.Subsystem.ConnectUmbilical | capcom/subsystem.cc:34-50 | the umbilical gets one more reference and goes to connecting, and only a closed one starts a connector |
| Subsystems.Subsystem.StopProcesses | capcom/subsystem.cc:344-359 | the loop over the processes is the model's fold: running ones are asked to stop, others disconnected |
| Subsystems.Subsystem.StopProcess | capcom/subsystem.cc:688-696 | a running process has its restart count reset and is asked to stop |
| Subsystems.Subsystem.StopForRestart | capcom/subsystem.cc:367-396 | an empty list restarts all processes; otherwise exactly the listed ones that run are asked to stop, and nothing else of any process changes |
| Subsystems.Subsystem.DisconnectProcessesForCompute | capcom/subsystem.cc:128-137 | every process on the lost compute holds its connection no longer and, if it did, does not run; every process on another compute, and every other umbilical, stays as it was |
| LostConnections.LossOnline | capcom/state_machine.cc:826-836 | a loss in Online drops exactly the processes on its compute, gives up that umbilical when the counts were exact, leaves the other processes running and enters Restarting |
| LostConnections.LossStopping | capcom/state_machine.cc:1046-1115 | the same while processes are stopped, which ends when no other runs |
| LostConnections.LossElsewhere | stagezero/client/client.h:75-91 | in any other state a loss changes no process and no umbilical but for the sockets of its own |
| StrayEvents.LossIsStray | capcom/state_machine.cc:226-296 | there a loss is taken as an event that is no business of the state, once the sockets are closed |
| Subsystems.Subsystem.LaunchProcesses | capcom/subsystem.cc:327-342 | exactly the processes reached that do not run are launched |
| Subsystems.Subsystem.AllProcessesRunning | capcom/subsystem.h:425-437 | true exactly when every process runs |
| Subsystems.Subsystem.AllProcessesStopped | capcom/subsystem.h:439-449 | true exactly when no process runs |
| Subsystems.Subsystem.AllProcessesConnected | capcom/subsystem.h:451-458 | true exactly when every process's umbilical is connected and its client still has its sockets |
| Subsystems.Subsystem.ParentsOffline | capcom/state_machine.cc:919-935 | true exactly when no parent is admin Online |
| Subsystems.Subsystem.ChildrenOnline | capcom/state_machine.cc:595-604 | true exactly when every child is oper Online |
| Subsystems.Subsystem.ChildrenReleased | capcom/state_machine.cc:1325-1345 | true exactly when every child is admin Online or has dropped all clients that asked to stop |
| Subsystems.Subsystem.Abort | capcom/state_machine.cc:1699-1710 | a critical subsystem ignores a plain abort, any other loses its clients and running flags and enters Offline in both states |
| CrashOutcomes.AbortOutcome | capcom/state_machine.cc:1699-1710 | over one loop turn in any serving state: exactly an Offline subsystem ignores every abort and a critical one those that are no emergency; all others end Offline with no client and nothing flagged as running |
| Subsystems.Subsystem.RestartNow | capcom/state_machine.cc:1358-1361 | every child's pipe gets exactly one command, a start for the given client, and the subsystem starts over |
| RestartLaws.RootStartsOver | capcom/state_machine.cc:1732-1796 | when the last process of a restarting subsystem without parents stops, it enters StartingChildren and sends its children one start; so does RootStartsOverAtOnce on entry |
| RestartLaws.LastStopReported | capcom/state_machine.cc:1732-1796 | with a parent it reports that instead and goes on waiting |
| RestartLaws.MessageInRestarting | capcom/state_machine.cc:1797-1862 | a start from a parent makes a restarting subsystem start over whatever still runs; other commands and reports are met as a stop event is |
| RestartLaws.ProcessesRestarted | capcom/state_machine.cc:975-981 | a restart of processes asks exactly the listed ones that run to stop, or every running one when none is listed |
| SpreadRuns.SpreadEnds | capcom/state_machine.cc:1712-1862 | a process crashes in a system at rest, with a restart left and one parent at most for each subsystem up to the top: the restart spreads to the top and back down, every run of it is at most as long as two measures of its first state, and one that cannot go on has all that was up Online again and nothing else, if and only if the crashed process shares its compute with no other; otherwise its subsystem is stranded in Connecting and all above it wait for their child |
| SpreadRuns.ReachedIsBack | capcom/state_machine.cc:581-608 | so all that any of the restarted subsystems depends on is Online with all processes running, shared children included |
| SpreadRuns.GoodStep | capcom/state_machine.cc:1712-1862 | every step of the restart, of any subsystem, lowers the measure and keeps the invariant of the way down or of the way up |
| SpreadRuns.NobodyWaits | capcom/state_machine.cc:581-608 | nobody is stuck waiting for a child that is Online: the command to it, its answer or the note of it is there |
| SpreadRuns.NobodyRests | capcom/state_machine.cc:1797-1862 | nobody is left waiting for its parent's start, which comes exactly once |
| StruckSteps.StruckSinks | capcom/state_machine.cc:1712-1796 | what each step of the crashed subsystem does on its way down: it tells nobody anything until nothing runs, then its parents, or starts over when it has none |
| StruckSteps.StruckRises | capcom/state_machine.cc:439-811 | what each step of it does on its way up, for any messages of children and parents |
| FollowerSteps.FollowerSinks | capcom/state_machine.cc:955-963 | the same for a subsystem that follows its child's report, which keeps all its connections |
| FollowerSteps.FollowerRises | capcom/state_machine.cc:439-811 | and for its way up |
| TwoParents.StopOvertaken | capcom/state_machine.cc:1797-1862 | with two parents, one above the other, a restart can lead from every such crash to a subsystem whose process is dead but flagged as running, with no stop of it requested or on its way, because a parent's start overtakes the stop |
| Subsystems.Subsystem.ChargeRestart | capcom/state_machine.cc:1363-1366 | one restart is counted and the delay doubled up to 32 |
| Subsystems.Subsystem.RestartIfPossibleAfterProcessCrash | capcom/state_machine.cc:1488-1684 | the state afterwards: Broken exactly with policy Automatic and the budget of the subsystem used up, Degraded exactly with policy Manual, or when the process restarts alone and its own budget is used up, else the same; nothing at all changes for a critical subsystem, in an abort, or for an unknown process |
| CrashOutcomes.CrashOutcome | capcom/state_machine.cc:1521-1684 | over one loop turn in Online, StartingProcesses and, for a process that had come up again, RestartingProcesses: the four outcomes of a stop event, each with the whole new state |
| CrashOutcomes.CrashLeadsTo | capcom/state_machine.cc:1521-1684 | which of Broken, Degraded and the same state it is, exactly, with clients and admin state kept |
| CrashOutcomes.FailedLaunch | capcom/state_machine.cc:1686-1697 | a launch that fails is charged to the budget, or leads to Broken when that is used up |
| CrashOutcomes.ReportFollowed | capcom/state_machine.cc:959-968 | a child's Restarting is followed in Offline and Online, its Broken in StartingChildren and Online, and no other report in Online |
| StrayEvents.StopIgnored | capcom/state_machine.cc:1488-1520 | the stops that are no crash change nothing |
| Subsystems.Subsystem.OfflineEntry | capcom/state_machine.cc:154-166 | reports, resets the counts and disconnects every process |
| Subsystems.Subsystem.OfflineMessage | capcom/state_machine.cc:226-296 | only a command to start with a client leaves; children are commanded before the subsystem starts its own |
| Subsystems.Subsystem.StartingChildrenEntry | capcom/state_machine.cc:439-457 | without children the wait is skipped |
| Subsystems.Subsystem.StartingChildrenMessage | capcom/state_machine.cc:515-580 | commands are passed on, a stop clears the admin state, and children that are up are remembered |
| Subsystems.Subsystem.StartingChildrenCheck | capcom/state_machine.cc:581-608 | leaves only when every child was heard of and, to go on, every child is Online |
| Subsystems.Subsystem.ConnectingEntry | capcom/state_machine.cc:302-318 | every process connects; the state is skipped when all are connected |
| Subsystems.Subsystem.ConnectingMessage | capcom/state_machine.cc:379-437 | a stop goes to StoppingProcesses and clears the admin state, anything else leads on when all are connected |
| Subsystems.Subsystem.StartingProcessesEntry | capcom/state_machine.cc:612-633 | skipped when stopping or without processes; a failed launch is charged to the restart budget |
| Subsystems.Subsystem.StartingProcessesMessage | capcom/state_machine.cc:732-795 | a command is passed on and may turn the state around; all processes running leads on |
| Subsystems.Subsystem.StartingProcessesEvent | capcom/state_machine.cc:641-731 | a start marks the process, a stop is a crash unless Capcom is aborting |
| Subsystems.Subsystem.OnlineMessage | capcom/state_machine.cc:915-1024 | a stop counts only when no parent is Online; Restarting and Broken of a child are followed |
| Subsystems.Subsystem.OnlineEvent | capcom/state_machine.cc:812-914 | a lost connection restarts the subsystem, a stopped process is a crash |
| Subsystems.Subsystem.StoppingProcessesEntry | capcom/state_machine.cc:1026-1045 | with all processes stopped the children are told at once, otherwise every process is stopped |
| Subsystems.Subsystem.StoppingProcessesMessage | capcom/state_machine.cc:1116-1173 | a start may turn the state around, but children are told to stop either way |
| Subsystems.Subsystem.StoppingChildrenEntry | capcom/state_machine.cc:1175-1195 | without children the wait is skipped |
| Subsystems.Subsystem.StoppingChildrenMessage | capcom/state_machine.cc:1256-1319 | clients that ask to stop are collected, those that start again are taken out, children heard of are remembered |
| Subsystems.Subsystem.StoppingChildrenCheck | capcom/state_machine.cc:1320-1356 | leaves when every child was heard of and has dropped the stopping clients, or at once to start again |
| Subsystems.Subsystem.RestartingEntry | capcom/state_machine.cc:1712-1731 | processes are stopped; a root restarts at once when they are |
| Subsystems.Subsystem.RestartingMessage | capcom/state_machine.cc:1797-1862 | a start from the parents restarts, a stop is answered by a report |
| Subsystems.Subsystem.RestartingProcessesEntry | capcom/state_machine.cc:1864-1882 | a root goes on when the listed processes are stopped |
| Subsystems.Subsystem.RestartingProcessesMessage | capcom/state_machine.cc:1965-2025 | a start leads on, otherwise the listed processes must have stopped |
| Subsystems.Subsystem.RestartingProcessesEvent | capcom/state_machine.cc:1889-1964 | a stop of a process that had come up again is a crash, any other stop is awaited |
| Subsystems.Subsystem.BrokenMessage | capcom/state_machine.cc:2087-2166 | commands reset the counts and act on the client the state was entered for |
| BrokenCommands.CommandActsOnOwner | capcom/state_machine.cc:2098-2121 | whoever sends a start or stop there, exactly the client the state was entered for is set, when its bit fits the words, or cleared, and every other client keeps its membership |
| BrokenCommands.SenderServedExactly | capcom/state_machine.cc:2098-2121 | the sender gets what it asked for exactly when it had it already or the state was entered for it |
| BrokenCommands.StartedForNobody | capcom/state_machine.cc:2098-2121 | a start there begins to start for no client at all exactly when there was none and the bit does not fit |
| BrokenCommands.RestartStopsChildren | capcom/state_machine.cc:2098-2121 | a restart there starts the subsystem over and sends its children exactly one command, a stop |
| BrokenCommands.BrokenHears | capcom/state_machine.cc:2087-2166 | every command there: which state it leads to, that all restart counts are zero again, who is a client, and what the children are told |
| BrokenCommands.WrongClientStopped | capcom/state_machine.cc:2098-2121 | two clients want the subsystem, the second stops it, and the first is the one taken out |
| Subsystems.Subsystem.WaitMessage | capcom/state_machine.cc:1441-1486 | in the restart wait a start ends the wait and an effective abort enters two states |
| Subsystems.Subsystem.ServeMessage | capcom/state_machine.cc:49-115 | one loop turn of a coroutine: the first message leaves the pipe, the fields become those of the model's step, and every neighbour's pipe has grown by exactly what the step sent |
| Subsystems.Subsystem.ServeEvent | capcom/state_machine.cc:49-115 | one loop turn with a StageZero event, with the same account of fields and pipes; reading a lost connection closes the client's sockets |
| Subsystems.Subsystem.RunState | capcom/state_machine.cc:154-181 | a scheduled coroutine performs the entry actions of its state, with the same account of fields and pipes |
| Subsystems.Subsystem.ServeTimeout | capcom/state_machine.cc:1363-1366 | a restart delay that is over enters Restarting |
| Conversations.OfflineHears | capcom/state_machine.cc:226-296 | a command in Offline leaves exactly if it starts and gives a client, telling the children first; otherwise the parents hear that it stays |
| Conversations.StartingChildrenHears | capcom/state_machine.cc:515-608 | a command in StartingChildren: passed on, turned around when nobody is left, and where it leads once all children were heard of |
| Conversations.StartingChildrenIsTold | capcom/state_machine.cc:537-608 | a report there: which one counts for its child, and when the wait is over |
| Conversations.ConnectingHears | capcom/state_machine.cc:379-437 | a stop in Connecting leads to StoppingProcesses whoever is left; a start leads on exactly when all processes are connected, telling the children once more |
| Conversations.StartingProcessesHears | capcom/state_machine.cc:732-795 | a command in StartingProcesses is passed on, turns around when nobody is left, and leads on when all processes run |
| Conversations.OnlineHears | capcom/state_machine.cc:915-949 | a command in Online is ignored exactly if it is a stop and some parent is admin Online; otherwise it leaves exactly when no client is left, and is answered when it stays |
| Conversations.StoppingProcessesHears | capcom/state_machine.cc:1116-1173 | a command in StoppingProcesses turns it back when a client is left, and the children are told to stop either way |
| Conversations.StoppingChildrenHears | capcom/state_machine.cc:1256-1356 | a command in StoppingChildren: whom it waits for afterwards, and when and for which state it leaves |
| Conversations.StoppingChildrenIsTold | capcom/state_machine.cc:1284-1356 | a report there: Online and Offline count for the child, and when the wait is over |
| Entries.ConnectingEntered | capcom/state_machine.cc:302-318 | on entering Connecting every process takes its connection, exactly the closed umbilicals asked for get a connector, and the state is left at once exactly when all are connected |
| Entries.AllLaunched | capcom/state_machine.cc:612-631 | on entering StartingProcesses exactly the processes that do not run are launched |
| Entries.StoppingProcessesEntered | capcom/state_machine.cc:1026-1045 | on entering StoppingProcesses exactly the running processes are asked to stop, the others give their connections back |
| RestartLaws.OfflineResets | capcom/state_machine.cc:154-166 | on entering Offline no process holds its connection, none runs that held it, and all restart counts are zero |
| ParameterNames.ParseParameterName | common/parameters.cc:5-27 | the index loop computes exactly the split of the name at runs of slashes, leading ones dropped |
| ParameterNames.ParseExactly | common/parameters.cc:5-27 | a name parses to a path exactly when it spells it: the components in order, any number of slashes first and at least one between them, none in a component and only the last empty |
| ParameterNames.ParseCanonical | common/parameters.cc:5-27 | for every name: at least one component, none with a slash, only the last may be empty |
| ParameterNames.FullNameRoundTrip | common/parameters.h:252-260 | a path is what its full name parses to exactly when it is canonical |
| ParameterNames.ParseIdempotent | common/parameters.cc:5-27 | joining the components of any name and parsing again gives the same components |
| ParameterServers.ParameterServer.SetParameter | common/parameters.cc:75-121 | the heap tree afterwards stands for the closed form of setting: prefixes made, a scalar overwrites and drops what was below, a map is merged |
| ParameterServers.ParameterServer.ExpandMap | common/parameters.cc:211-226 | the recursion over a map stores exactly its scalars below the node, makes the nodes for its maps and removes nothing |
| ParameterServers.ParameterServer.GetParameter | common/parameters.cc:123-144 | the answer is the value or assembled map, not found, or a null dereference exactly when an empty entry lies strictly below; a failed lookup leaves one empty entry, at the first missing node |
| ParameterServers.ParameterServer.FindParameter | common/parameters.cc:29-43 | the node of the path or null, and the empty entry left behind |
| ParameterServers.ParameterServer.HasParameter | common/parameters.cc:146-162 | true exactly when the path has a node, and the same empty entry left behind |
| ParameterServers.ParameterServer.MakeMap | common/parameters.cc:199-210 | the map of a node is the map of its children's values, and fails exactly when an empty entry lies below |
| ParameterServers.ParameterServer.DeleteParameter | common/parameters.cc:164-197 | outcome and tree are those of the closed form: deleted with all extensions, missing, or a null entry dereferenced on the way |
| ParameterServers.ParameterServer.GetFullName | common/parameters.h:252-260 | the climb over the parent pointers names the path of the descent |
| ParameterServers.ParameterServer.Flatten | common/parameters.cc:258-270 | every leaf below the node once, with its full name and value, appended to the list |
| ParameterServers.ParameterServer.GetAllParameters | common/parameters.cc:60-73 | every leaf of the tree once, with its full name and value |
| ParameterServers.ParameterServer.Clear | common/parameters.h:296-296 | the empty tree |
| ParameterServers.ParameterServer.EntryNode | common/parameters.cc:81-86 | indexing an entry gives its node, a new one with its parent pointer when there is none |
| ParameterLaws.SetThenGet | common/parameters.cc:75-121 | a scalar that was set is what a lookup finds |
| ParameterLaws.SetThenGetElsewhere | common/parameters.cc:75-121 | setting anything changes no answer at prefix-incomparable paths |
| ParameterLaws.SetMapThenGet | common/parameters.cc:211-226 | a map set at a fresh path is what a lookup finds exactly when no map in it, at any depth, is empty |
| ParameterLaws.DeleteExact | common/parameters.cc:164-197 | without empty entries deletion succeeds exactly when the path is there, and removes exactly it and its extensions |
| ParameterLaws.DeleteThenGetElsewhere | common/parameters.cc:164-197 | deleting changes no answer at prefix-incomparable paths |
| ParameterLaws.SetThenDelete | common/parameters.cc:164-197 | deleting undoes setting exactly when the path was new, had no empty entry and its parent was there |
| ParameterLaws.SetKeeps | common/parameters.cc:75-121 | setting keeps the tree prefix-closed and makes no empty entry |
| ParameterLaws.AtValueAt | common/parameters.cc:199-210 | following names in the assembled map is the same as descending the tree |
| ParameterLaws.FailedLookupPoisons | common/parameters.cc:123-144 | on a tree without empty entries a lookup changes later answers exactly for the nodes above a missing path, which can no longer be read |
| ParameterLaws.LookedKeeps | common/parameters.cc:29-43 | a lookup changes no value and keeps the tree prefix-closed, and a failed one leaves an empty entry on its path |
| ParameterRebuild.LookupHidesLeaf | common/parameters.cc:258-270 | after a lookup exactly those leaves are still leaves that do not lie strictly above the name looked up |
| ParameterLaws.NamedRootsKept | common/parameters.cc:5-27 | setting, deleting and looking up by name keep it that first components have no slash |
| ParameterRebuild.RebuildAnswersAlike | stagezero/stagezero.cc:318-329 | a server rebuilt by setting the flattened leaves in any order answers every path as the original, when every leaf's path is one that parsing can produce and no empty entry lies below a node |
| ParameterRebuild.RebuildExactly | common/parameters.cc:258-270 | the rebuilt server answers every name alike exactly when no empty entry lies below a node and every leaf's path is one that parsing can produce |
| ParameterTransfer.UploadParameters | stagezero/stagezero.cc:318-329 | clearing and setting each leaves the tree of the list alone |
| ParameterTransfer.SetAllParameters | capcom/capcom.cc:715-724 | setting each adds the list to what is there |
| ParameterTransfer.ConnectUpload | capcom/capcom.cc:170-194 | after the upload of a connection the StageZero answers every name as Capcom does exactly when Capcom's tree is one an upload carries over; then it answers every path alike, on the heap |
| Replication.DifferencesAreOnTheirWay | capcom/capcom.cc:629-648 | at any moment of any run, a lookup answered differently by Capcom and a connected StageZero has a write to a related path in flight or not yet sent there; with nothing in flight all connected StageZeros answer as Capcom |
| Replication.StepKeeps | capcom/capcom.cc:670-679 | local and client writes, event delivery in any order, broadcasts, uploads and lost connections all keep every difference covered |
| Replication.AppliedUncovers | stagezero/stagezero.cc:293-301 | once a StageZero has applied the update being sent, that update need not explain any difference any more |
| Replication.UploadCovers | capcom/capcom.cc:170-194 | an upload leaves no difference |
| Replication.PropagateUpdate | capcom/capcom.cc:629-648 | the loop over the umbilicals, for scalars and maps: exactly the connected StageZeros that can be reached apply the update, a failed send is passed over and reported, and its socket is lost |
| Replication.AskingAgainSilences | capcom/umbilical.cc:5-10 | asking again for an existing connection makes it count as not connected with its socket up, and no update reaches that StageZero until the next upload |
| Replication.ConnectedExactly | capcom/umbilical.h:84-87 | over any run a StageZero counts as connected exactly when it has had an upload that no second request, failure, loss or last disconnection has followed |
| Replication.SilencedReachable | capcom/capcom.cc:629-648 | a run after which nothing is on its way, the socket of a StageZero is up, and it answers a lookup differently from Capcom |
| Umbilicals.Umbilical.Precondition | capcom/umbilical.cc:5-10 | tells whether it was closed, goes to connecting from any state, takes a reference and leaves the sockets alone |
| Umbilicals.Umbilical.Connect | capcom/umbilical.cc:12-30 | succeeds exactly from connecting with a reachable StageZero; its client then has sockets, and none when the attempt fails |
| Umbilicals.Umbilical.Disconnect | capcom/umbilical.cc:32-43 | closes state and sockets with the last reference, unless only the dynamic reference of a static one is dropped |
| Umbilicals.AskingAgain | capcom/umbilical.cc:5-10 | asking again and then giving that reference back restores the count, but the rest exactly when it was what the disconnection leaves |
| FlightGraph.CheckForSubsystemLoops | flight/flight_director.cc:661-671 | no loop is reported exactly on acyclic graphs, and a reported path is a genuine walk from a subsystem back to itself |
| FlightGraph.CheckForLoopsFrom | flight/flight_director.cc:622-659 | the search below one node: without a loop the nodes newly visited have all their dependencies visited and the root is not among them |
| FlightGraph.CheckForLoopsAt | flight/flight_director.cc:625-635 | no loop is found from a root exactly when no walk leads from it back to it |
| FlightGraph.FlattenSubsystemGraph | flight/flight_director.cc:673-684 | post-order with the visited set: each new node once, all reachable, and in an acyclic graph after all its dependencies |
| FlightGraph.RegistrationOrder | flight/flight_director.cc:178-184 | over all interfaces: exactly what they lead to, once each, dependencies first in an acyclic graph |
| FlightGraph.Register | capcom/client_handler.cc:299-310 | no subsystem is refused for an unknown child exactly when every dependency is listed before its dependants |
| FlightGraph.DepsFirstNoLoop | flight/flight_director.cc:186-192 | a list with dependencies first shows that no listed subsystem is on a loop |
| FlightGraph.OrderNumbersChildrenLower | capcom/client_handler.cc:299-310 | dependencies first is the same as children having lower registration numbers with none missing, which is what the cascades assume |
| BitSets.BitSet.Allocate | capcom/bitset.h:50-67 | the least number not in the set is returned and is the only one added; the set grows by a word when all are full |
| BitSets.BitSet.Set | capcom/bitset.h:82-94 | the bit is added; a bit more than one word past the end is dropped |
| BitSets.BitSet.Clear | capcom/bitset.h:69-80 | the bit is removed; a bit more than one word past the end is ignored |
| BitSets.BitSet.Contains | capcom/bitset.h:105-112 | true exactly for the members |
| BitSets.BitSet.IsEmpty | capcom/bitset.h:96-103 | true exactly when there is no member |
| BitSets.BitSet.ClearAll | capcom/bitset.h:114-118 | no member is left |
| BitSets.WordSet | capcom/bitset.h:82-94 | or-ing the shifted one into a 64-bit word sets that bit and no other |
| BitSets.WordClear | capcom/bitset.h:69-80 | and-ing its complement clears that bit and no other |
| BitSets.ZeroWord | capcom/bitset.h:96-103 | a 64-bit word is zero exactly when none of its bits is set |
| ClientIds.IdsDistinctAndSmall | capcom/capcom.cc:88-99 | over any run of connects and closes live client ids are pairwise distinct and a new id is at most the number of clients live |
| ClientIds.Listener.HandleIncomingConnection | capcom/capcom.cc:78-105 | a connection gets the least free id, on the heap |
| ClientIds.Listener.CloseHandler | capcom/capcom.cc:93-99 | a closed handler gives exactly its own id back |
| SymbolCodec.TableRoundTrip | stagezero/symbols.cc:127-141 | for any table with strings and size below 2^32 and any iteration order, decoding gives back every symbol not already there and consumes exactly the bytes written |
| SymbolCodec.TextSurvives | stagezero/symbols.cc:28-44 | a string survives writing and reading exactly when its length is below 2^32 |
| SymbolCodec.SymbolRoundTrip | stagezero/symbols.cc:46-56 | name, value and exported flag survive, and the rest of the stream is untouched |
| SymbolTables.ByteStream.WriteInt | stagezero/symbols.cc:9-14 | four bytes, lowest first |
| SymbolTables.ByteStream.ReadNumber | stagezero/symbols.cc:16-25 | the number of the next four bytes, zero at the end of the input |
| SymbolTables.ByteStream.ReadString | stagezero/symbols.cc:34-44 | the string of the length read, empty when the input ends early |
| SymbolTables.SymbolTable.Encode | stagezero/symbols.cc:127-132 | the size and every symbol once, in the table's own order, is appended to the stream |
| SymbolTables.SymbolTable.Decode | stagezero/symbols.cc:134-141 | the table becomes what reading the stream gives, earlier symbols kept, and the exported list is not touched |
| SymbolTables.Transfer | stagezero/symbols.cc:127-141 | a copied table has the same symbols, consumes the stream and exports nothing |
| SymbolTables.CopyExportsNothing | stagezero/symbols.cc:134-141 | below any enclosing scopes the copy gives a process the same environment exactly when those scopes already export what the original exported; with no enclosing scope, when the original exported nothing |
| SymbolTables.SymbolTable.AddSymbol | stagezero/symbols.cc:58-65 | a name that is taken keeps its symbol, and exporting it again exports that one |
| SymbolTables.SymbolTable.FindSymbol | stagezero/symbols.cc:67-76 | the symbol found is that of the innermost scope of the parent chain that has the name, and none is found exactly when no scope has it |
| SymbolExpansion.LookupExactly | stagezero/symbols.cc:67-76 | over any chain of scopes: a value is found exactly when it is that of the first scope that has the name |
| SymbolLaws.ValueIs | stagezero/symbols.cc:94-125 | a reference has the value of the innermost scope that has its name, and an unknown name stands for itself |
| SymbolLaws.BracedExpands | stagezero/symbols.cc:100-107 | a name in braces ends at the first closing brace, whatever other characters it has |
| SymbolLaws.NameExpands | stagezero/symbols.cc:108-112 | a bare name is a letter or underscore and all letters, underscores and digits after it |
| SymbolLaws.InnerOverrides | stagezero/symbols.cc:67-76 | a local symbol overrides the one of an enclosing scope in every braced reference |
| SymbolLaws.EnvironmentIs | stagezero/symbols.cc:78-92 | a name has in the environment the value of the innermost scope that exports it |
| SymbolTables.SymbolTable.GetEnvironmentSymbols | stagezero/symbols.cc:78-92 | outer scopes first, replaced by inner exported symbols |
| SymbolTables.EnvironmentHas | stagezero/symbols.cc:78-92 | a name is in the environment exactly when some scope of the chain exports it |
| SymbolTables.SymbolTable.ReplaceSymbols | stagezero/symbols.cc:94-125 | the one pass over the string equals splitting it into tokens and expanding each once under scope-chain lookup |
| SymbolTables.ReferenceAt | stagezero/symbols.cc:100-114 | the name after a dollar sign, braced, bare or empty, and where the reference ends |
| SymbolExpansion.TokensJoin | stagezero/symbols.cc:94-125 | the tokens of a concatenation are those of its parts exactly when the second part does not continue the last token of the first |
| SymbolExpansion.ReplaceJoins | stagezero/symbols.cc:94-125 | at a token boundary the parts of a string can be expanded separately |
| SymbolExpansion.PlainUnchanged | stagezero/symbols.cc:120-122 | a text with neither dollar sign nor zero byte is unchanged |

## Left out

- Interactive terminals, test mode, oneshot processes, alarms, logging, status and telemetry messages: they carry none of these properties.
- Removal of subsystems, and a child named twice in one registration: the dependency graph is fixed while the system runs.
- The map from process ids to processes: an event names its process; events of other subsystems' processes are of the kind that changes nothing.
- Launching and stopping processes yields to other coroutines; here it is part of one entry step, and how many launches succeed is given.
- The abort that a crash of a critical process makes Capcom send to everybody: only the messages it sends are modelled, at any time.
- A second coroutine connecting the same compute: connectors are kept as a set of computes.
- Reference counts of Capcom's main umbilicals: they are raised per connection attempt and lowered per process, so no exact count holds.
- DependencySafety.ChildrenServeAlways: for runs of start and stop commands in which every launch succeeds; crashes, aborts, restarts and lost connections let a child drop while its parent is still Online.
- SpreadRuns.SpreadEnds: for restarting subsystems with one parent each at most, one crash, and a system otherwise at rest.
- LiveProcesses.HonestExactly: a process that is alive without being flagged is not followed; it does not crash in the model.
- Events of a connection that has been made anew since are not dropped: the model may deliver them where the code would not.
- StartCascade.StartEnds: for runs in which every launch succeeds and every connection is made.
- StopCascade.StopEnds: for processes that stop when asked.
- Sessions.NeededIsOnline: for clients that ask for one subsystem at a time; OwnDependencyLost shows what happens to one that does not.
- Sessions.SessionCarriedOut: each order has settled before the next is given; orders that overlap are covered by DependencySafety.ChildrenServeAlways.
- ControlRuns.OneCoroutineExactly: states exactly which next step breaks the token, from a state reached without such a step.
- Replication.DifferencesAreOnTheirWay: for updates of scalars by any names; deletions are propagated by a coroutine that yields, whole lists set on Capcom are not propagated at all, and no update event is lost and no upload fails half-way. A send that fails is one whose socket has been lost. Failed lookups on the servers, which leave empty entries, are not among the steps.
- SubsystemNetwork.AddSubsystem: for distinct children that are already there; what the registration refuses is FlightGraph.Register.
- Subsystems.Subsystem.AllProcessesRunning: the clause for oneshot processes, which count as running once they have ended, is not modelled.
- Subsystems.Subsystem.RestartIfPossibleAfterProcessCrash: the branches for oneshot processes and test mode are not modelled; the emergency abort for a critical process may come as a message at any time.
- Subsystems.Subsystem.OnlineEvent: the end of an interactive process, which ends its subsystem, is not modelled.
- Subsystems.Subsystem.LaunchProcesses: which launches StageZero accepts is given, and starting the processes themselves is not modelled.
- Lists of parameter names (ListParameters, FlattenNames) and the naming of a process's local parameters: the same walk as GetAllParameters.
- Values are copied as they are: their encoding as messages is not part of the model, and floating point values are opaque reals.
- Sockets, pipes, message formats, configuration parsing, the resolution of dependency names, and everything outside Capcom, StageZero's parameters and symbols, and FlightDirector's graph.
- Symbol names with bytes outside ASCII: such bytes are taken not to be letters.
