/**
 * Runs from a fresh system, step by step, into the states in which the promises of control and of
 * released processes end: a subsystem alone, with two processes on one compute.
 */
module FailingRuns {
  import opened States
  import opened ClientBits
  import opened Umbilicals
  import opened SubsystemModel
  import opened Network
  import opened Alone
  import ControlRuns
  import ControlToken
  import ReferenceCounts
  import LoneRestart

  function Solo(l: Local, queue: seq<Message>, events: multiset<Event>): Net {
    [Sub(l, queue, events)]
  }

  /** Some run from a fresh system with exact counts leads here. */
  ghost predicate Reachable(n: Net) {
    exists ns, acts ::
      && Run(ALONE, ns, acts) && ControlRuns.Fresh(ALONE, ns[0]) && ReferenceCounts.AllAccounted(ns[0])
      && ns[|acts|] == n
  }

  lemma Extends(n: Net, a: Action)
    requires |n| == 1 && Reachable(n) && Enabled(n, a)
    ensures Reachable(Apply(ALONE, n, a))
  {
    var ns, acts :|
      && Run(ALONE, ns, acts) && ControlRuns.Fresh(ALONE, ns[0]) && ReferenceCounts.AllAccounted(ns[0])
      && ns[|acts|] == n;
    RunFurther(ns, acts, a);
  }

  lemma RunFurther(ns: seq<Net>, acts: seq<Action>, a: Action)
    requires Run(ALONE, ns, acts) && Enabled(ns[|acts|], a)
    ensures var ns' := ns + [Apply(ALONE, ns[|acts|], a)];
      Run(ALONE, ns', acts + [a]) && ns'[0] == ns[0] && ns'[|acts + [a]|] == Apply(ALONE, ns[|acts|], a)
  {
    var ns', acts' := ns + [Apply(ALONE, ns[|acts|], a)], acts + [a];
    forall i {:trigger acts'[i]} | 0 <= i < |acts'|
      ensures Enabled(ns'[i], acts'[i]) && ns'[i+1] == Apply(ALONE, ns'[i], acts'[i])
    {
      if i < |acts| {
        assert acts'[i] == acts[i];
      }
    }
  }

  // ---------------------------------------------------------------- steps of a subsystem alone

  lemma Enters(l: Local, queue: seq<Message>, events: multiset<Event>, launch: nat)
    requires Reachable(Solo(l, queue, events)) && l.coros != [] && l.coros[0].Scheduled?
    ensures Reachable(Solo(RunEntry(l, 0, NOBODY, launch).l, queue, events))
  {
    var n := Solo(l, queue, events);
    SeesNobody(n);
    Extends(n, DoEntry(0, 0, launch));
    assert Apply(ALONE, n, DoEntry(0, 0, launch)) == Solo(RunEntry(l, 0, NOBODY, launch).l, queue, events);
  }

  lemma Hears(l: Local, m: Message, events: multiset<Event>)
    requires Reachable(Solo(l, [], events)) && l.coros != [] && Serves(l.coros[0]) && !m.ReportOper?
    ensures Reachable(Solo(TakeMessage(l, 0, NOBODY, m).l, [], events))
  {
    var n := Solo(l, [], events);
    Extends(n, ClientSends(0, m));
    var n1 := Solo(l, [m], events);
    assert Apply(ALONE, n, ClientSends(0, m)) == n1 by { assert [] + [m] == [m]; }
    SeesNobody(n1);
    Extends(n1, DoMessage(0, 0));
    assert [m][1..] == [];
    assert Apply(ALONE, n1, DoMessage(0, 0)) == Solo(TakeMessage(l, 0, NOBODY, m).l, [], events);
  }

  lemma Takes(l: Local, v: Event, events: multiset<Event>)
    requires Reachable(Solo(l, [], events)) && l.coros != [] && Serves(l.coros[0]) && v in events
    ensures Reachable(Solo(TakeEvent(l, 0, NOBODY, v, false).l, [], events - multiset{v}))
  {
    var n := Solo(l, [], events);
    SeesNobody(n);
    Extends(n, DoEvent(0, 0, v, false));
    assert Apply(ALONE, n, DoEvent(0, 0, v, false)) == Solo(TakeEvent(l, 0, NOBODY, v, false).l, [], events - multiset{v});
  }

  lemma Moves(l: Local, events: multiset<Event>, a: Action)
    requires Reachable(Solo(l, [], events)) && Enabled(Solo(l, [], events), a) && !ByCoroutine(a)
    ensures Reachable([Surround(Sub(l, [], events), a)])
  {
    var n := Solo(l, [], events);
    Extends(n, a);
    assert Apply(ALONE, n, a) == [Surround(Sub(l, [], events), a)];
  }

  // ---------------------------------------------------------------- up to the launch

  /** The first process may be restarted once, the second not at all. */
  function Pair(connected: bool): seq<Proc> {
    [Proc(0, connected, false, 0, 1, 1), Proc(0, connected, false, 0, 0, 1)]
  }

  function Base(policy: RestartPolicy): Local {
    Local(AdminOffline, Offline, EMPTY_BITS, [Scheduled(Offline, NO_CLIENT)], Pair(false), map[0 := FRESH_UMB], [],
          0, 1, 1, policy, false, {}, {}, {}, 0)
  }

  lemma BaseReachable(policy: RestartPolicy)
    ensures Reachable(Solo(Base(policy), [], multiset{}))
  {
    var n := Solo(Base(policy), [], multiset{});
    var ns: seq<Net>, acts: seq<Action> := [n], [];
    var procs := Pair(false);
    assert ReferenceCounts.Users(procs, 0) == 0 by {
      ReferenceCounts.NobodyConnected(procs, 0);
    }
    assert ReferenceCounts.Accounted(n[0].l);
    assert Run(ALONE, ns, acts) && ns[|acts|] == n;
  }

  /** Idle in Offline. */
  function Idle(policy: RestartPolicy): Local {
    Base(policy).(coros := [Serving(Offline, NO_CLIENT, Offline)])
  }

  /** A client has started it, and it is about to connect. */
  function Started(policy: RestartPolicy): Local {
    Base(policy).(admin := AdminOnline, clients := Bits(1, {0}), oper := Connecting, coros := [Scheduled(Connecting, NO_CLIENT)])
  }

  lemma StartedReachable(policy: RestartPolicy)
    ensures Reachable(Solo(Started(policy), [], multiset{}))
  {
    BaseReachable(policy);
    Enters(Base(policy), [], multiset{}, 0);
    assert RunEntry(Base(policy), 0, NOBODY, 0).l == Idle(policy);
    Hears(Idle(policy), ChangeAdmin(AdminOnline, 0), multiset{});
    var l := Started(policy).(oper := StartingChildren, coros := [Scheduled(StartingChildren, NO_CLIENT)]);
    assert TakeMessage(Idle(policy), 0, NOBODY, ChangeAdmin(AdminOnline, 0)).l == l;
    Enters(l, [], multiset{}, 0);
    assert RunEntry(l, 0, NOBODY, 0).l == Started(policy);
  }

  /** Both processes hold the connection and are being launched. */
  function Launching(policy: RestartPolicy): Local {
    Started(policy).(oper := StartingProcesses, coros := [Serving(StartingProcesses, NO_CLIENT, Online)],
                     procs := Pair(true), umbilicals := map[0 := Umb(LinkConnected, 2, false, true)], launched := {0, 1})
  }

  lemma ConnectsBoth(policy: RestartPolicy, l: Local)
    requires l == Started(policy).(coros := [Serving(Connecting, NO_CLIENT, Connecting)], procs := Pair(true),
                                   umbilicals := map[0 := Umb(LinkConnecting, 2, false, false)], connectors := {0})
    ensures RunEntry(Started(policy), 0, NOBODY, 0).l == l
  {
    var l0 := Without(Started(policy), 0).l;
    var l1 := ConnectProcess(l0, 0);
    var l2 := ConnectProcess(l1, 1);
    assert l2 == l.(coros := []);
    assert ConnectFrom(l2, 2) == l2;
    assert ConnectFrom(l1, 1) == l2;
    assert ConnectFrom(l0, 0) == l2;
    assert !l2.AllConnected() by {
      assert l2.procs[0].compute == 0 && l2.umbilicals[0].state == LinkConnecting;
    }
  }

  lemma LinksUp(l: Local, l1: Local)
    requires l.umbilicals == map[0 := Umb(LinkConnecting, 2, false, false)] && l.connectors == {0}
    requires l.procs == Pair(true)
    requires l.coros == [Serving(Connecting, NO_CLIENT, Connecting)]
    requires l1 == l.(umbilicals := map[0 := Umb(LinkConnected, 2, false, true)], connectors := {})
    ensures Surround(Sub(l, [], multiset{}), LinkUp(0, 0)) == Sub(l1, [], multiset{ConnectEvent(0)})
    ensures TakeEvent(l1, 0, NOBODY, ConnectEvent(0), false).l
         == l1.(oper := StartingProcesses, coros := [Scheduled(StartingProcesses, NO_CLIENT)])
  {
  }

  lemma Launches(l: Local, c: ClientId)
    requires l.admin == AdminOnline && l.procs == Pair(true) && l.launched == {} && l.oper == StartingProcesses
    requires l.coros == [Scheduled(StartingProcesses, c)]
    ensures RunEntry(l, 0, NOBODY, 2).l == l.(launched := {0, 1}, coros := [Serving(StartingProcesses, c, Online)])
  {
  }

  lemma LaunchingReachable(policy: RestartPolicy)
    ensures Reachable(Solo(Launching(policy), [], multiset{}))
  {
    StartedReachable(policy);
    Enters(Started(policy), [], multiset{}, 0);
    var l := Started(policy).(coros := [Serving(Connecting, NO_CLIENT, Connecting)], procs := Pair(true),
                              umbilicals := map[0 := Umb(LinkConnecting, 2, false, false)], connectors := {0});
    ConnectsBoth(policy, l);
    Moves(l, multiset{}, LinkUp(0, 0));
    var l1 := l.(umbilicals := map[0 := Umb(LinkConnected, 2, false, true)], connectors := {});
    LinksUp(l, l1);
    Takes(l1, ConnectEvent(0), multiset{ConnectEvent(0)});
    var l2 := l1.(oper := StartingProcesses, coros := [Scheduled(StartingProcesses, NO_CLIENT)]);
    Enters(l2, [], multiset{}, 2);
    Launches(l2, NO_CLIENT);
    assert multiset{ConnectEvent(0)} - multiset{ConnectEvent(0)} == multiset{};
  }

  /** Launched processes report that they run, in whatever order. */
  lemma BothStart(l: Local, events: multiset<Event>)
    requires Reachable(Solo(l, [], events)) && l.launched == {0, 1} && |l.procs| == 2
    ensures Reachable(Solo(l.(launched := {}), [], events + multiset{StartEvent(0), StartEvent(1)}))
  {
    Moves(l, events, ProcStarts(0, 0));
    var l1 := l.(launched := {1});
    var events1 := events + multiset{StartEvent(0)};
    assert Surround(Sub(l, [], events), ProcStarts(0, 0)) == Sub(l1, [], events1);
    Moves(l1, events1, ProcStarts(0, 1));
    assert Surround(Sub(l1, [], events1), ProcStarts(0, 1))
        == Sub(l.(launched := {}), [], events + multiset{StartEvent(0), StartEvent(1)});
  }

  /** Both processes run. */
  function Running(policy: RestartPolicy, c: ClientId): Local {
    Launching(policy).(launched := {}, oper := Online, coros := [Serving(Online, c, Online)],
                       procs := [Proc(0, true, true, 0, 1, 1), Proc(0, true, true, 0, 0, 1)])
  }

  lemma FirstRuns(policy: RestartPolicy, c: ClientId, l: Local)
    requires l == Launching(policy).(launched := {}, coros := [Serving(StartingProcesses, c, Online)])
    ensures TakeEvent(l, 0, NOBODY, StartEvent(0), false).l
         == l.(procs := [Proc(0, true, true, 0, 1, 1), Proc(0, true, false, 0, 0, 1)])
  {
    var r := Without(l, 0).l.SetRunning(0, true);
    assert r.procs == [Proc(0, true, true, 0, 1, 1), Proc(0, true, false, 0, 0, 1)];
    assert !r.procs[1].running;
  }

  lemma SecondRuns(policy: RestartPolicy, c: ClientId, l: Local)
    requires l == Running(policy, c).(oper := StartingProcesses, coros := [Serving(StartingProcesses, c, Online)],
                                      procs := [Proc(0, true, true, 0, 1, 1), Proc(0, true, false, 0, 0, 1)])
    ensures TakeEvent(l, 0, NOBODY, StartEvent(1), false).l == Running(policy, c).(coros := [Scheduled(Online, c)])
  {
    var e := Without(l, 0);
    var r := e.l.SetRunning(1, true);
    assert r.procs == Running(policy, c).procs;
    assert r.AllRunning();
    assert r == Running(policy, c).(oper := StartingProcesses, coros := []);
  }

  lemma GoesOnline(policy: RestartPolicy, c: ClientId)
    ensures RunEntry(Running(policy, c).(coros := [Scheduled(Online, c)]), 0, NOBODY, 0).l == Running(policy, c)
  {
  }

  lemma RunningReachable(policy: RestartPolicy, c: ClientId, events: multiset<Event>)
    requires Reachable(Solo(Launching(policy).(launched := {}, coros := [Serving(StartingProcesses, c, Online)]), [],
                            events + multiset{StartEvent(0), StartEvent(1)}))
    ensures Reachable(Solo(Running(policy, c), [], events))
  {
    var all := events + multiset{StartEvent(0), StartEvent(1)};
    var l := Launching(policy).(launched := {}, coros := [Serving(StartingProcesses, c, Online)]);
    Takes(l, StartEvent(0), all);
    FirstRuns(policy, c, l);
    var l1 := l.(procs := [Proc(0, true, true, 0, 1, 1), Proc(0, true, false, 0, 0, 1)]);
    Takes(l1, StartEvent(1), all - multiset{StartEvent(0)});
    SecondRuns(policy, c, l1);
    assert all - multiset{StartEvent(0)} - multiset{StartEvent(1)} == events;
    Enters(Running(policy, c).(coros := [Scheduled(Online, c)]), [], events, 0);
    GoesOnline(policy, c);
  }

  // ---------------------------------------------------------------- an abort in the restart wait

  /** The first process has crashed, and the subsystem waits to restart. */
  function Waiting(): Local {
    Running(Automatic, NO_CLIENT).(procs := [Proc(0, true, false, 0, 1, 1), Proc(0, true, true, 0, 0, 1)],
                                  coros := [RestartWait(NO_CLIENT)], restartDelay := 2, numRestarts := 1)
  }

  lemma CrashWaits()
    ensures TakeEvent(Running(Automatic, NO_CLIENT), 0, NOBODY, StopEvent(0), false).l == Waiting()
  {
    var l := Running(Automatic, NO_CLIENT);
    var r := Without(l, 0).l.SetRunning(0, false);
    assert r.procs == Waiting().procs;
  }

  lemma WaitingReachable()
    ensures Reachable(Solo(Waiting(), [], multiset{}))
  {
    LaunchingReachable(Automatic);
    BothStart(Launching(Automatic), multiset{});
    assert multiset{} + multiset{StartEvent(0), StartEvent(1)} == multiset{StartEvent(0), StartEvent(1)};
    RunningReachable(Automatic, NO_CLIENT, multiset{});
    var l := Running(Automatic, NO_CLIENT);
    Moves(l, multiset{}, ProcCrashes(0, 0));
    assert multiset{} + multiset{StopEvent(0)} == multiset{StopEvent(0)};
    assert Surround(Sub(l, [], multiset{}), ProcCrashes(0, 0)) == Sub(l, [], multiset{StopEvent(0)});
    Takes(l, StopEvent(0), multiset{StopEvent(0)});
    CrashWaits();
    assert multiset{StopEvent(0)} - multiset{StopEvent(0)} == multiset{};
  }

  /** A run from a fresh system leaves a subsystem with two coroutines: start, crash, abort. */
  lemma TwoCoroutinesReachable() returns (n: Net)
    ensures Reachable(n) && |n| == 1 && !ControlToken.OneCoroutine(n[0].l)
    ensures n[0].l.coros == [Scheduled(Offline, NO_CLIENT), Scheduled(Restarting, NO_CLIENT)]
  {
    WaitingReachable();
    Hears(Waiting(), Abort(true), multiset{});
    ControlRuns.AbortedWaitSplits(Waiting(), NO_CLIENT, NOBODY);
    n := Solo(TakeMessage(Waiting(), 0, NOBODY, Abort(true)).l, [], multiset{});
  }

  // ---------------------------------------------------------------- a crash beside another process

  /**
   * A run from a fresh system to the crash of a process that shares its compute, with a restart left in
   * the budget: the restart that follows cannot end but stranded in Connecting.
   */
  lemma SharedCrashReachable() returns (x: Sub)
    ensures Reachable([x]) && LoneRestart.JustCrashed(x, 0) && LoneRestart.Shared(x.l, 0)
  {
    LaunchingReachable(Automatic);
    BothStart(Launching(Automatic), multiset{});
    assert multiset{} + multiset{StartEvent(0), StartEvent(1)} == multiset{StartEvent(0), StartEvent(1)};
    RunningReachable(Automatic, NO_CLIENT, multiset{});
    var l := Running(Automatic, NO_CLIENT);
    Moves(l, multiset{}, ProcCrashes(0, 0));
    assert multiset{} + multiset{StopEvent(0)} == multiset{StopEvent(0)};
    x := Sub(l, [], multiset{StopEvent(0)});
    assert Surround(Sub(l, [], multiset{}), ProcCrashes(0, 0)) == x;
    RunningAccounted();
    assert l.procs[1].compute == l.procs[0].compute;
  }

  lemma RunningAccounted()
    ensures ReferenceCounts.Accounted(Running(Automatic, NO_CLIENT))
  {
    var procs := Running(Automatic, NO_CLIENT).procs;
    assert procs[..1] == [procs[0]] && [procs[0]][..0] == [];
    assert ReferenceCounts.Users([procs[0]], 0) == 1;
    assert ReferenceCounts.Users(procs, 0) == 2;
  }

  // ---------------------------------------------------------------- a process left running

  const TWICE: multiset<Event> := multiset{StartEvent(0), StartEvent(1)}

  lemma LaunchAgain(l: Local)
    requires l == Launching(ProcessOnly).(launched := {})
    ensures TakeMessage(l, 0, NOBODY, RestartSome(0, [])).l == l.(coros := [Scheduled(StartingProcesses, 0)])
  {
  }

  /** Restarting processes while they are launched launches them again: every start is reported twice. */
  lemma LaunchedTwice()
    ensures Reachable(Solo(Launching(ProcessOnly).(launched := {}, coros := [Serving(StartingProcesses, 0, Online)]), [],
                           TWICE + TWICE))
  {
    LaunchingReachable(ProcessOnly);
    BothStart(Launching(ProcessOnly), multiset{});
    var l := Launching(ProcessOnly).(launched := {});
    assert multiset{} + TWICE == TWICE;
    Hears(l, RestartSome(0, []), TWICE);
    LaunchAgain(l);
    var l1 := l.(coros := [Scheduled(StartingProcesses, 0)]);
    Enters(l1, [], TWICE, 2);
    Launches(l1, 0);
    BothStart(l1.(launched := {0, 1}, coros := [Serving(StartingProcesses, 0, Online)]), TWICE);
  }

  /** The first process has crashed and waits for its own restart. */
  function Crashed0(): Local {
    Running(ProcessOnly, 0).(procs := [Proc(0, true, false, 1, 1, 2), Proc(0, true, true, 0, 0, 1)], delayed := 1)
  }

  lemma CrashOfFirst()
    ensures TakeEvent(Running(ProcessOnly, 0), 0, NOBODY, StopEvent(0), false).l == Crashed0()
  {
    var r := Without(Running(ProcessOnly, 0), 0).l.SetRunning(0, false);
    assert r.procs == [Proc(0, true, false, 0, 1, 1), Proc(0, true, true, 0, 0, 1)];
    assert r.procs[0 := Proc(0, true, false, 1, 1, 2)] == Crashed0().procs;
  }

  lemma CrashedReachable()
    ensures Reachable(Solo(Crashed0(), [], TWICE))
  {
    LaunchedTwice();
    RunningReachable(ProcessOnly, 0, TWICE);
    var l := Running(ProcessOnly, 0);
    Moves(l, TWICE, ProcCrashes(0, 0));
    assert Surround(Sub(l, [], TWICE), ProcCrashes(0, 0)) == Sub(l, [], TWICE + multiset{StopEvent(0)});
    Takes(l, StopEvent(0), TWICE + multiset{StopEvent(0)});
    CrashOfFirst();
    assert TWICE + multiset{StopEvent(0)} - multiset{StopEvent(0)} == TWICE;
  }

  /** All processes are restarted: the crashed one gives its connection back, the other is asked to stop. */
  function Restarting0(): Local {
    Crashed0().(procs := [Proc(0, false, false, 1, 1, 2), Proc(0, true, true, 0, 0, 1)],
                umbilicals := map[0 := Umb(LinkConnected, 1, false, true)], toRestart := [0, 1], stopRequested := {1},
                oper := RestartingProcesses, coros := [Serving(RestartingProcesses, 0, Connecting)])
  }

  lemma RestartOfAll()
    ensures TakeMessage(Crashed0(), 0, NOBODY, RestartSome(0, [])).l
         == Restarting0().(coros := [Scheduled(RestartingProcesses, 0)])
  {
    var l := Without(Crashed0(), 0).l.(toRestart := seq(2, p => p));
    assert l.toRestart == [0, 1];
    var l1 := StopProcess(l, 0);
    var l2 := StopProcess(l1, 1);
    assert l1.procs == Restarting0().procs;
    assert l2.procs == Restarting0().procs;
    assert l2 == Restarting0().(oper := Online, coros := []);
    assert StopFrom(l2, 2) == l2;
    assert StopFrom(l1, 1) == l2;
    assert StopFrom(l, 0) == l2;
  }

  lemma WaitsForSecond()
    ensures RunEntry(Restarting0().(coros := [Scheduled(RestartingProcesses, 0)]), 0, NOBODY, 0).l == Restarting0()
  {
    var l := Restarting0();
    assert l.toRestart[1] == 1 && l.procs[1].running;
  }

  lemma RestartingReachable()
    ensures Reachable(Solo(Restarting0(), [], TWICE))
  {
    CrashedReachable();
    Hears(Crashed0(), RestartSome(0, []), TWICE);
    RestartOfAll();
    Enters(Restarting0().(coros := [Scheduled(RestartingProcesses, 0)]), [], TWICE, 0);
    WaitsForSecond();
  }

  /** The second start events have come: the first process runs without holding a connection. */
  function Stray(): Local {
    Restarting0().(procs := [Proc(0, false, true, 1, 1, 2), Proc(0, true, true, 0, 0, 1)],
                   coros := [Live(RestartingProcesses, 0, Connecting, {}, {}, {0, 1})])
  }

  /** Between the two late start events. */
  function HalfStray(): Local {
    Stray().(coros := [Live(RestartingProcesses, 0, Connecting, {}, {}, {0})])
  }

  lemma FirstLateStart()
    ensures TakeEvent(Restarting0(), 0, NOBODY, StartEvent(0), false).l == HalfStray()
  {
    var l := Restarting0();
    var r := Without(l, 0).l.SetRunning(0, true);
    assert r.procs == HalfStray().procs;
    assert r.toRestart[0] == 0 && r.procs[0].running;
    assert !r.StoppedAmong(r.toRestart);
    var e := Effect(r, [], []);
    var t := Live(RestartingProcesses, 0, Connecting, {}, {}, {0});
    assert {} + {0} == {0};
    assert RestartingProcessesCheck(e, t) == e.Stay(t);
  }

  lemma SecondLateStart()
    ensures TakeEvent(HalfStray(), 0, NOBODY, StartEvent(1), false).l == Stray()
  {
    var l := HalfStray();
    var r := Without(l, 0).l.SetRunning(1, true);
    assert r.procs == Stray().procs;
    assert r.toRestart[0] == 0 && r.procs[0].running;
    assert !r.StoppedAmong(r.toRestart);
    var e := Effect(r, [], []);
    var t := Live(RestartingProcesses, 0, Connecting, {}, {}, {0, 1});
    assert {0} + {1} == {0, 1};
    assert RestartingProcessesCheck(e, t) == e.Stay(t);
  }

  /** A start event reported twice makes a process run that has given its connection back. */
  lemma StrayReachable()
    ensures Reachable(Solo(Stray(), [], multiset{}))
    ensures !ReferenceCounts.Attached(Stray())
  {
    RestartingReachable();
    Takes(Restarting0(), StartEvent(0), TWICE);
    FirstLateStart();
    Takes(HalfStray(), StartEvent(1), TWICE - multiset{StartEvent(0)});
    SecondLateStart();
    assert TWICE - multiset{StartEvent(0)} - multiset{StartEvent(1)} == multiset{};
    assert Stray().procs[0].running && !Stray().procs[0].maybeConnected;
  }

  /** The second process has stopped once too often. */
  function Degraded0(state: OperState, coro: Coro): Local {
    Stray().(procs := [Proc(0, false, true, 1, 1, 2), Proc(0, true, false, 0, 0, 1)], stopRequested := {},
             oper := state, coros := [coro])
  }

  lemma CrashOfSecond()
    ensures TakeEvent(Stray().(stopRequested := {}), 0, NOBODY, StopEvent(1), false).l
         == Degraded0(Degraded, Scheduled(Degraded, 0))
  {
    var r := Without(Stray().(stopRequested := {}), 0).l.SetRunning(1, false);
    assert r.procs == Degraded0(Degraded, Scheduled(Degraded, 0)).procs;
  }

  lemma DegradedReachable()
    ensures Reachable(Solo(Degraded0(Degraded, Serving(Degraded, 0, Degraded)), [], multiset{}))
  {
    StrayReachable();
    Moves(Stray(), multiset{}, ProcStops(0, 1));
    var l := Stray().(stopRequested := {});
    assert multiset{} + multiset{StopEvent(1)} == multiset{StopEvent(1)};
    assert {1} - {1} == {};
    assert Surround(Sub(Stray(), [], multiset{}), ProcStops(0, 1)) == Sub(l, [], multiset{StopEvent(1)});
    Takes(l, StopEvent(1), multiset{StopEvent(1)});
    assert multiset{StopEvent(1)} - multiset{StopEvent(1)} == multiset{};
    CrashOfSecond();
    Enters(Degraded0(Degraded, Scheduled(Degraded, 0)), [], multiset{}, 0);
    assert RunEntry(Degraded0(Degraded, Scheduled(Degraded, 0)), 0, NOBODY, 0).l
        == Degraded0(Degraded, Serving(Degraded, 0, Degraded));
  }

  /** Its client has stopped the subsystem. */
  function Stopped0(state: OperState, coro: Coro): Local {
    Degraded0(state, coro).(procs := [Proc(0, false, true, 0, 1, 2), Proc(0, true, false, 0, 0, 1)],
                            admin := AdminOffline, clients := Bits(1, {}), numRestarts := 0)
  }

  lemma ClientStops()
    ensures TakeMessage(Degraded0(Degraded, Serving(Degraded, 0, Degraded)), 0, NOBODY, ChangeAdmin(AdminOffline, 0)).l
         == Stopped0(StoppingChildren, Scheduled(StoppingChildren, 0))
  {
    var l := Without(Degraded0(Degraded, Serving(Degraded, 0, Degraded)), 0).l;
    assert Repaired(l).procs == Stopped0(Degraded, Scheduled(Degraded, 0)).procs;
    assert l.clients.Clear(0) == Bits(1, {});
  }

  /**
   * A run from a fresh system whose subsystem has gone offline, entry actions and all, with a process
   * still running: launched twice, crashed, disconnected, reported started again, then stopped.
   */
  lemma OfflineWithProcessReachable() returns (n: Net)
    ensures Reachable(n) && |n| == 1 && n[0].l.oper == Offline && n[0].l.coros == [Serving(Offline, 0, Offline)]
    ensures |n[0].l.procs| == 2 && n[0].l.procs[0].running && !n[0].l.procs[0].maybeConnected
  {
    DegradedReachable();
    Hears(Degraded0(Degraded, Serving(Degraded, 0, Degraded)), ChangeAdmin(AdminOffline, 0), multiset{});
    ClientStops();
    Enters(Stopped0(StoppingChildren, Scheduled(StoppingChildren, 0)), [], multiset{}, 0);
    var l := Stopped0(Offline, Scheduled(Offline, 0));
    assert RunEntry(Stopped0(StoppingChildren, Scheduled(StoppingChildren, 0)), 0, NOBODY, 0).l == l;
    Enters(l, [], multiset{}, 0);
    n := Solo(RunEntry(l, 0, NOBODY, 0).l, [], multiset{});
    LeavesRunning(l);
  }

  lemma LeavesRunning(l: Local)
    requires l == Stopped0(Offline, Scheduled(Offline, 0))
    ensures var r := RunEntry(l, 0, NOBODY, 0).l;
      && r.oper == Offline && r.coros == [Serving(Offline, 0, Offline)]
      && |r.procs| == 2 && r.procs[0].running && !r.procs[0].maybeConnected
  {
    var l0 := Without(l, 0).l.(numRestarts := 0);
    assert DisconnectProcess(l0, 0) == l0;
    var l1 := DisconnectProcess(l0, 1);
    assert DisconnectFrom(l1, 2) == l1;
    assert DisconnectFrom(l0, 1) == l1;
    assert DisconnectFrom(l0, 0) == l1;
  }
}
