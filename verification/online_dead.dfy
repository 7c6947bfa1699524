/**
 * A run from a fresh system to a subsystem that is Online with a dead process: a stop event is ignored
 * in Degraded, so that the next start does not launch that process again.
 */
module OnlineDead {
  import opened States
  import opened ClientBits
  import opened Umbilicals
  import opened SubsystemModel
  import opened Network
  import opened Alone
  import opened LiveProcesses
  import opened FailingRuns
  import ControlRuns
  import ReferenceCounts
  import LoneRestart

  /** A run from a fresh system with exact counts leads here, and these processes are not alive then. */
  ghost predicate Leads(ns: seq<Net>, acts: seq<Action>, x: Sub, dead: set<ProcId>) {
    && Run(ALONE, ns, acts) && ControlRuns.Fresh(ALONE, ns[0]) && ReferenceCounts.AllAccounted(ns[0])
    && ns[|acts|] == [x] && AliveAt([{}], acts, |acts|)[0] !! dead
  }

  ghost predicate LedTo(x: Sub, dead: set<ProcId>) {
    exists ns, acts :: Leads(ns, acts, x, dead)
  }

  /** The states that some run leads to, with these processes dead. */
  ghost function Reached(dead: set<ProcId>): iset<Sub> {
    iset x | LedTo(x, dead)
  }

  predicate Goto(x: Sub, a: Action, y: Sub) {
    a.s == 0 && EnabledAt(x, a) && y == LoneRestart.Next(x, a)
  }

  function DeadAfter(dead: set<ProcId>, a: Action): set<ProcId> {
    match a
    case ProcStarts(_, p) => dead - {p}
    case ProcStops(_, p) => dead + {p}
    case ProcCrashes(_, p) => dead + {p}
    case _ => dead
  }

  lemma {:induction false} AliveSame(acts: seq<Action>, a: Action, i: nat)
    requires i <= |acts|
    ensures AliveAt([{}], acts + [a], i) == AliveAt([{}], acts, i)
  {
    if i > 0 {
      AliveSame(acts, a, i - 1);
      assert (acts + [a])[i-1] == acts[i-1];
    }
  }

  lemma AliveFurther(acts: seq<Action>, a: Action, dead: set<ProcId>)
    requires AliveAt([{}], acts, |acts|)[0] !! dead && a.s == 0
    ensures AliveAt([{}], acts + [a], |acts + [a]|)[0] !! DeadAfter(dead, a)
  {
    AliveSame(acts, a, |acts|);
  }

  /** Every step of a subsystem alone. */
  lemma Goes(x: Sub, a: Action, dead: set<ProcId>, y: Sub, dead': set<ProcId>)
    requires x in Reached(dead) && Goto(x, a, y) && dead' == DeadAfter(dead, a)
    ensures y in Reached(dead')
  {
    LoneRestart.StepsAlone(x, a);
    var ns, acts :| Leads(ns, acts, x, dead);
    RunFurther(ns, acts, a);
    AliveFurther(acts, a, dead);
    assert Leads(ns + [[y]], acts + [a], y, dead');
  }

  // ---------------------------------------------------------------- the run

  /** Both processes run; then the flags are as given. */
  function Flagged(first: bool, second: bool): Local {
    Running(Manual, NO_CLIENT).(procs := [Proc(0, true, first, 0, 1, 1), Proc(0, true, second, 0, 0, 1)])
  }

  function In(l: Local, o: OperState, coro: Coro, events: multiset<Event>): Sub {
    Sub(l.(oper := o, coros := [coro]), [], events)
  }

  function Up(): Sub {
    In(Flagged(true, true), Online, Serving(Online, NO_CLIENT, Online), multiset{})
  }

  lemma UpReached()
    ensures Up() in Reached({})
  {
    LaunchingReachable(Manual);
    BothStart(Launching(Manual), multiset{});
    assert multiset{} + multiset{StartEvent(0), StartEvent(1)} == multiset{StartEvent(0), StartEvent(1)};
    RunningReachable(Manual, NO_CLIENT, multiset{});
    assert Solo(Running(Manual, NO_CLIENT), [], multiset{}) == [Up()];
    var ns, acts :|
      && Run(ALONE, ns, acts) && ControlRuns.Fresh(ALONE, ns[0]) && ReferenceCounts.AllAccounted(ns[0])
      && ns[|acts|] == [Up()];
    assert Leads(ns, acts, Up(), {});
  }

  // Each state of the run, and the step that leads on from it.

  /** Both processes have died. */
  function Dying(events: multiset<Event>): Sub {
    Up().(events := events)
  }

  lemma Dies(p: ProcId, events: multiset<Event>)
    requires p < 2
    ensures Goto(Dying(events), ProcCrashes(0, p), Dying(events + multiset{StopEvent(p)}))
  {
  }

  lemma BothDie()
    ensures Dying(multiset{StopEvent(0), StopEvent(1)}) in Reached({0, 1})
  {
    UpReached();
    Dies(0, multiset{});
    assert multiset{} + multiset{StopEvent(0)} == multiset{StopEvent(0)};
    Goes(Up(), ProcCrashes(0, 0), {}, Dying(multiset{StopEvent(0)}), {0});
    Dies(1, multiset{StopEvent(0)});
    assert multiset{StopEvent(0)} + multiset{StopEvent(1)} == multiset{StopEvent(0), StopEvent(1)};
    Goes(Dying(multiset{StopEvent(0)}), ProcCrashes(0, 1), {0}, Dying(multiset{StopEvent(0), StopEvent(1)}), {0, 1});
  }

  /** The first stop event has been taken. */
  function FirstTaken(coro: Coro): Sub {
    In(Flagged(false, true), Degraded, coro, multiset{StopEvent(1)})
  }

  lemma TakesFirst()
    ensures Goto(Dying(multiset{StopEvent(0), StopEvent(1)}), DoEvent(0, 0, StopEvent(0), false),
                 FirstTaken(Scheduled(Degraded, NO_CLIENT)))
  {
    var l := Up().l;
    assert Without(l, 0).l.SetRunning(0, false).procs == Flagged(false, true).procs;
    assert multiset{StopEvent(0), StopEvent(1)} - multiset{StopEvent(0)} == multiset{StopEvent(1)};
  }

  lemma EntersDegraded()
    ensures Goto(FirstTaken(Scheduled(Degraded, NO_CLIENT)), DoEntry(0, 0, 0),
                 FirstTaken(Serving(Degraded, NO_CLIENT, Degraded)))
  {
  }

  /** The second stop event has come in Degraded, and the flag has stayed. */
  function Ignored(o: OperState, coro: Coro): Sub {
    In(Flagged(false, true), o, coro, multiset{})
  }

  lemma IgnoresSecond()
    ensures Goto(FirstTaken(Serving(Degraded, NO_CLIENT, Degraded)), DoEvent(0, 0, StopEvent(1), false),
                 Ignored(Degraded, Serving(Degraded, NO_CLIENT, Degraded)))
  {
    assert multiset{StopEvent(1)} - multiset{StopEvent(1)} == multiset{};
  }

  lemma SecondIgnored()
    ensures Ignored(Degraded, Serving(Degraded, NO_CLIENT, Degraded)) in Reached({0, 1})
  {
    BothDie();
    TakesFirst();
    Goes(Dying(multiset{StopEvent(0), StopEvent(1)}), DoEvent(0, 0, StopEvent(0), false), {0, 1},
         FirstTaken(Scheduled(Degraded, NO_CLIENT)), {0, 1});
    EntersDegraded();
    Goes(FirstTaken(Scheduled(Degraded, NO_CLIENT)), DoEntry(0, 0, 0), {0, 1},
         FirstTaken(Serving(Degraded, NO_CLIENT, Degraded)), {0, 1});
    IgnoresSecond();
    Goes(FirstTaken(Serving(Degraded, NO_CLIENT, Degraded)), DoEvent(0, 0, StopEvent(1), false), {0, 1},
         Ignored(Degraded, Serving(Degraded, NO_CLIENT, Degraded)), {0, 1});
  }

  /** A client has sent a start. */
  function Called(): Sub {
    Ignored(Degraded, Serving(Degraded, NO_CLIENT, Degraded)).(queue := [ChangeAdmin(AdminOnline, 0)])
  }

  lemma Calls()
    ensures Goto(Ignored(Degraded, Serving(Degraded, NO_CLIENT, Degraded)), ClientSends(0, ChangeAdmin(AdminOnline, 0)),
                 Called())
  {
  }

  lemma HearsCall()
    ensures Goto(Called(), DoMessage(0, 0), Ignored(StartingChildren, Scheduled(StartingChildren, NO_CLIENT)))
  {
    assert [ChangeAdmin(AdminOnline, 0)][1..] == [];
    var l := Without(Called().l, 0).l;
    assert Repaired(l).procs == Flagged(false, true).procs;
    assert l.clients.Set(NO_CLIENT) == l.clients;
  }

  lemma NoChildren()
    ensures Goto(Ignored(StartingChildren, Scheduled(StartingChildren, NO_CLIENT)), DoEntry(0, 0, 0),
                 Ignored(Connecting, Scheduled(Connecting, NO_CLIENT)))
  {
  }

  lemma StillConnected()
    ensures Goto(Ignored(Connecting, Scheduled(Connecting, NO_CLIENT)), DoEntry(0, 0, 0),
                 Ignored(StartingProcesses, Scheduled(StartingProcesses, NO_CLIENT)))
  {
    var l := Without(Ignored(Connecting, Scheduled(Connecting, NO_CLIENT)).l, 0).l;
    assert ConnectFrom(l, 2) == l;
    assert ConnectFrom(l, 1) == l;
    assert ConnectFrom(l, 0) == l;
  }

  lemma StartsAgain()
    ensures Ignored(StartingProcesses, Scheduled(StartingProcesses, NO_CLIENT)) in Reached({0, 1})
  {
    SecondIgnored();
    Calls();
    Goes(Ignored(Degraded, Serving(Degraded, NO_CLIENT, Degraded)), ClientSends(0, ChangeAdmin(AdminOnline, 0)), {0, 1},
         Called(), {0, 1});
    HearsCall();
    Goes(Called(), DoMessage(0, 0), {0, 1}, Ignored(StartingChildren, Scheduled(StartingChildren, NO_CLIENT)), {0, 1});
    NoChildren();
    Goes(Ignored(StartingChildren, Scheduled(StartingChildren, NO_CLIENT)), DoEntry(0, 0, 0), {0, 1},
         Ignored(Connecting, Scheduled(Connecting, NO_CLIENT)), {0, 1});
    StillConnected();
    Goes(Ignored(Connecting, Scheduled(Connecting, NO_CLIENT)), DoEntry(0, 0, 0), {0, 1},
         Ignored(StartingProcesses, Scheduled(StartingProcesses, NO_CLIENT)), {0, 1});
  }

  /** Only the first process is launched. */
  function OneLaunched(launched: set<ProcId>, events: multiset<Event>): Sub {
    var x := In(Flagged(false, true), StartingProcesses, Serving(StartingProcesses, NO_CLIENT, Online), events);
    x.(l := x.l.(launched := launched))
  }

  lemma LaunchesOne()
    ensures Goto(Ignored(StartingProcesses, Scheduled(StartingProcesses, NO_CLIENT)), DoEntry(0, 0, 2),
                 OneLaunched({0}, multiset{}))
  {
    var l := Ignored(StartingProcesses, Scheduled(StartingProcesses, NO_CLIENT)).l;
    assert RunEntry(l, 0, NOBODY, 2).l.launched == {0};
  }

  lemma OneStarts()
    ensures Goto(OneLaunched({0}, multiset{}), ProcStarts(0, 0), OneLaunched({}, multiset{StartEvent(0)}))
  {
    assert multiset{} + multiset{StartEvent(0)} == multiset{StartEvent(0)};
  }

  function Nearly(): Sub {
    In(Flagged(true, true), Online, Scheduled(Online, NO_CLIENT), multiset{})
  }

  lemma StartComes()
    ensures Goto(OneLaunched({}, multiset{StartEvent(0)}), DoEvent(0, 0, StartEvent(0), false), Nearly())
  {
    var r := Without(OneLaunched({}, multiset{StartEvent(0)}).l, 0).l.SetRunning(0, true);
    assert r.procs == Flagged(true, true).procs;
    assert r.AllRunning();
    assert multiset{StartEvent(0)} - multiset{StartEvent(0)} == multiset{};
  }

  lemma EntersOnline()
    ensures Goto(Nearly(), DoEntry(0, 0, 0), Up())
  {
  }

  lemma NearlyReached()
    ensures Nearly() in Reached({1})
  {
    StartsAgain();
    LaunchesOne();
    Goes(Ignored(StartingProcesses, Scheduled(StartingProcesses, NO_CLIENT)), DoEntry(0, 0, 2), {0, 1},
         OneLaunched({0}, multiset{}), {0, 1});
    OneStarts();
    Goes(OneLaunched({0}, multiset{}), ProcStarts(0, 0), {0, 1}, OneLaunched({}, multiset{StartEvent(0)}), {1});
    StartComes();
    Goes(OneLaunched({}, multiset{StartEvent(0)}), DoEvent(0, 0, StartEvent(0), false), {1}, Nearly(), {1});
  }

  lemma UpLies()
    ensures 1 < |Up().l.procs| && Up().l.AllRunning()
    ensures forall alive: set<ProcId> | alive !! {1} :: !Honest(Up(), alive)
  {
    assert Up().l.procs[1].running;
  }

  /**
   * Two crashes and a start later the subsystem is Online again: nothing is on its way, both processes
   * are flagged as running, and the second one is dead.
   */
  lemma OnlineWithDeadReachable() returns (x: Sub)
    ensures x in Reached({1}) && 1 < |x.l.procs|
    ensures x.l.oper == Online && x.l.AllRunning() && x.queue == [] && x.events == multiset{} && x.l.launched == {}
    ensures forall alive: set<ProcId> | alive !! {1} :: !Honest(x, alive)
  {
    x := Up();
    UpLies();
    NearlyReached();
    EntersOnline();
    Goes(Nearly(), DoEntry(0, 0, 0), {1}, x, {1});
  }
}
