/**
 * The restart after one crash, for a subsystem without parents and children: every run of it ends, and
 * it ends Online exactly when the crashed process shares its compute with no other.
 */
module LoneRestart {
  import opened States
  import opened ClientBits
  import opened Umbilicals
  import opened SubsystemModel
  import opened Network
  import opened Alone
  import opened OwedEvents
  import opened CommandSteps
  import ReferenceCounts

  /** Another process runs on the same compute. */
  predicate Shared(l: Local, p: ProcId)
    requires p < |l.procs|
  {
    exists q :: 0 <= q < |l.procs| && q != p && l.procs[q].compute == l.procs[p].compute
  }

  // ---------------------------------------------------------------- the runs considered

  /** Launches succeed, connections are made, and no process stops unless it was asked to. */
  predicate RestartAction(x: Sub, a: Action) {
    match a
    case DoEntry(_, _, launch) => launch >= |x.l.procs|
    case DoMessage(_, _) => true
    case DoEvent(_, _, _, aborting) => !aborting
    case DoExpire(_, _) => true
    case LinkUp(_, _) => true
    case ProcStarts(_, _) => true
    case ProcStops(_, _) => true
    case _ => false
  }

  function Next(x: Sub, a: Action): Sub
    requires EnabledAt(x, a)
  {
    if ByCoroutine(a) then
      Sub(Turn(x, NOBODY, a).l,
          if a.DoMessage? then x.queue[1..] else x.queue,
          if a.DoEvent? then x.events - multiset{a.v} else x.events)
    else Surround(x, a)
  }

  lemma StepsAlone(x: Sub, a: Action)
    requires EnabledAt(x, a) && a.s == 0
    ensures Enabled([x], a) && Apply(ALONE, [x], a) == [Next(x, a)]
  {
    SeesNobody([x]);
  }

  // ---------------------------------------------------------------- the phases of a restart

  predicate AllHeld(l: Local) {
    forall q | 0 <= q < |l.procs| :: l.procs[q].maybeConnected
  }

  /** The crashed process has given its connection back. */
  predicate HeldButOne(l: Local, p: ProcId) {
    forall q | 0 <= q < |l.procs| :: l.procs[q].maybeConnected <==> q != p
  }

  /** All computes but that of the crashed process are connected. */
  predicate OthersLinked(l: Local, p: ProcId)
    requires p < |l.procs|
  {
    && l.procs[p].compute in l.umbilicals
    && forall q | 0 <= q < |l.procs| ::
         && l.procs[q].compute in l.umbilicals
         && (l.procs[q].compute != l.procs[p].compute ==> l.umbilicals[l.procs[q].compute].IsConnected())
  }

  function Own(l: Local, p: ProcId): Umb
    requires p < |l.procs| && l.procs[p].compute in l.umbilicals
  {
    l.umbilicals[l.procs[p].compute]
  }

  /** What a stop leaves of the connections: p has given its own back, unless the subsystem has no other process. */
  predicate Unlinked(l: Local, p: ProcId)
    requires p < |l.procs| && OthersLinked(l, p)
  {
    || (|l.procs| == 1 && AllHeld(l) && Own(l, p).IsConnected())
    || (HeldButOne(l, p) && if Shared(l, p) then Own(l, p).IsConnected() else Own(l, p).state == LinkClosed)
  }

  predicate Linked(l: Local, p: ProcId)
    requires p < |l.procs| && OthersLinked(l, p)
  {
    AllHeld(l) && Own(l, p).IsConnected()
  }

  predicate Still(x: Sub) {
    x.l.launched == {} && x.l.stopRequested == {} && x.l.connectors == {} && x.events == multiset{}
  }

  /** Process p has crashed, and its stop is the only thing on its way. */
  ghost predicate Crashing(x: Sub, p: ProcId)
    requires p < |x.l.procs| && OthersLinked(x.l, p)
  {
    && x.l.oper == Online && x.l.AllRunning() && Linked(x.l, p) && ReferenceCounts.Accounted(x.l)
    && x.l.policy == Automatic && x.l.numRestarts != x.l.maxRestarts
    && Still(x.(events := multiset{})) && x.events == multiset{StopEvent(p)}
  }

  ghost predicate Waits(x: Sub, p: ProcId)
    requires p < |x.l.procs| && OthersLinked(x.l, p)
  {
    && (forall q | 0 <= q < |x.l.procs| :: x.l.procs[q].running <==> q != p)
    && Linked(x.l, p) && ReferenceCounts.Accounted(x.l) && Still(x)
  }

  /** The other processes are being stopped. */
  predicate Stops(x: Sub, p: ProcId)
    requires p < |x.l.procs| && OthersLinked(x.l, p)
  {
    && |x.l.procs| > 1 && Unlinked(x.l, p) && x.l.connectors == {} && StopsOwed(x.l, x.events) && !x.l.AllStopped()
    && (forall v | v in x.events :: v.StopEvent?)
    && forall q | 0 <= q < |x.l.procs| && x.l.procs[q].running :: q in x.l.stopRequested || StopEvent(q) in x.events
  }

  predicate Stopped(x: Sub, p: ProcId)
    requires p < |x.l.procs| && OthersLinked(x.l, p)
  {
    x.l.AllStopped() && Unlinked(x.l, p) && Still(x)
  }

  /** The connection of the crashed process is being made, unless nobody makes it. */
  predicate Connects(x: Sub, p: ProcId)
    requires p < |x.l.procs| && OthersLinked(x.l, p)
  {
    && x.l.AllStopped() && AllHeld(x.l) && x.l.launched == {} && x.l.stopRequested == {}
    && if Own(x.l, p).IsConnected() then
         !Shared(x.l, p) && x.l.connectors == {} && x.events == multiset{ConnectEvent(x.l.procs[p].compute)}
       else
         && Own(x.l, p).state == LinkConnecting && x.events == multiset{}
         && x.l.connectors == if Shared(x.l, p) then {} else {x.l.procs[p].compute}
  }

  /** Nothing is on its way, but perhaps late news of a connection. */
  predicate Settled(x: Sub) {
    && x.l.launched == {} && x.l.stopRequested == {} && x.l.connectors == {}
    && forall v | v in x.events :: v.ConnectEvent?
  }

  predicate Connected(x: Sub, p: ProcId)
    requires p < |x.l.procs| && OthersLinked(x.l, p)
  {
    x.l.AllStopped() && Linked(x.l, p) && Settled(x) && |x.events| <= 1 && !Shared(x.l, p)
  }

  predicate Starts(x: Sub, p: ProcId)
    requires p < |x.l.procs| && OthersLinked(x.l, p)
  {
    && Linked(x.l, p) && x.l.connectors == {} && StartsOwed(x.l, x.events) && !x.l.AllRunning() && !Shared(x.l, p)
    && (forall v | v in x.events :: v.StartEvent? || v.ConnectEvent?)
    && forall q | 0 <= q < |x.l.procs| && !x.l.procs[q].running :: q in x.l.launched || StartEvent(q) in x.events
  }

  /** All is as before the crash. */
  predicate Recovered(x: Sub, p: ProcId)
    requires p < |x.l.procs| && OthersLinked(x.l, p)
  {
    x.l.AllRunning() && Linked(x.l, p) && Settled(x) && !Shared(x.l, p)
  }

  /** How far the restart has come, by what the coroutine is doing. */
  function Stage(x: Sub): nat
    requires x.l.coros != []
  {
    match x.l.coros[0]
    case RestartWait(_) => 1
    case LaunchSleep(_) => 0
    case Scheduled(o, _) =>
      (match o
       case Restarting => 2
       case StartingChildren => 4
       case Connecting => 5
       case StartingProcesses => 7
       case Online => 9
       case _ => 0)
    case Live(o, _, _, _, _, _) =>
      (match o
       case Restarting => 3
       case Connecting => 6
       case StartingProcesses => 8
       case Online => if Settled(x) then 10 else 0
       case _ => 0)
  }

  /** What is still on its way, a step that has two parts counting twice. */
  function Pending(x: Sub): nat {
    2 * |x.l.launched| + 2 * |x.l.stopRequested| + 2 * |x.l.connectors| + |x.events|
  }

  function Measure(x: Sub): int
    requires x.l.coros != []
  {
    (10 - Stage(x)) * (2 * |x.l.procs| + 3) + Pending(x)
  }

  /** The invariant: one coroutine, and the facts of its stage. */
  ghost predicate Restarts(x: Sub, p: ProcId) {
    && |x.l.coros| == 1 && x.queue == [] && !x.l.critical && x.l.admin == AdminOnline
    && p < |x.l.procs| && OthersLinked(x.l, p)
    && (x.l.coros[0].Scheduled? || x.l.coros[0].Live? ==> x.l.coros[0].state == x.l.oper)
    && Pending(x) <= 2 * |x.l.procs| + 2
    && match x.l.coros[0]
       case RestartWait(_) => Waits(x, p)
       case LaunchSleep(_) => false
       case Scheduled(o, _) =>
         (match o
          case Restarting => Waits(x, p)
          case StartingChildren => Stopped(x, p)
          case Connecting => Stopped(x, p)
          case StartingProcesses => Connected(x, p)
          case Online => Recovered(x, p)
          case _ => false)
       case Live(o, _, next, _, _, _) =>
         (match o
          case Restarting => Stops(x, p)
          case Connecting => Connects(x, p)
          case StartingProcesses => next == Online && Starts(x, p)
          case Online => Crashing(x, p) || Recovered(x, p)
          case _ => false)
  }

  predicate SameComputes(l: Local, r: Local) {
    |r.procs| == |l.procs| && forall q | 0 <= q < |l.procs| :: r.procs[q].compute == l.procs[q].compute
  }

  lemma SharedAlike(l: Local, r: Local, p: ProcId)
    requires SameComputes(l, r) && p < |l.procs|
    ensures Shared(l, p) <==> Shared(r, p)
  {
    forall q | 0 <= q < |l.procs| ensures l.procs[q].compute == l.procs[p].compute <==> r.procs[q].compute == r.procs[p].compute {
    }
  }

  /** A step comes nearer to the end of the restart. */
  predicate Nearer(x: Sub, y: Sub)
    requires x.l.coros != [] && y.l.coros != []
  {
    Stage(y) > Stage(x) || (Stage(y) == Stage(x) && Pending(y) < Pending(x))
  }

  /** A step goes on with the restart. */
  ghost predicate Advances(x: Sub, y: Sub, p: ProcId)
    requires x.l.coros != []
  {
    Restarts(y, p) && SameComputes(x.l, y.l) && Nearer(x, y)
  }

  // ---------------------------------------------------------------- the loops

  lemma {:induction false} UsersNone(procs: seq<Proc>, k: ComputeId)
    requires forall q | 0 <= q < |procs| :: !(procs[q].maybeConnected && procs[q].compute == k)
    ensures ReferenceCounts.Users(procs, k) == 0
  {
    if procs != [] {
      UsersNone(procs[..|procs|-1], k);
    }
  }

  lemma {:induction false} UsersSome(procs: seq<Proc>, k: ComputeId, q: ProcId)
    requires q < |procs| && procs[q].maybeConnected && procs[q].compute == k
    ensures ReferenceCounts.Users(procs, k) > 0
  {
    if q < |procs| - 1 {
      UsersSome(procs[..|procs|-1], k, q);
    }
  }

  /** When the crashed process gives its connection back, others hold it exactly if they share its compute. */
  lemma OwnDisconnected(l: Local, p: ProcId)
    requires p < |l.procs| && OthersLinked(l, p) && Linked(l, p) && ReferenceCounts.Accounted(l)
    ensures Own(l, p).Disconnect(false).state == if Shared(l, p) then LinkConnected else LinkClosed
    ensures Shared(l, p) ==> Own(l, p).Disconnect(false).IsConnected()
  {
    var k := l.procs[p].compute;
    var gone := l.procs[p].(maybeConnected := false);
    ReferenceCounts.UsersUpdate(l.procs, p, gone, k);
    var rest := l.procs[p := gone];
    if Shared(l, p) {
      var q :| 0 <= q < |l.procs| && q != p && l.procs[q].compute == k;
      assert rest[q] == l.procs[q];
      UsersSome(rest, k, q);
    } else {
      UsersNone(rest, k);
    }
  }

  /** Stopping from process i on, when all run but p. */
  ghost predicate StoppedFrom(l: Local, r: Local, p: ProcId, i: ProcId)
    requires p < |l.procs| && l.procs[p].compute in l.umbilicals
  {
    && SameControl(l, r) && SameRunning(l, r) && r.connectors == l.connectors
    && (forall q | 0 <= q < |l.procs| ::
          && r.procs[q].compute == l.procs[q].compute
          && (r.procs[q].maybeConnected <==> l.procs[q].maybeConnected && !(q == p && i <= p)))
    && r.umbilicals == if i <= p && l.procs[p].maybeConnected
                       then l.umbilicals[l.procs[p].compute := Own(l, p).Disconnect(false)] else l.umbilicals
  }

  lemma StopsOthers(l: Local, p: ProcId, i: ProcId)
    requires p < |l.procs| && l.procs[p].compute in l.umbilicals
    requires forall q | 0 <= q < |l.procs| :: l.procs[q].running <==> q != p
    ensures StoppedFrom(l, StopFrom(l, i), p, i)
    decreases |l.procs| - i
  {
    if i < |l.procs| {
      StopsOthers(StopProcess(l, i), p, i + 1);
    }
  }

  /** Connecting from process i on, when all others hold their connections. */
  lemma ConnectsOne(l: Local, p: ProcId, i: ProcId)
    requires p < |l.procs| && forall q | 0 <= q < |l.procs| && q != p :: l.procs[q].maybeConnected
    ensures ConnectFrom(l, i) == if i <= p then ConnectProcess(l, p) else l
    decreases |l.procs| - i
  {
    if i < |l.procs| {
      ConnectsOne(ConnectProcess(l, i), p, i + 1);
    }
  }

  lemma {:induction false} FewProcesses(ps: set<ProcId>, n: nat)
    requires forall p | p in ps :: p < n
    ensures |ps| <= n
  {
    if n > 0 {
      FewProcesses(ps - {n - 1}, n - 1);
      assert ps <= (ps - {n - 1}) + {n - 1};
    } else {
      assert ps == {};
    }
  }

  // ---------------------------------------------------------------- each step

  ghost predicate Steps(x: Sub, a: Action, p: ProcId) {
    Restarts(x, p) && EnabledAt(x, a) && RestartAction(x, a)
  }

  lemma CrashMarked(l: Local, p: ProcId, r: Local)
    requires p < |l.procs| && OthersLinked(l, p) && Linked(l, p) && ReferenceCounts.Accounted(l) && l.AllRunning()
    requires r.procs == l.procs[p := l.procs[p].(running := false)] && r.umbilicals == l.umbilicals
    ensures SameComputes(l, r) && OthersLinked(r, p) && Linked(r, p) && ReferenceCounts.Accounted(r)
    ensures forall q | 0 <= q < |r.procs| :: r.procs[q].running <==> q != p
  {
    ReferenceCounts.WiresKept(l, r);
  }

  lemma CrashTaken(x: Sub, p: ProcId)
    requires Restarts(x, p) && x.l.coros[0].Live? && x.l.oper == Online && Crashing(x, p)
    ensures var a := DoEvent(0, 0, StopEvent(p), false); EnabledAt(x, a) && Advances(x, Next(x, a), p)
  {
    var a := DoEvent(0, 0, StopEvent(p), false);
    var y := Next(x, a);
    assert y.l == ChargeRestart(x.l.SetRunning(p, false)).(coros := [RestartWait(x.l.coros[0].client)]);
    CrashMarked(x.l, p, y.l);
    assert y.events == multiset{};
  }

  lemma WaitOver(x: Sub, a: Action, p: ProcId)
    requires Steps(x, a, p) && x.l.coros[0].RestartWait?
    ensures Advances(x, Next(x, a), p)
  {
    var y := Next(x, a);
    assert y == Sub(x.l.(oper := Restarting, coros := [Scheduled(Restarting, x.l.coros[0].client)]), [], x.events);
    assert Waits(y, p);
  }

  /** What stopping leaves of the connections. */
  lemma OthersStopped(l: Local, r: Local, p: ProcId)
    requires p < |l.procs| && OthersLinked(l, p) && Linked(l, p) && ReferenceCounts.Accounted(l)
    requires StoppedFrom(l, r, p, 0)
    ensures SameComputes(l, r) && OthersLinked(r, p) && Unlinked(r, p)
  {
    OwnDisconnected(l, p);
    SharedAlike(l, r, p);
  }

  lemma OthersAsked(l: Local, r: Local, p: ProcId)
    requires p < |l.procs| && |l.procs| > 1 && l.launched == {} && l.connectors == {} && l.stopRequested == {}
    requires forall q | 0 <= q < |l.procs| :: l.procs[q].running <==> q != p
    requires SameControl(l, r) && SameRunning(l, r) && r.connectors == l.connectors
    requires forall q: ProcId :: q in r.stopRequested <==> q < |l.procs| && l.procs[q].running
    ensures StopsOwed(r, multiset{}) && !r.AllStopped()
    ensures |r.stopRequested| <= |r.procs|
  {
    FewProcesses(r.stopRequested, |l.procs|);
    var other := if p == 0 then 1 else 0;
    assert r.procs[other].running;
  }

  lemma StopsEntered(x: Sub, p: ProcId, r: Local, y: Sub)
    requires Restarts(x, p) && x.l.coros[0].Scheduled? && x.l.oper == Restarting && |x.l.procs| > 1
    requires SameComputes(x.l, r) && OthersLinked(r, p) && Unlinked(r, p) && StopsOwed(r, multiset{}) && !r.AllStopped()
    requires forall q: ProcId :: q in r.stopRequested <==> q < |r.procs| && r.procs[q].running
    requires SameControl(Without(x.l, 0).l, r) && r.connectors == {} && |r.stopRequested| <= |r.procs|
    requires y == Sub(r.(coros := [Serving(Restarting, x.l.coros[0].client, Restarting)]), [], multiset{})
    ensures Advances(x, y, p)
  {
    SharedAlike(r, y.l, p);
    assert Stops(y, p);
  }

  lemma StopsAll(x: Sub, p: ProcId, y: Sub)
    requires Restarts(x, p) && x.l.coros[0].Scheduled? && x.l.oper == Restarting && |x.l.procs| > 1
    requires y == Sub(StopFrom(Without(x.l, 0).l, 0).(coros := [Serving(Restarting, x.l.coros[0].client, Restarting)]), [],
                      multiset{})
    ensures Advances(x, y, p)
  {
    var l := Without(x.l, 0).l;
    var r := StopFrom(l, 0);
    StopsOthers(l, p, 0);
    StopFromAsks(l, 0);
    OthersStopped(l, r, p);
    OthersAsked(l, r, p);
    StopsEntered(x, p, r, y);
  }

  lemma RestartBegins(l: Local, launch: nat, c: ClientId)
    requires l.coros == [Scheduled(Restarting, c)]
    ensures RunEntry(l, 0, NOBODY, launch).l ==
      if l.AllStopped() then l.(oper := StartingChildren, coros := [Scheduled(StartingChildren, c)])
      else StopFrom(Without(l, 0).l, 0).(coros := [Serving(Restarting, c, Restarting)])
  {
    StopFromControl(Without(l, 0).l, 0);
  }

  lemma RestartEntered(x: Sub, a: Action, p: ProcId)
    requires Steps(x, a, p) && x.l.coros[0].Scheduled? && x.l.oper == Restarting
    ensures Advances(x, Next(x, a), p)
  {
    RestartBegins(x.l, a.launch, x.l.coros[0].client);
    if |x.l.procs| > 1 {
      assert x.l.procs[if p == 0 then 1 else 0].running;
      StopsAll(x, p, Next(x, a));
    } else {
      assert x.l.AllStopped();
    }
  }

  lemma StopAsked(x: Sub, a: Action, p: ProcId)
    requires Restarts(x, p) && x.l.coros[0].Live? && x.l.oper == Restarting && EnabledAt(x, a) && a.ProcStops?
    ensures Advances(x, Surround(x, a), p)
  {
    assert |x.l.stopRequested - {a.p}| == |x.l.stopRequested| - 1;
  }

  /** A process has stopped. */
  ghost predicate StopOf(x: Sub, q: ProcId, p: ProcId, y: Sub) {
    && p < |x.l.procs| && OthersLinked(x.l, p) && Stops(x, p) && StopEvent(q) in x.events
    && y == Sub(x.l.SetRunning(q, false), [], x.events - multiset{StopEvent(q)})
  }

  lemma StopMarked(x: Sub, q: ProcId, p: ProcId, y: Sub)
    requires StopOf(x, q, p, y)
    ensures SameComputes(x.l, y.l) && OthersLinked(y.l, p) && Unlinked(y.l, p)
    ensures Pending(y) == Pending(x) - 1
  {
    SharedAlike(x.l, y.l, p);
    assert |y.events| == |x.events| - 1;
  }

  lemma OthersRun(x: Sub, q: ProcId, p: ProcId, y: Sub)
    requires StopOf(x, q, p, y) && !y.l.AllStopped() && OthersLinked(y.l, p) && Unlinked(y.l, p)
    ensures Stops(y, p)
  {
    assert forall v :: v in y.events ==> v in x.events;
  }

  /** Whatever stop is still owed is that of a process that still runs. */
  lemma StopsStillOwed(x: Sub, q: ProcId, p: ProcId, y: Sub)
    requires StopOf(x, q, p, y)
    ensures forall s | s in y.l.stopRequested :: s < |y.l.procs| && y.l.procs[s].running
    ensures forall v | v in y.events :: v.StopEvent? && v.proc < |y.l.procs| && y.l.procs[v.proc].running
  {
    forall v | v in y.events ensures v.StopEvent? && v.proc < |y.l.procs| && y.l.procs[v.proc].running {
      assert v in x.events && v != StopEvent(q);
    }
  }

  lemma LastStopped(x: Sub, q: ProcId, p: ProcId, y: Sub)
    requires StopOf(x, q, p, y) && y.l.AllStopped() && OthersLinked(y.l, p) && Unlinked(y.l, p)
    ensures Stopped(y, p)
  {
    StopsStillOwed(x, q, p, y);
    assert y.l.stopRequested == {} && y.events == multiset{};
  }

  lemma StopTurn(l: Local, q: ProcId, t: Coro)
    requires l.coros == [t] && t.Live? && t.state == Restarting
    ensures var z := l.SetRunning(q, false);
      TakeEvent(l, 0, NOBODY, StopEvent(q), false).l ==
        if z.AllStopped() then z.(oper := StartingChildren, coros := [Scheduled(StartingChildren, t.client)]) else z
  {
    assert Without(l, 0).l.SetRunning(q, false) == l.SetRunning(q, false).(coros := []);
  }

  lemma StopTaken(x: Sub, a: Action, p: ProcId)
    requires Steps(x, a, p) && x.l.coros[0].Live? && x.l.oper == Restarting && a.DoEvent?
    ensures Advances(x, Next(x, a), p)
  {
    var q := a.v.proc;
    var z := Sub(x.l.SetRunning(q, false), [], x.events - multiset{a.v});
    StopMarked(x, q, p, z);
    StopTurn(x.l, q, x.l.coros[0]);
    if z.l.AllStopped() {
      LastStopped(x, q, p, z);
      StopsEnd(x, p, z, Next(x, a));
    } else {
      OthersRun(x, q, p, z);
      StopsGoOn(x, p, z, Next(x, a));
    }
  }

  lemma StopsEnd(x: Sub, p: ProcId, z: Sub, y: Sub)
    requires |x.l.coros| == 1 && x.l.coros[0].Live? && x.l.coros[0].state == x.l.oper
    requires Pending(x) <= 2 * |x.l.procs| + 2
    requires x.l.oper == Restarting && SameComputes(x.l, z.l)
    requires p < |z.l.procs| && OthersLinked(z.l, p) && Stopped(z, p) && !z.l.critical && z.l.admin == AdminOnline
    requires y == Sub(z.l.(oper := StartingChildren, coros := [Scheduled(StartingChildren, x.l.coros[0].client)]), [], z.events)
    ensures Advances(x, y, p)
  {
    SharedAlike(z.l, y.l, p);
    assert Stopped(y, p);
  }

  lemma StopsGoOn(x: Sub, p: ProcId, z: Sub, y: Sub)
    requires |x.l.coros| == 1 && x.l.coros[0].Live? && x.l.coros[0].state == x.l.oper
    requires Pending(x) <= 2 * |x.l.procs| + 2
    requires x.l.oper == Restarting && SameComputes(x.l, z.l)
    requires p < |z.l.procs| && OthersLinked(z.l, p) && Stops(z, p) && !z.l.critical && z.l.admin == AdminOnline
    requires Pending(z) < Pending(x) && y == Sub(z.l.(oper := Restarting, coros := [x.l.coros[0]]), [], z.events)
    ensures Advances(x, y, p)
  {
    SharedAlike(z.l, y.l, p);
    assert Stops(y, p);
  }

  lemma NoChildrenToStart(x: Sub, a: Action, p: ProcId)
    requires Steps(x, a, p) && x.l.coros[0].Scheduled? && x.l.oper == StartingChildren
    ensures Advances(x, Next(x, a), p)
  {
  }

  lemma ConnectionBegins(l: Local, launch: nat, c: ClientId, p: ProcId)
    requires l.coros == [Scheduled(Connecting, c)] && l.oper == Connecting && p < |l.procs|
    requires forall q | 0 <= q < |l.procs| && q != p :: l.procs[q].maybeConnected
    ensures var l1 := ConnectProcess(Without(l, 0).l, p);
      RunEntry(l, 0, NOBODY, launch).l ==
        if l1.AllConnected() then l1.(oper := StartingProcesses, coros := [Scheduled(StartingProcesses, c)])
        else l1.(coros := [Serving(Connecting, c, Connecting)])
  {
    ConnectsOne(Without(l, 0).l.(oper := Connecting), p, 0);
  }

  /** A process alone in its subsystem has kept its connection. */
  lemma ConnectsKept(x: Sub, p: ProcId, l1: Local)
    requires p < |x.l.procs| && OthersLinked(x.l, p) && Stopped(x, p) && AllHeld(x.l)
    requires l1 == ConnectProcess(x.l, p)
    ensures l1 == x.l && l1.AllConnected() && !Shared(x.l, p)
  {
  }

  /** Otherwise its umbilical goes back to connecting, and only a closed one is connected by somebody. */
  lemma ConnectsOwn(x: Sub, p: ProcId, l1: Local)
    requires p < |x.l.procs| && OthersLinked(x.l, p) && Stopped(x, p) && !AllHeld(x.l)
    requires l1 == ConnectProcess(x.l, p)
    ensures SameComputes(x.l, l1) && OthersLinked(l1, p) && !l1.AllConnected() && AllHeld(l1) && l1.AllStopped()
    ensures Own(l1, p).state == LinkConnecting
    ensures l1.connectors == if Shared(x.l, p) then {} else {x.l.procs[p].compute}
  {
    var k := x.l.procs[p].compute;
    assert l1.umbilicals == x.l.umbilicals[k := x.l.umbilicals[k].Precondition()];
    assert !l1.umbilicals[l1.procs[p].compute].IsConnected();
  }

  lemma ConnectsEntered(x: Sub, p: ProcId, l1: Local, y: Sub)
    requires Restarts(x, p) && x.l.coros[0].Scheduled? && x.l.oper == Connecting
    requires l1 == x.l.(procs := l1.procs, umbilicals := l1.umbilicals, connectors := l1.connectors)
    requires SameComputes(x.l, l1) && OthersLinked(l1, p) && AllHeld(l1) && l1.AllStopped()
    requires Own(l1, p).state == LinkConnecting
    requires l1.connectors == if Shared(x.l, p) then {} else {x.l.procs[p].compute}
    requires y == Sub(l1.(coros := [Serving(Connecting, x.l.coros[0].client, Connecting)]), [], multiset{})
    ensures Advances(x, y, p)
  {
    SharedAlike(x.l, y.l, p);
    assert Connects(y, p);
  }

  lemma ConnectsPassed(x: Sub, p: ProcId, y: Sub)
    requires Restarts(x, p) && x.l.coros[0].Scheduled? && x.l.oper == Connecting && AllHeld(x.l)
    requires y == Sub(x.l.(oper := StartingProcesses, coros := [Scheduled(StartingProcesses, x.l.coros[0].client)]), [],
                      multiset{})
    ensures Advances(x, y, p)
  {
    SharedAlike(x.l, y.l, p);
  }

  lemma ConnectsAgain(x: Sub, a: Action, p: ProcId)
    requires Steps(x, a, p) && x.l.coros[0].Scheduled? && x.l.oper == Connecting
    ensures Advances(x, Next(x, a), p)
  {
    ConnectionBegins(x.l, a.launch, x.l.coros[0].client, p);
    var l1 := ConnectProcess(x.l, p);
    assert ConnectProcess(Without(x.l, 0).l, p) == l1.(coros := []);
    if AllHeld(x.l) {
      ConnectsKept(x, p, l1);
      ConnectsPassed(x, p, Next(x, a));
    } else {
      ConnectsOwn(x, p, l1);
      ConnectsEntered(x, p, l1, Next(x, a));
    }
  }

  lemma LinkMade(x: Sub, a: Action, p: ProcId)
    requires Restarts(x, p) && x.l.coros[0].Live? && x.l.oper == Connecting && EnabledAt(x, a) && a.LinkUp?
    ensures Advances(x, Surround(x, a), p)
  {
    SharedAlike(x.l, Surround(x, a).l, p);
  }

  lemma LinkTaken(x: Sub, a: Action, p: ProcId)
    requires Steps(x, a, p) && x.l.coros[0].Live? && x.l.oper == Connecting && a.DoEvent?
    ensures Advances(x, Next(x, a), p)
  {
    var y := Next(x, a);
    assert x.l.AllConnected() && a.v == ConnectEvent(x.l.procs[p].compute);
    assert y == Sub(x.l.(oper := StartingProcesses, coros := [Scheduled(StartingProcesses, x.l.coros[0].client)]), [],
                    multiset{});
    SharedAlike(x.l, y.l, p);
  }

  lemma LaunchTurn(l: Local, launch: nat, c: ClientId) returns (ps: set<ProcId>)
    requires l.coros == [Scheduled(StartingProcesses, c)] && l.oper == StartingProcesses && l.admin == AdminOnline
    requires l.procs != [] && l.AllStopped() && l.launched == {} && launch >= |l.procs|
    ensures forall p: ProcId :: p in ps <==> p < |l.procs|
    ensures |ps| <= |l.procs|
    ensures RunEntry(l, 0, NOBODY, launch).l == l.(launched := ps, coros := [Serving(StartingProcesses, c, Online)])
  {
    ps := RunEntry(l, 0, NOBODY, launch).l.launched;
    FewProcesses(ps, |l.procs|);
  }

  lemma LaunchesEntered(x: Sub, p: ProcId, ps: set<ProcId>, y: Sub)
    requires Restarts(x, p) && x.l.coros[0].Scheduled? && x.l.oper == StartingProcesses
    requires (forall q: ProcId :: q in ps <==> q < |x.l.procs|) && |ps| <= |x.l.procs|
    requires y == Sub(x.l.(launched := ps, coros := [Serving(StartingProcesses, x.l.coros[0].client, Online)]), [], x.events)
    ensures Advances(x, y, p)
  {
    SharedAlike(x.l, y.l, p);
    assert !y.l.procs[p].running;
    assert Starts(y, p);
  }

  lemma LaunchesAll(x: Sub, a: Action, p: ProcId)
    requires Steps(x, a, p) && x.l.coros[0].Scheduled? && x.l.oper == StartingProcesses
    ensures Advances(x, Next(x, a), p)
  {
    var ps := LaunchTurn(x.l, a.launch, x.l.coros[0].client);
    LaunchesEntered(x, p, ps, Next(x, a));
  }

  lemma StartMade(x: Sub, a: Action, p: ProcId)
    requires Restarts(x, p) && x.l.coros[0].Live? && x.l.oper == StartingProcesses && EnabledAt(x, a) && a.ProcStarts?
    ensures Advances(x, Surround(x, a), p)
  {
    assert |x.l.launched - {a.p}| == |x.l.launched| - 1;
  }

  /** A process has started. */
  ghost predicate StartOf(x: Sub, q: ProcId, p: ProcId, y: Sub) {
    && p < |x.l.procs| && OthersLinked(x.l, p) && Starts(x, p) && StartEvent(q) in x.events
    && y == Sub(x.l.SetRunning(q, true), [], x.events - multiset{StartEvent(q)})
  }

  lemma StartMarked(x: Sub, q: ProcId, p: ProcId, y: Sub)
    requires StartOf(x, q, p, y)
    ensures SameComputes(x.l, y.l) && OthersLinked(y.l, p) && Linked(y.l, p) && !Shared(y.l, p)
    ensures Pending(y) == Pending(x) - 1
  {
    SharedAlike(x.l, y.l, p);
    assert |y.events| == |x.events| - 1;
  }

  lemma OthersStart(x: Sub, q: ProcId, p: ProcId, y: Sub)
    requires StartOf(x, q, p, y) && !y.l.AllRunning() && OthersLinked(y.l, p) && Linked(y.l, p) && !Shared(y.l, p)
    ensures Starts(y, p)
  {
    assert forall v :: v in y.events ==> v in x.events;
  }

  /** Whatever start is still owed is that of a process that does not run yet. */
  lemma StartsStillOwed(x: Sub, q: ProcId, p: ProcId, y: Sub)
    requires StartOf(x, q, p, y)
    ensures forall s | s in y.l.launched :: s < |y.l.procs| && !y.l.procs[s].running
    ensures forall v | v in y.events ::
      v.ConnectEvent? || (v.StartEvent? && v.proc < |y.l.procs| && !y.l.procs[v.proc].running)
  {
    forall v | v in y.events ensures v.ConnectEvent? || (v.StartEvent? && v.proc < |y.l.procs| && !y.l.procs[v.proc].running) {
      assert v in x.events && v != StartEvent(q);
    }
  }

  lemma LastStarted(x: Sub, q: ProcId, p: ProcId, y: Sub)
    requires StartOf(x, q, p, y) && y.l.AllRunning() && OthersLinked(y.l, p) && Linked(y.l, p) && !Shared(y.l, p)
    ensures Recovered(y, p)
  {
    StartsStillOwed(x, q, p, y);
    assert y.l.launched == {} && forall v | v in y.events :: v.ConnectEvent?;
  }

  lemma StartTurn(l: Local, q: ProcId, t: Coro)
    requires l.coros == [t] && t.Live? && t.state == StartingProcesses && t.next == Online
    ensures var z := l.SetRunning(q, true);
      TakeEvent(l, 0, NOBODY, StartEvent(q), false).l ==
        if z.AllRunning() then z.(oper := Online, coros := [Scheduled(Online, t.client)]) else z
  {
    assert Without(l, 0).l.SetRunning(q, true) == l.SetRunning(q, true).(coros := []);
  }

  /** Late news of a connection changes nothing. */
  lemma LateLink(x: Sub, a: Action, p: ProcId)
    requires Steps(x, a, p) && x.l.coros[0].Live? && a.DoEvent? && a.v.ConnectEvent?
    requires x.l.oper == StartingProcesses || x.l.oper == Online
    ensures Advances(x, Next(x, a), p)
  {
    var y := Next(x, a);
    assert y == Sub(x.l, [], x.events - multiset{a.v});
    assert |y.events| == |x.events| - 1 && forall v | v in y.events :: v in x.events;
    if x.l.oper == Online {
      assert Recovered(y, p);
    } else {
      assert Starts(y, p);
    }
  }

  lemma StartTaken(x: Sub, a: Action, p: ProcId)
    requires Steps(x, a, p) && x.l.coros[0].Live? && x.l.oper == StartingProcesses && a.DoEvent?
    ensures Advances(x, Next(x, a), p)
  {
    if a.v.ConnectEvent? {
      LateLink(x, a, p);
      return;
    }
    var q := a.v.proc;
    var z := Sub(x.l.SetRunning(q, true), [], x.events - multiset{a.v});
    StartMarked(x, q, p, z);
    StartTurn(x.l, q, x.l.coros[0]);
    if z.l.AllRunning() {
      LastStarted(x, q, p, z);
      StartsEnd(x, p, z, Next(x, a));
    } else {
      OthersStart(x, q, p, z);
      StartsGoOn(x, p, z, Next(x, a));
    }
  }

  lemma StartsEnd(x: Sub, p: ProcId, z: Sub, y: Sub)
    requires |x.l.coros| == 1 && x.l.coros[0].Live? && x.l.coros[0].state == x.l.oper
    requires Pending(x) <= 2 * |x.l.procs| + 2
    requires x.l.oper == StartingProcesses && SameComputes(x.l, z.l)
    requires p < |z.l.procs| && OthersLinked(z.l, p) && Recovered(z, p) && !z.l.critical && z.l.admin == AdminOnline
    requires Pending(z) < Pending(x)
    requires y == Sub(z.l.(oper := Online, coros := [Scheduled(Online, x.l.coros[0].client)]), [], z.events)
    ensures Advances(x, y, p)
  {
    SharedAlike(z.l, y.l, p);
    assert Recovered(y, p);
  }

  lemma StartsGoOn(x: Sub, p: ProcId, z: Sub, y: Sub)
    requires |x.l.coros| == 1 && x.l.coros[0].Live? && x.l.coros[0].state == x.l.oper
    requires Pending(x) <= 2 * |x.l.procs| + 2
    requires x.l.oper == StartingProcesses && x.l.coros[0].next == Online && SameComputes(x.l, z.l)
    requires p < |z.l.procs| && OthersLinked(z.l, p) && Starts(z, p) && !z.l.critical && z.l.admin == AdminOnline
    requires Pending(z) < Pending(x) && y == Sub(z.l.(oper := StartingProcesses, coros := [x.l.coros[0]]), [], z.events)
    ensures Advances(x, y, p)
  {
    SharedAlike(z.l, y.l, p);
    assert Starts(y, p);
  }

  lemma OnlineAgain(x: Sub, a: Action, p: ProcId)
    requires Steps(x, a, p) && x.l.coros[0].Scheduled? && x.l.oper == Online
    ensures Advances(x, Next(x, a), p)
  {
    var y := Next(x, a);
    assert y == Sub(x.l.(coros := [Serving(Online, x.l.coros[0].client, Online)]), [], x.events);
    SharedAlike(x.l, y.l, p);
    assert Recovered(y, p);
  }

  // ---------------------------------------------------------------- whole runs

  /** In no other stage is there anything to do. */
  lemma StepAdvances(x: Sub, a: Action, p: ProcId)
    requires Steps(x, a, p)
    ensures Advances(x, Next(x, a), p)
  {
    var t := x.l.coros[0];
    if t.RestartWait? {
      WaitOver(x, a, p);
    } else if t.Scheduled? {
      match t.state {
        case Restarting => RestartEntered(x, a, p);
        case StartingChildren => NoChildrenToStart(x, a, p);
        case Connecting => ConnectsAgain(x, a, p);
        case StartingProcesses => LaunchesAll(x, a, p);
        case Online => OnlineAgain(x, a, p);
      }
    } else {
      match t.state {
        case Restarting => StopStep(x, a, p);
        case Connecting => LinkStep(x, a, p);
        case StartingProcesses => StartStep(x, a, p);
        case Online => CrashStep(x, a, p);
      }
    }
  }

  lemma StopStep(x: Sub, a: Action, p: ProcId)
    requires Steps(x, a, p) && x.l.coros[0].Live? && x.l.oper == Restarting
    ensures Advances(x, Next(x, a), p)
  {
    if a.DoEvent? {
      StopTaken(x, a, p);
    } else {
      StopAsked(x, a, p);
    }
  }

  lemma LinkStep(x: Sub, a: Action, p: ProcId)
    requires Steps(x, a, p) && x.l.coros[0].Live? && x.l.oper == Connecting
    ensures Advances(x, Next(x, a), p)
  {
    if a.DoEvent? {
      LinkTaken(x, a, p);
    } else {
      LinkMade(x, a, p);
    }
  }

  lemma StartStep(x: Sub, a: Action, p: ProcId)
    requires Steps(x, a, p) && x.l.coros[0].Live? && x.l.oper == StartingProcesses
    ensures Advances(x, Next(x, a), p)
  {
    if a.DoEvent? {
      StartTaken(x, a, p);
    } else {
      StartMade(x, a, p);
    }
  }

  lemma CrashStep(x: Sub, a: Action, p: ProcId)
    requires Steps(x, a, p) && x.l.coros[0].Live? && x.l.oper == Online
    ensures Advances(x, Next(x, a), p)
  {
    assert a.DoEvent? && a.v in x.events && a.k == 0;
    if a.v.ConnectEvent? {
      LateLink(x, a, p);
    } else {
      CrashTaken(x, p);
      assert Next(x, a) == Next(x, DoEvent(0, 0, StopEvent(p), false));
    }
  }

  lemma Weighs(i: int, j: int, w: int, a: nat, b: nat)
    requires 0 <= j && a < w && b < w && (j < i || (j == i && b < a))
    ensures 0 <= j * w + b < i * w + a
  {
    if j < i {
      assert i * w >= (j + 1) * w;
    }
  }

  lemma NearerIsLess(x: Sub, y: Sub)
    requires x.l.coros != [] && y.l.coros != [] && |x.l.procs| == |y.l.procs| && Nearer(x, y)
    requires Pending(x) <= 2 * |x.l.procs| + 2 && Pending(y) <= 2 * |y.l.procs| + 2
    ensures 0 <= Measure(y) < Measure(x)
  {
    var i, j, w := 10 - Stage(x), 10 - Stage(y), 2 * |x.l.procs| + 3;
    Weighs(i, j, w, Pending(x), Pending(y));
    assert Measure(x) == i * w + Pending(x) && Measure(y) == j * w + Pending(y);
  }

  /** Nothing of the kind can happen any more. */
  ghost predicate Stuck(x: Sub) {
    forall a: Action | a.s == 0 && EnabledAt(x, a) :: !RestartAction(x, a)
  }

  /** The end of a restart that went well. */
  predicate BackOnline(l: Local) {
    l.oper == Online && l.admin == AdminOnline && l.AllRunning() && l.AllConnected()
  }

  /** It waits for a connection that nobody is making. */
  predicate Stranded(x: Sub) {
    x.l.oper == Connecting && x.l.AllStopped() && !x.l.AllConnected() && Still(x)
  }

  /** Unless it is over or stranded, something can happen. */
  lemma SomethingToDo(x: Sub, p: ProcId) returns (a: Action)
    requires Restarts(x, p) && x.l.coros[0].Live? && x.l.oper == Restarting
    ensures a.s == 0 && EnabledAt(x, a) && RestartAction(x, a)
  {
    var q :| 0 <= q < |x.l.procs| && x.l.procs[q].running;
    a := if q in x.l.stopRequested then ProcStops(0, q) else DoEvent(0, 0, StopEvent(q), false);
  }

  lemma SomethingToStart(x: Sub, p: ProcId) returns (a: Action)
    requires Restarts(x, p) && x.l.coros[0].Live? && x.l.oper == StartingProcesses
    ensures a.s == 0 && EnabledAt(x, a) && RestartAction(x, a)
  {
    var q :| 0 <= q < |x.l.procs| && !x.l.procs[q].running;
    a := if q in x.l.launched then ProcStarts(0, q) else DoEvent(0, 0, StartEvent(q), false);
  }

  lemma SomethingToConnect(x: Sub, p: ProcId) returns (a: Action)
    requires Restarts(x, p) && x.l.coros[0].Live? && x.l.oper == Connecting && !Shared(x.l, p)
    ensures a.s == 0 && EnabledAt(x, a) && RestartAction(x, a)
  {
    var k := x.l.procs[p].compute;
    a := if Own(x.l, p).IsConnected() then DoEvent(0, 0, ConnectEvent(k), false) else LinkUp(0, k);
  }

  /** How a restart ends. */
  ghost predicate Ended(x: Sub, p: ProcId)
    requires p < |x.l.procs|
  {
    if Shared(x.l, p) then Stranded(x) else BackOnline(x.l) && Still(x)
  }

  lemma StuckEnds(x: Sub, p: ProcId)
    requires Restarts(x, p) && Stuck(x)
    ensures Ended(x, p)
  {
    var t := x.l.coros[0];
    assert !EnabledAt(x, DoExpire(0, 0)) && !EnabledAt(x, DoEntry(0, 0, |x.l.procs|));
    assert t.Live?;
    forall v ensures v !in x.events {
      assert !EnabledAt(x, DoEvent(0, 0, v, false));
    }
    match t.state {
      case Restarting => var a := SomethingToDo(x, p);
      case StartingProcesses => var a := SomethingToStart(x, p);
      case Connecting => if !Shared(x.l, p) { var a := SomethingToConnect(x, p); }
      case Online =>
    }
  }

  /** Process p of a subsystem that is up and still has a restart left has just crashed. */
  ghost predicate JustCrashed(x: Sub, p: ProcId) {
    && |x.l.coros| == 1 && x.l.coros[0].Live? && x.l.coros[0].state == Online
    && x.queue == [] && !x.l.critical && x.l.admin == AdminOnline
    && p < |x.l.procs| && OthersLinked(x.l, p) && Crashing(x, p)
  }

  /** After i steps of a restart. */
  ghost predicate Goes(first: Net, n: Net, p: ProcId, i: nat) {
    && |first| == |n| == 1 && first[0].l.coros != [] && Restarts(n[0], p) && SameComputes(first[0].l, n[0].l)
    && 0 <= Measure(n[0]) <= Measure(first[0]) - i
  }

  lemma GoesOn(first: Net, n: Net, a: Action, p: ProcId, i: nat)
    requires Goes(first, n, p, i) && Enabled(n, a) && RestartAction(n[0], a)
    ensures Goes(first, Apply(ALONE, n, a), p, i + 1)
  {
    StepsAlone(n[0], a);
    assert n == [n[0]];
    StepAdvances(n[0], a, p);
    NearerIsLess(n[0], Next(n[0], a));
  }

  ghost predicate GoesKept(first: Net, n: Net, n': Net, p: ProcId, i: nat) {
    Goes(first, n, p, i) ==> Goes(first, n', p, i + 1)
  }

  lemma {:induction false} GoesUpTo(ns: seq<Net>, p: ProcId, i: nat)
    requires i < |ns| && Goes(ns[0], ns[0], p, 0)
    requires forall k {:trigger ns[k]} | 0 <= k < i :: GoesKept(ns[0], ns[k], ns[k+1], p, k)
    ensures Goes(ns[0], ns[i], p, i)
  {
    if i > 0 {
      GoesUpTo(ns, p, i - 1);
      assert GoesKept(ns[0], ns[i-1], ns[i-1+1], p, i - 1);
    }
  }

  /**
   * One crash, with a restart left in the budget: every run of the restart is at most as long as the
   * measure of its first state, and one that cannot go on is back online with all processes running
   * if the crashed process shared its compute with no other, and stranded in Connecting if it did.
   */
  lemma RestartEnds(ns: seq<Net>, acts: seq<Action>, p: ProcId)
    requires Run(ALONE, ns, acts) && JustCrashed(ns[0][0], p)
    requires forall k | 0 <= k < |acts| :: RestartAction(ns[k][0], acts[k])
    ensures |acts| <= Measure(ns[0][0])
    ensures var x := ns[|acts|][0]; Stuck(x) ==>
      && (Shared(ns[0][0].l, p) ==> Stranded(x))
      && (!Shared(ns[0][0].l, p) ==> BackOnline(x.l) && Still(x))
      && (x.l.oper == Online <==> !Shared(ns[0][0].l, p))
  {
    GoesAlways(ns, acts, p);
    var x := ns[|acts|][0];
    SharedAlike(ns[0][0].l, x.l, p);
    if Stuck(x) {
      StuckEnds(x, p);
    }
  }

  lemma GoesAlways(ns: seq<Net>, acts: seq<Action>, p: ProcId)
    requires Run(ALONE, ns, acts) && JustCrashed(ns[0][0], p)
    requires forall k | 0 <= k < |acts| :: RestartAction(ns[k][0], acts[k])
    ensures Goes(ns[0], ns[|acts|], p, |acts|)
  {
    forall k {:trigger ns[k]} | 0 <= k < |acts| ensures GoesKept(ns[0], ns[k], ns[k+1], p, k) {
      assert RestartAction(ns[k][0], acts[k]) && ns[k+1] == Apply(ALONE, ns[k], acts[k]);
      if Goes(ns[0], ns[k], p, k) {
        GoesOn(ns[0], ns[k], acts[k], p, k);
      }
    }
    GoesUpTo(ns, p, |acts|);
  }

  ghost predicate Moving(n: Net, a: Action, next: Net) {
    |n| == 1 && Enabled(n, a) && RestartAction(n[0], a) && next == Apply(ALONE, n, a)
  }

  /** A run of a restart that cannot go on. */
  ghost predicate Complete(x: Sub, ns: seq<Net>, acts: seq<Action>) {
    && |ns| == |acts| + 1 && ns[0] == [x] && |ns[|acts|]| == 1 && Stuck(ns[|acts|][0])
    && forall k {:trigger acts[k]} | 0 <= k < |acts| :: Moving(ns[k], acts[k], ns[k+1])
  }

  lemma CompleteRuns(x: Sub, ns: seq<Net>, acts: seq<Action>)
    requires Complete(x, ns, acts)
    ensures Run(ALONE, ns, acts) && forall k | 0 <= k < |acts| :: RestartAction(ns[k][0], acts[k])
  {
    forall k {:trigger acts[k]} | 0 <= k < |acts| ensures |ns[k]| == 1 && Enabled(ns[k], acts[k])
      ensures ns[k+1] == Apply(ALONE, ns[k], acts[k]) && RestartAction(ns[k][0], acts[k])
    {
      assert Moving(ns[k], acts[k], ns[k+1]);
    }
    forall i | 0 <= i < |ns| ensures |ns[i]| == 1 {
      assert i < |acts| ==> Moving(ns[i], acts[i], ns[i+1]);
    }
  }

  lemma CompleteBefore(x: Sub, a: Action, ns: seq<Net>, acts: seq<Action>)
    requires EnabledAt(x, a) && a.s == 0 && RestartAction(x, a) && Complete(Next(x, a), ns, acts)
    ensures Complete(x, [[x]] + ns, [a] + acts)
  {
    StepsAlone(x, a);
    var ns', acts' := [[x]] + ns, [a] + acts;
    forall k {:trigger acts'[k]} | 0 <= k < |acts'| ensures Moving(ns'[k], acts'[k], ns'[k+1]) {
      if k > 0 {
        assert Moving(ns[k-1], acts[k-1], ns[k-1+1]);
        assert acts'[k] == acts[k-1] && ns'[k] == ns[k-1] && ns'[k+1] == ns[k-1+1];
      }
    }
  }

  /** From every state of a restart there is a run to one that cannot go on. */
  lemma RestartCanEnd(x: Sub, p: ProcId) returns (ns: seq<Net>, acts: seq<Action>)
    requires Restarts(x, p)
    ensures Complete(x, ns, acts)
    decreases Measure(x)
  {
    if Stuck(x) {
      ns, acts := [[x]], [];
    } else {
      var a: Action :| a.s == 0 && EnabledAt(x, a) && RestartAction(x, a);
      StepAdvances(x, a, p);
      NearerIsLess(x, Next(x, a));
      ns, acts := RestartCanEnd(Next(x, a), p);
      CompleteBefore(x, a, ns, acts);
      ns, acts := [[x]] + ns, [a] + acts;
    }
  }

  /** A crash that shares its compute with another process strands the subsystem. */
  lemma SharedCrashStrands(x: Sub, p: ProcId) returns (ns: seq<Net>, acts: seq<Action>)
    requires JustCrashed(x, p) && Shared(x.l, p)
    ensures Run(ALONE, ns, acts) && ns[0] == [x] && Stranded(ns[|acts|][0])
  {
    ns, acts := RestartCanEnd(x, p);
    CompleteRuns(x, ns, acts);
    RestartEnds(ns, acts, p);
  }

  // ---------------------------------------------------------------- a connection lost in a restart of processes

  lemma HeldStays(l: Local, i: ProcId)
    requires AllHeld(l)
    ensures ConnectFrom(l, i) == l
    decreases |l.procs| - i
  {
    if i < |l.procs| {
      HeldStays(l, i + 1);
    }
  }

  /** Whatever its neighbours, a subsystem that reads a loss in RestartingProcesses no longer counts as connected. */
  lemma LossRead(l: Local, nb: Neighbours, k: ComputeId)
    requires |l.coros| == 1 && l.coros[0].Live? && l.coros[0].state == RestartingProcesses && k in l.umbilicals
    ensures var r := TakeEvent(l, 0, nb, DisconnectEvent(k), false).l;
      && r.procs == l.procs && r.connectors == l.connectors
      && r.umbilicals == l.umbilicals[k := l.umbilicals[k].Lose()] && !r.umbilicals[k].IsConnected()
  {
  }

  /** Its processes hold the connection still, so that nobody makes it again and it waits in Connecting. */
  lemma LossStrands(l: Local, nb: Neighbours, launch: nat, c: ClientId, p: ProcId)
    requires l.coros == [Scheduled(Connecting, c)] && AllHeld(l)
    requires p < |l.procs| && l.procs[p].compute in l.umbilicals && !l.umbilicals[l.procs[p].compute].IsConnected()
    ensures RunEntry(l, 0, nb, launch).l == l.(oper := Connecting, coros := [Serving(Connecting, c, Connecting)])
    ensures !RunEntry(l, 0, nb, launch).l.AllConnected()
  {
    HeldStays(Without(l, 0).l.(oper := Connecting), 0);
  }
}
