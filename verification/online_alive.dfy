/**
 In every run of start and stop commands, Online means that all processes of a subsystem are alive on
 their StageZeros, and a subsystem that is not starting or stopping processes has none left alive.
 */
module OnlineAlive {
  import opened States
  import opened ClientBits
  import opened Umbilicals
  import opened SubsystemModel
  import opened Network
  import opened CommandSteps
  import opened OwedEvents
  import opened LiveProcesses
  import opened DependencySafety

  /** The flags and the events on their way tell exactly which processes are alive. */
  predicate Accurate(l: Local, events: Events, alive: set<ProcId>) {
    && (forall p | p in alive :: p < |l.procs|)
    && forall p | 0 <= p < |l.procs| ::
         p in alive <==> (l.procs[p].running && StopEvent(p) !in events) || StartEvent(p) in events
  }

  lemma SameAccurate(l: Local, r: Local, events: Events, alive: set<ProcId>)
    requires Accurate(l, events, alive) && SameRunning(l, r)
    ensures Accurate(r, events, alive)
  {
  }

  lemma MarkedAccurate(l: Local, v: Event, events: Events, alive: set<ProcId>)
    requires Steady(l) && l.coros[0].Live? && Tidy(l, events) && v in events && Accurate(l, events, alive)
    ensures Accurate(Marked(l, v), events - multiset{v}, alive)
  {
  }

  lemma TurnAccurate(x: Sub, nb: Neighbours, a: Action, alive: set<ProcId>)
    requires EnabledAt(x, a) && ByCoroutine(a) && Steady(x.l) && Tidy(x.l, x.events) && Accurate(x.l, x.events, alive)
    requires a.DoEntry? ==> a.launch >= |x.l.procs|
    requires a.DoMessage? ==> CommandMessage(x.queue[0])
    requires a.DoEvent? ==> !a.aborting
    requires Steady(Turn(x, nb, a).l)
    ensures Accurate(Turn(x, nb, a).l, EventsAfter(x, a), alive)
  {
    var r := Turn(x, nb, a).l;
    match a
    case DoEntry(_, _, launch) =>
      EntryTidy(x.l, nb, launch, x.events);
      SameAccurate(x.l, r, x.events, alive);
    case DoMessage(_, _) =>
      MessageTidy(x.l, nb, x.queue[0], x.events);
      SameAccurate(x.l, r, x.events, alive);
    case DoEvent(_, _, v, _) =>
      EventTidy(x.l, nb, v, x.events);
      MarkedAccurate(x.l, v, x.events, alive);
      SameAccurate(Marked(x.l, v), r, x.events - multiset{v}, alive);
    case DoExpire(_, _) => assert false;
  }

  lemma SurroundAccurate(n: Net, a: Action, alive: set<ProcId>)
    requires Enabled(n, a) && Commanded(n, a) && !ByCoroutine(a)
    requires Steady(n[a.s].l) && Tidy(n[a.s].l, n[a.s].events) && Accurate(n[a.s].l, n[a.s].events, alive)
    ensures var y := Surround(n[a.s], a); Accurate(y.l, y.events, AliveAfter(alive, a))
  {
  }

  ghost predicate AllAccurate(n: Net, alive: seq<set<ProcId>>) {
    |n| == |alive| && forall i | 0 <= i < |n| :: Accurate(n[i].l, n[i].events, alive[i])
  }

  lemma ActorTurns(t: Topology, n: Net, a: Action)
    requires Registered(t) && |n| == |t| && Enabled(n, a) && ByCoroutine(a)
    ensures var y := Apply(t, n, a)[a.s]; y.l == EffectOf(t, n, a).l && y.events == EventsAfter(n[a.s], a)
  {
  }

  lemma CoroutineAccurate(t: Topology, n: Net, a: Action, alive: set<ProcId>)
    requires Registered(t) && |n| == |t| && Inv(t, n) && Enabled(n, a) && Commanded(n, a) && ByCoroutine(a)
    requires Accurate(n[a.s].l, n[a.s].events, alive)
    ensures Accurate(EffectOf(t, n, a).l, EventsAfter(n[a.s], a), alive)
  {
    CoroutineConsiderate(t, n, a);
    TurnAccurate(n[a.s], View(t, n, a.s), a, alive);
  }

  lemma ActorAccurate(t: Topology, n: Net, a: Action, alive: set<ProcId>)
    requires Registered(t) && |n| == |t| && Inv(t, n) && Enabled(n, a) && Commanded(n, a)
    requires Accurate(n[a.s].l, n[a.s].events, alive)
    ensures var y := Apply(t, n, a)[a.s]; Accurate(y.l, y.events, AliveAfter(alive, a))
  {
    if ByCoroutine(a) {
      ActorTurns(t, n, a);
      CoroutineAccurate(t, n, a, alive);
    } else {
      SurroundAccurate(n, a, alive);
    }
  }

  lemma OtherUntouched(t: Topology, n: Net, a: Action, i: SubId)
    requires Registered(t) && |n| == |t| && Enabled(n, a) && i < |n| && i != a.s
    ensures Apply(t, n, a)[i].l == n[i].l && Apply(t, n, a)[i].events == n[i].events
  {
  }

  lemma StepAccurate(t: Topology, n: Net, a: Action, alive: seq<set<ProcId>>)
    requires Registered(t) && |n| == |t| && Inv(t, n) && Enabled(n, a) && Commanded(n, a) && AllAccurate(n, alive)
    ensures AllAccurate(Apply(t, n, a), AllAliveAfter(alive, a))
  {
    ActorAccurate(t, n, a, alive[a.s]);
    forall i | 0 <= i < |n| && i != a.s ensures Untouched(n[i], Apply(t, n, a)[i]) {
      OtherUntouched(t, n, a, i);
    }
    OneAccurate(n, Apply(t, n, a), alive, a.s, AliveAfter(alive[a.s], a));
  }

  predicate Untouched(x: Sub, y: Sub) {
    y.l == x.l && y.events == x.events
  }

  lemma OneAccurate(n: Net, m: Net, alive: seq<set<ProcId>>, s: SubId, mine: set<ProcId>)
    requires AllAccurate(n, alive) && |m| == |n| && s < |n| && Accurate(m[s].l, m[s].events, mine)
    requires forall i | 0 <= i < |n| && i != s :: Untouched(n[i], m[i])
    ensures AllAccurate(m, alive[s := mine])
  {
  }

  function NothingAlive(t: Topology): (r: seq<set<ProcId>>)
    ensures |r| == |t|
  {
    seq(|t|, _ => {})
  }

  ghost predicate AccurateKept(n: Net, alive: seq<set<ProcId>>, n': Net, alive': seq<set<ProcId>>) {
    AllAccurate(n, alive) ==> AllAccurate(n', alive')
  }

  lemma {:induction false} AccurateUpTo(ns: seq<Net>, acts: seq<Action>, alive: seq<set<ProcId>>, i: nat)
    requires |ns| == |acts| + 1 && i < |ns| && AllAccurate(ns[0], alive)
    requires forall k {:trigger ns[k]} | 0 <= k < i ::
      AccurateKept(ns[k], AliveAt(alive, acts, k), ns[k+1], AliveAt(alive, acts, k + 1))
    ensures AllAccurate(ns[i], AliveAt(alive, acts, i))
  {
    if i > 0 {
      AccurateUpTo(ns, acts, alive, i - 1);
      assert AccurateKept(ns[i-1], AliveAt(alive, acts, i - 1), ns[i-1+1], AliveAt(alive, acts, i - 1 + 1));
    }
  }

  lemma AccurateAlways(t: Topology, ns: seq<Net>, acts: seq<Action>, i: nat)
    requires Registered(t) && Run(t, ns, acts) && Fresh(t, ns[0])
    requires forall j | 0 <= j < |acts| :: Commanded(ns[j], acts[j])
    requires i < |ns|
    ensures AllAccurate(ns[i], AliveAt(NothingAlive(t), acts, i))
  {
    var alive := NothingAlive(t);
    forall k {:trigger ns[k]} | 0 <= k < i
      ensures AccurateKept(ns[k], AliveAt(alive, acts, k), ns[k+1], AliveAt(alive, acts, k + 1))
    {
      ChildrenServeAlways(t, ns, acts, k);
      assert Commanded(ns[k], acts[k]) && ns[k+1] == Apply(t, ns[k], acts[k]);
      if AllAccurate(ns[k], AliveAt(alive, acts, k)) {
        StepAccurate(t, ns[k], acts[k], AliveAt(alive, acts, k));
      }
    }
    AccurateUpTo(ns, acts, alive, i);
  }

  /** Every process of the subsystem is alive. */
  ghost predicate AllAlive(l: Local, alive: set<ProcId>) {
    forall p: ProcId :: p in alive <==> p < |l.procs|
  }

  lemma TidyAlive(l: Local, events: Events, alive: set<ProcId>)
    requires Steady(l) && Tidy(l, events) && Accurate(l, events, alive)
    ensures l.oper == Online ==> AllAlive(l, alive)
    ensures Idle(l.oper) && l.oper != StartingProcesses ==> alive == {}
  {
  }

  /** Online means alive, and idle means that nothing is. */
  lemma OnlineMeansAlive(t: Topology, ns: seq<Net>, acts: seq<Action>, i: nat, s: SubId)
    requires Registered(t) && Run(t, ns, acts) && Fresh(t, ns[0])
    requires forall j | 0 <= j < |acts| :: Commanded(ns[j], acts[j])
    requires i < |ns| && s < |t|
    ensures var alive := AliveAt(NothingAlive(t), acts, i)[s];
      && (ns[i][s].l.oper == Online ==> AllAlive(ns[i][s].l, alive))
      && (Idle(ns[i][s].l.oper) && ns[i][s].l.oper != StartingProcesses ==> alive == {})
  {
    ChildrenServeAlways(t, ns, acts, i);
    AccurateAlways(t, ns, acts, i);
    var x := ns[i][s];
    assert Steady(x.l) && Tidy(x.l, x.events);
    TidyAlive(x.l, x.events, AliveAt(NothingAlive(t), acts, i)[s]);
  }
}
