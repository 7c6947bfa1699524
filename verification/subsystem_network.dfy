/**
 * The subsystems as objects, wired up by a dependency graph: each step of one object is the step of
 * the whole system that module Network defines, so what holds in every run holds of the objects.
 */
module SubsystemNetwork {
  import opened States
  import opened ClientBits
  import opened Umbilicals
  import opened SubsystemModel
  import opened Network
  import Subsystems

  type Subsystem = Subsystems.Subsystem
  type MessagePipe = Subsystems.MessagePipe

  // ---------------------------------------------------------------- the objects and the graph

  /** Subsystem i sits at index i, and its parents and children are those of the graph. */
  ghost predicate Fits(t: Topology, subs: seq<Subsystem>, i: nat, parents: seq<Subsystem>, children: seq<Subsystem>)
    requires |subs| == |t| && i < |t|
  {
    && subs[i].id == i && Subsystems.Apart(subs[i], parents, children)
    && (forall p :: p in parents ==> p.id < |t| && subs[p.id] == p && i in t[p.id])
    && (forall j: nat :: j < |t| && i in t[j] ==> subs[j] in parents)
    && (forall d :: d in children ==> d.id < |t| && subs[d.id] == d && d.id in t[i])
    && (forall j: nat :: j < |t| && j in t[i] ==> subs[j] in children)
  }

  ghost predicate WiredAt(t: Topology, subs: seq<Subsystem>, i: nat)
    requires |subs| == |t| && i < |t|
    reads subs
  {
    Fits(t, subs, i, subs[i].parents, subs[i].children)
  }

  ghost predicate Wired(t: Topology, subs: seq<Subsystem>)
    reads subs
  {
    && |subs| == |t|
    && (forall i: nat {:trigger WiredAt(t, subs, i)} :: i < |t| ==> WiredAt(t, subs, i))
    && (forall i: nat, j: nat :: i < j < |t| ==> subs[i].pipe != subs[j].pipe)
  }

  function PipesOf(subs: seq<Subsystem>): set<MessagePipe> {
    set x | x in subs :: x.pipe
  }

  /** The object shows the fields, the queue and the events of one subsystem of the model. */
  ghost predicate Shows(x: Subsystem, events: multiset<Event>, sub: Sub)
    reads x, x.pipe
  {
    x.Value() == sub.l && x.pipe.queue == sub.queue && events == sub.events
  }

  ghost predicate Represents(t: Topology, subs: seq<Subsystem>, events: seq<multiset<Event>>, n: Net)
    reads subs, PipesOf(subs)
  {
    && Wired(t, subs) && |events| == |n| == |t|
    && forall i: nat {:trigger n[i]} {:trigger subs[i]} :: i < |t| ==> Shows(subs[i], events[i], n[i])
  }

  // ---------------------------------------------------------------- adding a subsystem

  ghost function Kids(children: seq<nat>): set<SubId> {
    set k | k in children
  }

  function Beginning(procs: seq<Proc>, umbilicals: map<ComputeId, Umb>, maxRestarts: int,
                     policy: RestartPolicy, critical: bool): Sub {
    Sub(Local(AdminOffline, Offline, EMPTY_BITS, [Scheduled(Offline, NO_CLIENT)], procs, umbilicals, [], 0, maxRestarts, 1,
              policy, critical, {}, {}, {}, 0), [], multiset{})
  }

  /** The children get one parent more. */
  lemma FitsMore(t: Topology, subs: seq<Subsystem>, i: nat, parents: seq<Subsystem>, children: seq<Subsystem>,
                 x: Subsystem, kids: set<SubId>)
    requires Registered(t) && |subs| == |t| && i < |t| && Fits(t, subs, i, parents, children)
    requires x.id == |t| && forall j: nat :: j < |t| ==> subs[j].id == j && subs[j].pipe != x.pipe
    ensures Fits(t + [kids], subs + [x], i, if i in kids then parents + [x] else parents, children)
  {
  }

  lemma FitsNew(t: Topology, subs: seq<Subsystem>, x: Subsystem, children: seq<nat>, mine: seq<Subsystem>)
    requires Registered(t) && |subs| == |t| && x.id == |t|
    requires forall j: nat :: j < |t| ==> subs[j].id == j && subs[j].pipe != x.pipe
    requires forall i: nat, j: nat :: i < j < |t| ==> subs[i].pipe != subs[j].pipe
    requires forall m: nat :: m < |children| ==> children[m] < |t|
    requires forall i: nat, j: nat :: i < j < |children| ==> children[i] != children[j]
    requires |mine| == |children| && forall j: nat :: j < |mine| ==> mine[j] == subs[children[j]]
    ensures Fits(t + [Kids(children)], subs + [x], |t|, [], mine)
  {
  }

  lemma AllWired(t: Topology, subs: seq<Subsystem>, x: Subsystem, children: seq<nat>, before: seq<seq<Subsystem>>)
    requires Registered(t) && |subs| == |t| == |before| && x.id == |t|
    requires forall j: nat :: j < |t| ==> subs[j].id == j && subs[j].pipe != x.pipe
    requires forall i: nat, j: nat :: i < j < |t| ==> subs[i].pipe != subs[j].pipe
    requires forall m: nat :: m < |children| ==> children[m] < |t|
    requires forall i: nat, j: nat :: i < j < |children| ==> children[i] != children[j]
    requires x.parents == [] && |x.children| == |children|
    requires forall j: nat :: j < |children| ==> x.children[j] == subs[children[j]]
    requires forall i: nat {:trigger before[i]} :: i < |t| ==>
      && Fits(t, subs, i, before[i], subs[i].children)
      && subs[i].parents == if i in children then before[i] + [x] else before[i]
    ensures Wired(t + [Kids(children)], subs + [x])
  {
    var t', subs' := t + [Kids(children)], subs + [x];
    forall i: nat {:trigger WiredAt(t', subs', i)} | i < |t'| ensures WiredAt(t', subs', i) {
      if i < |t| {
        FitsMore(t, subs, i, before[i], subs[i].children, x, Kids(children));
      } else {
        FitsNew(t, subs, x, children, x.children);
      }
    }
  }

  lemma AllShowing(t: Topology, subs: seq<Subsystem>, events: seq<multiset<Event>>, n: Net,
                   x: Subsystem, sub: Sub, kids: set<SubId>)
    requires |subs| == |events| == |n| == |t|
    requires Wired(t + [kids], subs + [x]) && Shows(x, multiset{}, sub)
    requires forall i: nat {:trigger n[i]} :: i < |t| ==> Shows(subs[i], events[i], n[i])
    ensures Represents(t + [kids], subs + [x], events + [multiset{}], n + [sub])
  {
  }

  ghost function ParentLists(subs: seq<Subsystem>): (r: seq<seq<Subsystem>>)
    reads subs
    ensures |r| == |subs| && forall i :: 0 <= i < |subs| ==> r[i] == subs[i].parents
  {
    seq(|subs|, i requires 0 <= i < |subs| reads subs => subs[i].parents)
  }

  /** A subsystem added with the children it names; those with an unknown child are refused before. */
  method AddSubsystem(t: Topology, subs: seq<Subsystem>, events: seq<multiset<Event>>, ghost n: Net, children: seq<nat>,
                      procs: seq<Proc>, umbilicals: map<ComputeId, Umb>, maxRestarts: int,
                      policy: RestartPolicy, critical: bool)
    returns (x: Subsystem)
    requires Registered(t) && Represents(t, subs, events, n)
    requires forall m: nat :: m < |children| ==> children[m] < |t|
    requires forall i: nat, j: nat :: i < j < |children| ==> children[i] != children[j]
    modifies subs
    ensures fresh(x) && Registered(t + [Kids(children)])
    ensures Represents(t + [Kids(children)], subs + [x], events + [multiset{}],
                       n + [Beginning(procs, umbilicals, maxRestarts, policy, critical)])
  {
    x := new Subsystems.Subsystem(|t|, procs, umbilicals, maxRestarts, policy, critical);
    Link(t, subs, events, n, x, children, Beginning(procs, umbilicals, maxRestarts, policy, critical));
  }

  /** Its children and it are linked, then it runs. */
  method Link(t: Topology, subs: seq<Subsystem>, events: seq<multiset<Event>>, ghost n: Net,
              x: Subsystem, children: seq<nat>, ghost sub: Sub)
    requires Registered(t) && Represents(t, subs, events, n)
    requires forall m: nat :: m < |children| ==> children[m] < |t|
    requires forall i: nat, j: nat :: i < j < |children| ==> children[i] != children[j]
    requires x !in subs && x.pipe !in PipesOf(subs) && x.id == |t|
    requires x.parents == [] && x.children == [] && x.coroutines == []
    requires sub.l == x.Value().(admin := AdminOffline, oper := Offline, coros := [Scheduled(Offline, NO_CLIENT)])
    requires sub.queue == x.pipe.queue && sub.events == multiset{}
    modifies x, subs`parents
    ensures Represents(t + [Kids(children)], subs + [x], events + [multiset{}], n + [sub])
  {
    ghost var before := ParentLists(subs);
    forall j: nat | j < |t| ensures subs[j].id == j && subs[j].pipe != x.pipe {
      assert WiredAt(t, subs, j) && subs[j] in subs;
    }
    LinkChildren(t, subs, x, children);
    FitsNew(t, subs, x, children, x.children);
    x.Run();
    forall i: nat {:trigger before[i]} | i < |t| ensures Fits(t, subs, i, before[i], subs[i].children) {
      assert old(WiredAt(t, subs, i));
    }
    AllWired(t, subs, x, children, before);
    forall i: nat {:trigger n[i]} | i < |t| ensures Shows(subs[i], events[i], n[i]) {
      assert old(Shows(subs[i], events[i], n[i]));
    }
    AllShowing(t, subs, events, n, x, sub, Kids(children));
  }

  method LinkChildren(t: Topology, subs: seq<Subsystem>, x: Subsystem, children: seq<nat>)
    requires |subs| == |t| && x !in subs && x.children == []
    requires forall m: nat :: m < |children| ==> children[m] < |t|
    requires forall i: nat, j: nat :: i < j < |children| ==> children[i] != children[j]
    requires forall i: nat, j: nat :: i < j < |t| ==> subs[i] != subs[j]
    modifies x`children, subs`parents
    ensures |x.children| == |children| && forall j: nat :: j < |children| ==> x.children[j] == subs[children[j]]
    ensures forall i: nat :: i < |t| ==>
      subs[i].parents == if i in children then old(subs[i].parents) + [x] else old(subs[i].parents)
  {
    var j := 0;
    while j < |children|
      invariant 0 <= j <= |children|
      invariant |x.children| == j && forall m: nat :: m < j ==> x.children[m] == subs[children[m]]
      invariant forall i: nat :: i < |t| ==>
        subs[i].parents == if i in children[..j] then old(subs[i].parents) + [x] else old(subs[i].parents)
    {
      x.AddChild(subs[children[j]]);
      subs[children[j]].AddParent(x);
      assert children[..j+1] == children[..j] + [children[j]];
      j := j + 1;
    }
    assert children[..j] == children;
  }

  // ---------------------------------------------------------------- what an object sees

  lemma LooksAre(ss: seq<Subsystem>, g: map<SubId, Glimpse>)
    requires Subsystems.DistinctIds(ss)
    requires forall x {:trigger x.Look()} :: x in ss ==> x.id in g && g[x.id] == x.Look()
    requires forall k :: k in g ==> exists i :: 0 <= i < |ss| && ss[i].id == k
    ensures Subsystems.Looks(ss) == g
  {
    Subsystems.LooksOf(ss);
    var looks := Subsystems.Looks(ss);
    forall k | k in looks ensures k in g && looks[k] == g[k] {
      var i :| 0 <= i < |ss| && ss[i].id == k;
      assert ss[i] in ss;
    }
    forall k | k in g ensures k in looks {
      var i :| 0 <= i < |ss| && ss[i].id == k;
    }
  }

  lemma ParentsSeen(t: Topology, subs: seq<Subsystem>, events: seq<multiset<Event>>, n: Net, s: nat)
    requires Registered(t) && Represents(t, subs, events, n) && s < |t|
    ensures Subsystems.Looks(subs[s].parents) == View(t, n, s).parents
  {
    var x := subs[s];
    assert WiredAt(t, subs, s);
    var g := View(t, n, s).parents;
    forall p {:trigger p.Look()} | p in x.parents ensures p.id in g && g[p.id] == p.Look() {
      assert Shows(subs[p.id], events[p.id], n[p.id]);
    }
    forall k | k in g ensures exists i :: 0 <= i < |x.parents| && x.parents[i].id == k {
      assert WiredAt(t, subs, k);
      assert subs[k] in x.parents;
      var i :| 0 <= i < |x.parents| && x.parents[i] == subs[k];
    }
    LooksAre(x.parents, g);
  }

  lemma ChildrenSeen(t: Topology, subs: seq<Subsystem>, events: seq<multiset<Event>>, n: Net, s: nat)
    requires Registered(t) && Represents(t, subs, events, n) && s < |t|
    ensures Subsystems.Looks(subs[s].children) == View(t, n, s).children
  {
    var x := subs[s];
    assert WiredAt(t, subs, s);
    var g := View(t, n, s).children;
    forall d {:trigger d.Look()} | d in x.children ensures d.id in g && g[d.id] == d.Look() {
      assert Shows(subs[d.id], events[d.id], n[d.id]);
    }
    forall k | k in g ensures exists i :: 0 <= i < |x.children| && x.children[i].id == k {
      assert k in t[s] && k < s;
      assert WiredAt(t, subs, k);
      var i :| 0 <= i < |x.children| && x.children[i] == subs[k];
    }
    LooksAre(x.children, g);
  }

  /** What an object sees of its neighbours is what the step of the model is given. */
  lemma SeesView(t: Topology, subs: seq<Subsystem>, events: seq<multiset<Event>>, n: Net, s: nat)
    requires Registered(t) && Represents(t, subs, events, n) && s < |t|
    ensures subs[s].Near() == View(t, n, s)
  {
    ParentsSeen(t, subs, events, n, s);
    ChildrenSeen(t, subs, events, n, s);
  }

  // ---------------------------------------------------------------- what a step leaves

  /** The pipe of a neighbour as it was, and what subsystem s wrote into it. */
  ghost predicate Written(t: Topology, subs: seq<Subsystem>, n: Net, s: nat, e: Effect, i: nat)
    requires |subs| == |n| == |t| && s < |t| && i < |t|
    reads subs, PipesOf(subs)
  {
    Shows(subs[i], n[i].events, Received(t, n[i], i, s, e))
  }

  lemma WrittenTo(t: Topology, subs: seq<Subsystem>, n: Net, s: nat, e: Effect, i: nat)
    requires Registered(t) && Wired(t, subs) && |n| == |t| && s < |t| && i < |t| && i != s
    requires subs[i].Value() == n[i].l && subs[s].Sent(e)
    requires subs[i].pipe in subs[s].Pipes() ==> subs[i].pipe in subs[s].base ==> subs[s].base[subs[i].pipe] == n[i].queue
    requires subs[i].pipe !in subs[s].Pipes() ==> subs[i].pipe.queue == n[i].queue
    ensures Written(t, subs, n, s, e, i)
  {
    var x, y := subs[s], subs[i];
    assert WiredAt(t, subs, s) && WiredAt(t, subs, i);
    if i in t[s] {
      assert y in x.children;
      assert y.pipe in x.Pipes();
    } else if s in t[i] {
      assert y in x.parents;
      assert y.pipe in x.Pipes();
    } else {
      forall z | z in x.parents || z in x.children ensures z.pipe != y.pipe {
        assert subs[z.id] == z && z.id != i;
      }
    }
  }

  /** The object that stepped shows its effect, every other one what it received. */
  lemma AllShown(t: Topology, subs: seq<Subsystem>, n: Net, s: nat, e: Effect,
                 queue: seq<Message>, events: seq<multiset<Event>>)
    requires Registered(t) && Wired(t, subs) && |events| == |n| == |t| && s < |t|
    requires subs[s].Value() == e.l && subs[s].pipe.queue == queue
    requires forall i: nat {:trigger Written(t, subs, n, s, e, i)} :: i < |t| && i != s ==> Written(t, subs, n, s, e, i)
    requires forall i: nat {:trigger events[i]} :: i < |t| && i != s ==> events[i] == n[i].events
    ensures Represents(t, subs, events, Deliver(t, n, s, e, queue, events[s]))
  {
    var n' := Deliver(t, n, s, e, queue, events[s]);
    forall i: nat {:trigger n'[i]} {:trigger subs[i]} | i < |t| ensures Shows(subs[i], events[i], n'[i]) {
      if i != s {
        assert Written(t, subs, n, s, e, i) && n'[i] == Received(t, n[i], i, s, e);
      }
    }
  }

  /** Subsystem y is as n shows it, up to what x may have written into its pipe. */
  ghost predicate Aside(x: Subsystem, y: Subsystem, n: Sub)
    reads x, y, y.pipe
  {
    && y.Value() == n.l
    && (y.pipe !in x.Pipes() ==> y.pipe.queue == n.queue)
    && (y.pipe in x.Pipes() && y.pipe in x.base ==> x.base[y.pipe] == n.queue)
  }

  /** A step that changes one object and writes into the pipes of its neighbours is the model's. */
  lemma StepShown(t: Topology, subs: seq<Subsystem>, n: Net, s: nat, e: Effect,
                  queue: seq<Message>, events: seq<multiset<Event>>)
    requires Registered(t) && Wired(t, subs) && |events| == |n| == |t| && s < |t|
    requires subs[s].Value() == e.l && subs[s].pipe.queue == queue && subs[s].Sent(e)
    requires forall i: nat {:trigger subs[i]} :: i < |t| && i != s ==> Aside(subs[s], subs[i], n[i])
    requires forall i: nat {:trigger events[i]} :: i < |t| && i != s ==> events[i] == n[i].events
    ensures Represents(t, subs, events, Deliver(t, n, s, e, queue, events[s]))
  {
    forall i: nat {:trigger Written(t, subs, n, s, e, i)} | i < |t| && i != s ensures Written(t, subs, n, s, e, i) {
      assert Aside(subs[s], subs[i], n[i]);
      WrittenTo(t, subs, n, s, e, i);
    }
    AllShown(t, subs, n, s, e, queue, events);
  }

  /** One turn of a coroutine of one object. */
  method TakeTurn(x: Subsystem, a: Action, ghost sub: Sub, ghost near: Neighbours)
    requires ByCoroutine(a) && Shows(x, sub.events, sub) && EnabledAt(sub, a) && x.IsApart() && x.Near() == near
    modifies x, x.pipe, x.Pipes()
    ensures x.IsApart() && x.parents == old(x.parents) && x.children == old(x.children) && x.base == old(x.Held())
    ensures x.pipe.queue == if a.DoMessage? then sub.queue[1..] else sub.queue
    ensures var e := Turn(sub, near, a); x.Value() == e.l && x.Sent(e)
  {
    match a {
      case DoEntry(_, k, launch) => x.RunState(k, launch);
      case DoMessage(_, k) => x.ServeMessage(k);
      case DoEvent(_, k, v, aborting) => x.ServeEvent(k, v, aborting);
      case DoExpire(_, k) => x.ServeTimeout(k);
    }
  }

  /** The step of one object is the step of the model. */
  method TakeStep(t: Topology, subs: seq<Subsystem>, before: seq<multiset<Event>>, ghost n: Net, a: Action)
    returns (events: seq<multiset<Event>>)
    requires Registered(t) && Represents(t, subs, before, n) && Enabled(n, a) && ByCoroutine(a)
    modifies subs, PipesOf(subs)
    ensures Represents(t, subs, events, Apply(t, n, a))
  {
    var s := a.s;
    SeesView(t, subs, before, n, s);
    assert WiredAt(t, subs, s) && Shows(subs[s], before[s], n[s]);
    TakeTurn(subs[s], a, n[s], View(t, n, s));
    events := if a.DoEvent? then before[s := before[s] - multiset{a.v}] else before;
    forall i: nat {:trigger WiredAt(t, subs, i)} | i < |t| ensures WiredAt(t, subs, i) {
      assert old(WiredAt(t, subs, i));
    }
    forall i: nat {:trigger subs[i]} | i < |t| && i != s ensures Aside(subs[s], subs[i], n[i]) {
      assert old(Shows(subs[i], before[i], n[i]));
    }
    StepShown(t, subs, n, s, EffectOf(t, n, a), subs[s].pipe.queue, events);
  }

  /** What the surroundings do to one object. */
  method TakeMove(x: Subsystem, before: multiset<Event>, a: Action, ghost sub: Sub) returns (events: multiset<Event>)
    requires !ByCoroutine(a) && Shows(x, before, sub) && EnabledAt(sub, a)
    modifies x, x.pipe
    ensures x.parents == old(x.parents) && x.children == old(x.children)
    ensures Shows(x, events, Surround(sub, a))
  {
    events := before;
    match a {
      case LinkUp(_, c) =>
        x.umbilicals := x.umbilicals[c := x.umbilicals[c].Connect(true)];
        x.connectors := x.connectors - {c};
        events := before + multiset{ConnectEvent(c)};
      case LinkGivenUp(_, c) => x.connectors := x.connectors - {c};
      case LinkLost(_, c) => events := before + multiset{DisconnectEvent(c)};
      case ProcStarts(_, p) =>
        x.launched := x.launched - {p};
        events := before + multiset{StartEvent(p)};
      case ProcStops(_, p) =>
        x.stopRequested := x.stopRequested - {p};
        events := before + multiset{StopEvent(p)};
      case ProcCrashes(_, p) => events := before + multiset{StopEvent(p)};
      case OtherArrives(_) => events := before + multiset{OtherEvent};
      case DelayOver(_) =>
        x.delayed := x.delayed - 1;
        x.pipe.Write(RestartCrashed);
      case ClientSends(_, m) => x.pipe.Write(m);
    }
  }

  method TakeMoveAmong(t: Topology, subs: seq<Subsystem>, before: seq<multiset<Event>>, ghost n: Net, a: Action)
    returns (events: seq<multiset<Event>>)
    requires Registered(t) && Represents(t, subs, before, n) && Enabled(n, a) && !ByCoroutine(a)
    modifies subs, PipesOf(subs)
    ensures Represents(t, subs, events, Apply(t, n, a))
  {
    var s := a.s;
    assert WiredAt(t, subs, s) && Shows(subs[s], before[s], n[s]);
    var own := TakeMove(subs[s], before[s], a, n[s]);
    events := before[s := own];
    forall i: nat {:trigger WiredAt(t, subs, i)} | i < |t| ensures WiredAt(t, subs, i) {
      assert old(WiredAt(t, subs, i));
    }
    forall i: nat {:trigger subs[i]} | i < |t| && i != s ensures Shows(subs[i], events[i], n[i]) {
      assert old(Shows(subs[i], before[i], n[i]));
    }
  }

  method Advance(t: Topology, subs: seq<Subsystem>, before: seq<multiset<Event>>, ghost n: Net, a: Action)
    returns (events: seq<multiset<Event>>)
    requires Registered(t) && Represents(t, subs, before, n) && Enabled(n, a)
    modifies subs, PipesOf(subs)
    ensures Represents(t, subs, events, Apply(t, n, a))
  {
    if ByCoroutine(a) {
      events := TakeStep(t, subs, before, n, a);
    } else {
      events := TakeMoveAmong(t, subs, before, n, a);
    }
  }

  // ---------------------------------------------------------------- whole runs

  /** Whatever happens in a run, to the objects it happens as in the model. */
  method Play(t: Topology, subs: seq<Subsystem>, before: seq<multiset<Event>>, acts: seq<Action>, ghost ns: seq<Net>)
    returns (events: seq<multiset<Event>>)
    requires Registered(t) && Run(t, ns, acts) && Represents(t, subs, before, ns[0])
    modifies subs, PipesOf(subs)
    ensures Represents(t, subs, events, ns[|acts|])
  {
    events := before;
    var i := 0;
    while i < |acts|
      invariant 0 <= i <= |acts|
      invariant Represents(t, subs, events, ns[i])
    {
      Next(t, ns, acts, i);
      events := Advance(t, subs, events, ns[i], acts[i]);
      i := i + 1;
    }
  }

  lemma Next(t: Topology, ns: seq<Net>, acts: seq<Action>, i: nat)
    requires Registered(t) && Run(t, ns, acts) && i < |acts|
    ensures Enabled(ns[i], acts[i]) && ns[i+1] == Apply(t, ns[i], acts[i])
  {
  }
}
