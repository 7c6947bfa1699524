/**
 A subsystem that is meant to be online works only while all its children are online:
 in every run of start and stop commands, whatever the clients and the interleaving.
 */
module DependencySafety {
  import opened States
  import opened ClientBits
  import opened Umbilicals
  import opened SubsystemModel
  import opened Network
  import opened CommandSteps
  import opened OwedEvents

  /** The property. */
  ghost predicate ChildrenServe(t: Topology, n: Net)
    requires |n| == |t| && Registered(t)
  {
    forall p, d | 0 <= p < |t| && d in t[p] && n[p].l.admin == AdminOnline && Relying(n[p].l.oper) ::
      n[d].l.oper == Online
  }

  // ---------------------------------------------------------------- the runs considered

  /**
   Start and stop commands by any clients; no abort or restart command, every launch
   succeeds, no connection is lost and no process stops unless it was asked to.
   */
  predicate Commanded(n: Net, a: Action)
    requires Enabled(n, a)
  {
    match a
    case DoEntry(s, _, launch) => launch >= |n[s].l.procs|
    case DoEvent(_, _, _, aborting) => !aborting
    case LinkLost(_, _) => false
    case ProcCrashes(_, _) => false
    case DelayOver(_) => false
    case ClientSends(_, m) => m.ChangeAdmin?
    case _ => true
  }

  // ---------------------------------------------------------------- the whole system

  /** The invariant of every command run. */
  ghost predicate Inv(t: Topology, n: Net)
    requires Registered(t) && |n| == |t|
  {
    && ChildrenServe(t, n)
    && (forall i | 0 <= i < |n| :: Steady(n[i].l) && Tidy(n[i].l, n[i].events))
    && (forall i, m | 0 <= i < |n| && m in n[i].queue :: CommandMessage(m))
  }

  /** Where every system starts: nothing runs, and nothing has been asked of anybody. */
  ghost predicate Fresh(t: Topology, n: Net) {
    && |n| == |t|
    && forall i | 0 <= i < |n| ::
         && n[i].l.admin == AdminOffline && n[i].l.oper == Offline
         && n[i].l.coros == [Scheduled(Offline, NO_CLIENT)]
         && n[i].queue == [] && n[i].events == multiset{}
         && n[i].l.AllStopped() && n[i].l.launched == {} && n[i].l.stopRequested == {}
  }

  lemma CoroutineKeepsInv(t: Topology, n: Net, s: SubId, e: Effect, queue: seq<Message>, events: multiset<Event>)
    requires Registered(t) && |n| == |t| && s < |n| && Inv(t, n)
    requires Considerate(n[s].l, View(t, n, s), e) && Tidy(e.l, events)
    requires forall m | m in queue :: m in n[s].queue
    ensures Inv(t, Deliver(t, n, s, e, queue, events))
  {
    DeliverKeepsServing(t, n, s, e, queue, events);
    DeliverKeepsEach(t, n, s, e, queue, events);
  }

  /** Each subsystem for itself, and what it is told. */
  lemma DeliverKeepsEach(t: Topology, n: Net, s: SubId, e: Effect, queue: seq<Message>, events: multiset<Event>)
    requires Registered(t) && |n| == |t| && s < |n| && Steady(e.l) && Tidy(e.l, events)
    requires forall i | 0 <= i < |n| :: Steady(n[i].l) && Tidy(n[i].l, n[i].events)
    requires forall i, m | 0 <= i < |n| && m in n[i].queue :: CommandMessage(m)
    requires forall i | 0 <= i < |e.ups| :: CommandState(e.ups[i])
    requires forall m | m in queue :: m in n[s].queue
    ensures var n' := Deliver(t, n, s, e, queue, events);
      && (forall i | 0 <= i < |n'| :: Steady(n'[i].l) && Tidy(n'[i].l, n'[i].events))
      && (forall i, m | 0 <= i < |n'| && m in n'[i].queue :: CommandMessage(m))
  {
    var n' := Deliver(t, n, s, e, queue, events);
    forall i, m | 0 <= i < |n'| && m in n'[i].queue ensures CommandMessage(m) {
      if i == s {
        assert m in n[s].queue;
      } else {
        assert m in n[i].queue || m in Reports(s, e.ups) || m in Commands(e.downs);
      }
    }
  }

  lemma DeliverKeepsServing(t: Topology, n: Net, s: SubId, e: Effect, queue: seq<Message>, events: multiset<Event>)
    requires Registered(t) && |n| == |t| && s < |n| && ChildrenServe(t, n)
    requires Considerate(n[s].l, View(t, n, s), e)
    ensures ChildrenServe(t, Deliver(t, n, s, e, queue, events))
  {
    var n' := Deliver(t, n, s, e, queue, events);
    var nb := View(t, n, s);
    forall p, d | 0 <= p < |t| && d in t[p] && n'[p].l.admin == AdminOnline && Relying(n'[p].l.oper)
      ensures n'[d].l.oper == Online
    {
      if d == s {
        assert p in nb.parents && nb.parents[p] == GlimpseOf(n[p]);
      } else if p == s {
        assert d in nb.children && nb.children[d] == GlimpseOf(n[d]);
      }
    }
  }

  /** What StageZero owes a subsystem after one of its coroutines has run. */
  function EventsAfter(x: Sub, a: Action): multiset<Event> {
    if a.DoEvent? then x.events - multiset{a.v} else x.events
  }

  lemma CoroutineConsiderate(t: Topology, n: Net, a: Action)
    requires Registered(t) && |n| == |t| && Inv(t, n) && Enabled(n, a) && Commanded(n, a) && ByCoroutine(a)
    ensures Considerate(n[a.s].l, View(t, n, a.s), EffectOf(t, n, a))
    ensures Tidy(EffectOf(t, n, a).l, EventsAfter(n[a.s], a))
  {
    var l, events := n[a.s].l, n[a.s].events;
    var nb := View(t, n, a.s);
    match a
    case DoEntry(_, _, launch) =>
      EntryConsiderate(l, nb, launch);
      EntryTidy(l, nb, launch, events);
    case DoMessage(_, _) =>
      MessageConsiderate(l, nb, n[a.s].queue[0]);
      MessageTidy(l, nb, n[a.s].queue[0], events);
    case DoEvent(_, _, v, _) =>
      TidyEvent(l, events, v);
      EventConsiderate(l, nb, v);
      EventTidy(l, nb, v, events);
    case DoExpire(_, _) => assert false;
  }

  lemma SurroundKeepsInv(t: Topology, n: Net, a: Action)
    requires Registered(t) && |n| == |t| && Inv(t, n) && Enabled(n, a) && Commanded(n, a) && !ByCoroutine(a)
    ensures Inv(t, Apply(t, n, a))
  {
    assert Steady(n[a.s].l) && Tidy(n[a.s].l, n[a.s].events);
    SurroundKeepsOne(n, a);
    SurroundTidy(n, a);
    ReplaceKeepsInv(t, n, a.s, Surround(n[a.s], a));
  }

  lemma ReplaceKeepsInv(t: Topology, n: Net, s: SubId, y: Sub)
    requires Registered(t) && |n| == |t| && s < |n| && Inv(t, n)
    requires y.l.oper == n[s].l.oper && y.l.admin == n[s].l.admin
    requires Steady(y.l) && Tidy(y.l, y.events) && forall m | m in y.queue :: CommandMessage(m)
    ensures Inv(t, n[s := y])
  {
  }

  lemma SurroundKeepsOne(n: Net, a: Action)
    requires Enabled(n, a) && Commanded(n, a) && !ByCoroutine(a)
    requires Steady(n[a.s].l) && forall m | m in n[a.s].queue :: CommandMessage(m)
    ensures var y := Surround(n[a.s], a);
      && y.l.oper == n[a.s].l.oper && y.l.admin == n[a.s].l.admin
      && Steady(y.l) && forall m | m in y.queue :: CommandMessage(m)
  {
    var x, y := n[a.s], Surround(n[a.s], a);
    assert y.l == x.l.(umbilicals := y.l.umbilicals, connectors := y.l.connectors, launched := y.l.launched,
                       stopRequested := y.l.stopRequested);
  }

  lemma SurroundTidy(n: Net, a: Action)
    requires Enabled(n, a) && Commanded(n, a) && !ByCoroutine(a)
    requires Steady(n[a.s].l) && Tidy(n[a.s].l, n[a.s].events)
    ensures var y := Surround(n[a.s], a); Steady(y.l) ==> Tidy(y.l, y.events)
  {
  }

  lemma StepKeepsInv(t: Topology, n: Net, a: Action)
    requires Registered(t) && |n| == |t| && Inv(t, n) && Enabled(n, a) && Commanded(n, a)
    ensures Inv(t, Apply(t, n, a))
  {
    if ByCoroutine(a) {
      CoroutineConsiderate(t, n, a);
      CoroutineKeepsInv(t, n, a.s, EffectOf(t, n, a),
        if a.DoMessage? then n[a.s].queue[1..] else n[a.s].queue,
        EventsAfter(n[a.s], a));
    } else {
      SurroundKeepsInv(t, n, a);
    }
  }

  ghost predicate InvKept(t: Topology, n: Net, n': Net)
    requires Registered(t)
  {
    |n| == |t| && Inv(t, n) ==> |n'| == |t| && Inv(t, n')
  }

  lemma {:induction false} InvKeptUpTo(t: Topology, ns: seq<Net>, i: nat)
    requires Registered(t) && i < |ns| && |ns[0]| == |t| && Inv(t, ns[0])
    requires forall k {:trigger ns[k]} | 0 <= k < i :: InvKept(t, ns[k], ns[k+1])
    ensures |ns[i]| == |t| && Inv(t, ns[i])
  {
    if i > 0 {
      InvKeptUpTo(t, ns, i - 1);
      assert InvKept(t, ns[i-1], ns[i-1+1]);
    }
  }

  lemma FreshInv(t: Topology, n: Net)
    requires Registered(t) && Fresh(t, n)
    ensures Inv(t, n)
  {
  }

  /** Dependency safety: in every state of every command run from a fresh system. */
  lemma ChildrenServeAlways(t: Topology, ns: seq<Net>, acts: seq<Action>, i: nat)
    requires Registered(t) && Run(t, ns, acts) && Fresh(t, ns[0])
    requires forall j | 0 <= j < |acts| :: Commanded(ns[j], acts[j])
    requires i < |ns|
    ensures ChildrenServe(t, ns[i]) && Inv(t, ns[i])
  {
    FreshInv(t, ns[0]);
    forall k {:trigger ns[k]} | 0 <= k < i ensures InvKept(t, ns[k], ns[k+1]) {
      assert Commanded(ns[k], acts[k]);
      if Inv(t, ns[k]) {
        StepKeepsInv(t, ns[k], acts[k]);
      }
    }
    InvKeptUpTo(t, ns, i);
  }
}
