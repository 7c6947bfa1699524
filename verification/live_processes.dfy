/**
 Which processes are alive on their StageZero, and what the flags of a subsystem say of it.
 */
module LiveProcesses {
  import opened States
  import opened ClientBits
  import opened Umbilicals
  import opened SubsystemModel
  import opened Network
  import ReferenceCounts

  // ---------------------------------------------------------------- processes that are alive

  /** The live processes of one subsystem after something has happened to it. */
  function AliveAfter(alive: set<ProcId>, a: Action): set<ProcId> {
    match a
    case ProcStarts(_, p) => alive + {p}
    case ProcStops(_, p) => alive - {p}
    case ProcCrashes(_, p) => alive - {p}
    case _ => alive
  }

  function AllAliveAfter(alive: seq<set<ProcId>>, a: Action): (r: seq<set<ProcId>>)
    ensures |r| == |alive|
  {
    if a.s < |alive| then alive[a.s := AliveAfter(alive[a.s], a)] else alive
  }

  /** The live processes after the first i actions of a run that began with the given ones. */
  function AliveAt(alive: seq<set<ProcId>>, acts: seq<Action>, i: nat): (r: seq<set<ProcId>>)
    requires i <= |acts|
    ensures |r| == |alive|
  {
    if i == 0 then alive else AllAliveAfter(AliveAt(alive, acts, i - 1), acts[i-1])
  }

  /** A flag is honest as long as its process is alive or its stop is still on its way. */
  ghost predicate Honest(x: Sub, alive: set<ProcId>) {
    forall p | 0 <= p < |x.l.procs| && x.l.procs[p].running :: p in alive || StopEvent(p) in x.events
  }

  ghost predicate AllHonest(n: Net, alive: seq<set<ProcId>>)
    requires |alive| == |n|
  {
    forall i | 0 <= i < |n| :: Honest(n[i], alive[i])
  }

  // ---------------------------------------------------------------- where a stop is ignored

  /** The states in which a stop event leaves the flag of its process as it is. */
  predicate IgnoresStop(l: Local, t: Coro, p: ProcId, aborting: bool)
    requires Serves(t)
  {
    t.Live? &&
    match t.state
    case Online => aborting || l.critical
    case StartingProcesses => aborting || l.critical
    case RestartingProcesses => p in t.started && (aborting || l.critical)
    case StoppingProcesses => false
    case Restarting => false
    case _ => true
  }

  /** Whether the flag of process p is set after an event about some process. */
  predicate FlagThen(l: Local, t: Coro, v: Event, p: ProcId, aborting: bool)
    requires Serves(t) && p < |l.procs|
  {
    match v
    case StartEvent(q) => l.procs[p].running || (q == p && ReferenceCounts.StartsProcess(t, v))
    case StopEvent(q) => l.procs[p].running && (q == p ==> IgnoresStop(l, t, p, aborting))
    case _ => l.procs[p].running
  }

  ghost predicate FlagsThen(l: Local, t: Coro, v: Event, aborting: bool, r: Local)
    requires Serves(t)
  {
    && |r.procs| == |l.procs|
    && forall p | 0 <= p < |l.procs| :: r.procs[p].running <==> FlagThen(l, t, v, p, aborting)
  }

  lemma StartingProcessesFlags(e: Effect, t: Coro, v: Event, aborting: bool)
    requires t.Live? && t.state == StartingProcesses
    ensures FlagsThen(e.l, t, v, aborting, StartingProcessesEvent(e, t, v, aborting).l)
  {
  }

  lemma OnlineFlags(e: Effect, t: Coro, v: Event, aborting: bool)
    requires t.Live? && t.state == Online && !v.DisconnectEvent?
    ensures FlagsThen(e.l, t, v, aborting, OnlineEvent(e, t, v, aborting).l)
  {
  }

  lemma StoppingProcessesFlags(e: Effect, t: Coro, v: Event, aborting: bool)
    requires t.Live? && t.state == StoppingProcesses && !v.DisconnectEvent?
    ensures FlagsThen(e.l, t, v, aborting, StoppingProcessesEvent(e, t, v).l)
  {
  }

  lemma RestartingFlags(e: Effect, t: Coro, nb: Neighbours, v: Event, aborting: bool)
    requires t.Live? && t.state == Restarting
    ensures FlagsThen(e.l, t, v, aborting, RestartingEvent(e, t, nb, v).l)
  {
  }

  lemma RestartingProcessesFlags(e: Effect, t: Coro, v: Event, aborting: bool)
    requires t.Live? && t.state == RestartingProcesses
    ensures FlagsThen(e.l, t, v, aborting, RestartingProcessesEvent(e, t, v, aborting).l)
  {
  }

  lemma HandledFlags(e: Effect, t: Coro, nb: Neighbours, v: Event, aborting: bool)
    requires Serves(t) && !v.DisconnectEvent?
    ensures FlagsThen(e.l, t, v, aborting, HandleEvent(e, t, nb, v, aborting).l)
  {
    if t.Live? {
      match t.state {
        case StartingProcesses => StartingProcessesFlags(e, t, v, aborting);
        case Online => OnlineFlags(e, t, v, aborting);
        case StoppingProcesses => StoppingProcessesFlags(e, t, v, aborting);
        case Restarting => RestartingFlags(e, t, nb, v, aborting);
        case RestartingProcesses => RestartingProcessesFlags(e, t, v, aborting);
        case _ =>
      }
    }
  }

  /** A stop event leaves the flag of its process set exactly in the states that ignore it. */
  lemma StopLeavesFlag(l: Local, k: nat, nb: Neighbours, p: ProcId, aborting: bool)
    requires k < |l.coros| && Serves(l.coros[k]) && p < |l.procs| && l.procs[p].running
    ensures var r := TakeEvent(l, k, nb, StopEvent(p), aborting).l;
      |r.procs| == |l.procs| && (r.procs[p].running <==> IgnoresStop(l, l.coros[k], p, aborting))
  {
    HandledFlags(Without(l, k), l.coros[k], nb, StopEvent(p), aborting);
  }

  // ---------------------------------------------------------------- honest flags, exactly

  /**
   * An event is taken that makes a flag lie: the only stop event of a dead process where it is ignored,
   * or a start event of a process that has died since, and whose stop event has been taken already.
   */
  predicate Deceives(x: Sub, alive: set<ProcId>, a: Action)
    requires EnabledAt(x, a)
  {
    a.DoEvent? &&
    match a.v
    case StartEvent(p) =>
      && p < |x.l.procs| && ReferenceCounts.StartsProcess(x.l.coros[a.k], a.v)
      && p !in alive && StopEvent(p) !in x.events
    case StopEvent(p) =>
      && p < |x.l.procs| && x.l.procs[p].running && IgnoresStop(x.l, x.l.coros[a.k], p, a.aborting)
      && p !in alive && x.events[a.v] == 1
    case _ => false
  }

  predicate StartsNothing(l: Local, r: Local) {
    |r.procs| == |l.procs| && forall p | 0 <= p < |l.procs| :: r.procs[p].running ==> l.procs[p].running
  }

  lemma LossStartsNothing(l: Local, k: nat, nb: Neighbours, v: Event, aborting: bool)
    requires k < |l.coros| && Serves(l.coros[k]) && v.DisconnectEvent?
    ensures StartsNothing(l, TakeEvent(l, k, nb, v, aborting).l)
  {
    var e, t := Read(Without(l, k), v), l.coros[k];
    if ReferenceCounts.DropsProcesses(t, v) {
      ReferenceCounts.DisconnectComputeCalmer(e.l, v.compute, 0);
    } else {
      ReferenceCounts.HandledEventStep(e, t, nb, v, aborting);
    }
  }

  lemma EventHonest(x: Sub, nb: Neighbours, a: Action, alive: set<ProcId>)
    requires EnabledAt(x, a) && a.DoEvent? && Honest(x, alive)
    ensures Honest(Sub(Turn(x, nb, a).l, x.queue, x.events - multiset{a.v}), alive) <==> !Deceives(x, alive, a)
  {
    var r := Turn(x, nb, a).l;
    var events := x.events - multiset{a.v};
    if a.v.DisconnectEvent? {
      LossStartsNothing(x.l, a.k, nb, a.v, a.aborting);
    } else {
      HandledFlags(Without(x.l, a.k), x.l.coros[a.k], nb, a.v, a.aborting);
      forall p | 0 <= p < |r.procs| ensures StopEvent(p) in events <==>
        if a.v == StopEvent(p) then x.events[a.v] > 1 else StopEvent(p) in x.events
      {
      }
      if a.v.StartEvent? || a.v.StopEvent? {
        if a.v.proc < |r.procs| {
          assert r.procs[a.v.proc].running <==> FlagThen(x.l, x.l.coros[a.k], a.v, a.v.proc, a.aborting);
        }
      }
    }
  }

  /** Whatever else a coroutine does sets no flag. */
  lemma TurnHonest(x: Sub, nb: Neighbours, a: Action, alive: set<ProcId>, queue: seq<Message>)
    requires EnabledAt(x, a) && ByCoroutine(a) && !a.DoEvent? && Honest(x, alive)
    ensures Honest(Sub(Turn(x, nb, a).l, queue, x.events), alive)
  {
    match a
    case DoEntry(_, k, launch) => ReferenceCounts.EntryCalmer(x.l, k, nb, launch);
    case DoMessage(_, k) => ReferenceCounts.MessageCalmer(x.l, k, nb, x.queue[0]);
    case DoExpire(_, k) =>
  }

  lemma SurroundHonest(x: Sub, a: Action, alive: set<ProcId>)
    requires EnabledAt(x, a) && !ByCoroutine(a) && Honest(x, alive)
    ensures Honest(Surround(x, a), AliveAfter(alive, a))
  {
  }

  lemma ActorHonest(t: Topology, n: Net, a: Action, alive: seq<set<ProcId>>)
    requires Registered(t) && |n| == |t| == |alive| && Enabled(n, a) && Honest(n[a.s], alive[a.s])
    ensures Honest(Apply(t, n, a)[a.s], AliveAfter(alive[a.s], a)) <==> !Deceives(n[a.s], alive[a.s], a)
  {
    var nb := View(t, n, a.s);
    if a.DoEvent? {
      EventHonest(n[a.s], nb, a, alive[a.s]);
    } else if ByCoroutine(a) {
      TurnHonest(n[a.s], nb, a, alive[a.s], if a.DoMessage? then n[a.s].queue[1..] else n[a.s].queue);
    } else {
      SurroundHonest(n[a.s], a, alive[a.s]);
    }
  }

  lemma OthersHonest(t: Topology, n: Net, a: Action, alive: seq<set<ProcId>>, i: SubId)
    requires Registered(t) && |n| == |t| == |alive| && Enabled(n, a) && i < |n| && i != a.s && Honest(n[i], alive[i])
    ensures Honest(Apply(t, n, a)[i], AllAliveAfter(alive, a)[i])
  {
  }

  /** A step keeps all flags honest exactly unless it takes an event that makes one lie. */
  lemma StepHonest(t: Topology, n: Net, a: Action, alive: seq<set<ProcId>>)
    requires Registered(t) && |n| == |t| == |alive| && Enabled(n, a) && AllHonest(n, alive)
    ensures AllHonest(Apply(t, n, a), AllAliveAfter(alive, a)) <==> !Deceives(n[a.s], alive[a.s], a)
  {
    assert Honest(n[a.s], alive[a.s]);
    ActorHonest(t, n, a, alive);
    forall i | 0 <= i < |n| && i != a.s ensures Honest(Apply(t, n, a)[i], AllAliveAfter(alive, a)[i]) {
      OthersHonest(t, n, a, alive, i);
    }
    OneDecides(Apply(t, n, a), AllAliveAfter(alive, a), a.s);
  }

  lemma OneDecides(n: Net, alive: seq<set<ProcId>>, s: nat)
    requires |n| == |alive| && s < |n| && forall i | 0 <= i < |n| && i != s :: Honest(n[i], alive[i])
    ensures AllHonest(n, alive) <==> Honest(n[s], alive[s])
  {
  }

  ghost predicate HonestKept(n: Net, alive: seq<set<ProcId>>, n': Net, alive': seq<set<ProcId>>) {
    |n| == |alive| && AllHonest(n, alive) ==> |n'| == |alive'| && AllHonest(n', alive')
  }

  lemma {:induction false} HonestUpTo(ns: seq<Net>, acts: seq<Action>, alive: seq<set<ProcId>>, i: nat)
    requires |ns| == |acts| + 1 && i < |ns| && |ns[0]| == |alive| && AllHonest(ns[0], alive)
    requires forall k {:trigger ns[k]} | 0 <= k < i ::
      HonestKept(ns[k], AliveAt(alive, acts, k), ns[k+1], AliveAt(alive, acts, k + 1))
    ensures |ns[i]| == |alive| && AllHonest(ns[i], AliveAt(alive, acts, i))
  {
    if i > 0 {
      HonestUpTo(ns, acts, alive, i - 1);
      assert HonestKept(ns[i-1], AliveAt(alive, acts, i - 1), ns[i-1+1], AliveAt(alive, acts, i - 1 + 1));
    }
  }

  /** Step j of a run takes an event that makes a flag lie. */
  ghost predicate DeceivesAt(t: Topology, ns: seq<Net>, acts: seq<Action>, alive: seq<set<ProcId>>, j: nat)
    requires Registered(t) && Run(t, ns, acts) && j < |acts| && |alive| == |t|
  {
    Deceives(ns[j][acts[j].s], AliveAt(alive, acts, j)[acts[j].s], acts[j])
  }

  /**
   * Over whole runs: as long as no such event has been taken, every process flagged as running is alive
   * or its stop is on its way; the next step ends that exactly when it takes one.
   */
  lemma HonestExactly(t: Topology, ns: seq<Net>, acts: seq<Action>, alive: seq<set<ProcId>>, i: nat)
    requires Registered(t) && Run(t, ns, acts) && i < |acts| && |alive| == |t| && AllHonest(ns[0], alive)
    requires forall j: nat | j < i :: !DeceivesAt(t, ns, acts, alive, j)
    ensures AllHonest(ns[i], AliveAt(alive, acts, i))
    ensures AllHonest(ns[i+1], AliveAt(alive, acts, i + 1)) <==> !DeceivesAt(t, ns, acts, alive, i)
  {
    forall k {:trigger ns[k]} | 0 <= k < i
      ensures HonestKept(ns[k], AliveAt(alive, acts, k), ns[k+1], AliveAt(alive, acts, k + 1))
    {
      assert !DeceivesAt(t, ns, acts, alive, k);
      if AllHonest(ns[k], AliveAt(alive, acts, k)) {
        StepHonest(t, ns[k], acts[k], AliveAt(alive, acts, k));
      }
    }
    HonestUpTo(ns, acts, alive, i);
    StepHonest(t, ns[i], acts[i], AliveAt(alive, acts, i));
  }
}
