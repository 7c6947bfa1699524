/**
 The whole system: every subsystem with its message queue and the StageZero events on
 their way to it, and one atomic step of it.
 */
module Network {
  import opened States
  import opened ClientBits
  import opened Umbilicals
  import opened SubsystemModel

  datatype Sub = Sub(l: Local, queue: seq<Message>, events: multiset<Event>)

  type Net = seq<Sub>

  /** The children of each subsystem; subsystems are numbered in the order they were added. */
  type Topology = seq<set<SubId>>

  /** A subsystem can only be added after all its children. */
  ghost predicate Registered(t: Topology) {
    forall p, d | 0 <= p < |t| && d in t[p] :: d < p
  }

  function Parents(t: Topology, d: SubId): set<SubId> {
    set p: SubId | p < |t| && d in t[p]
  }

  function GlimpseOf(x: Sub): Glimpse {
    Glimpse(x.l.admin, x.l.oper, x.l.clients)
  }

  function View(t: Topology, n: Net, s: SubId): Neighbours
    requires Registered(t) && |n| == |t| && s < |n|
  {
    Neighbours(map p | p in Parents(t, s) :: GlimpseOf(n[p]),
               map d | d in t[s] :: GlimpseOf(n[d]))
  }

  function Reports(s: SubId, ups: seq<OperState>): (r: seq<Message>)
    ensures |r| == |ups| && forall i | 0 <= i < |r| :: r[i] == ReportOper(s, ups[i])
  {
    seq(|ups|, i requires 0 <= i < |ups| => ReportOper(s, ups[i]))
  }

  function Commands(downs: seq<Down>): (r: seq<Message>)
    ensures |r| == |downs| && forall i | 0 <= i < |r| :: r[i] == ChangeAdmin(downs[i].admin, downs[i].client)
  {
    seq(|downs|, i requires 0 <= i < |downs| => ChangeAdmin(downs[i].admin, downs[i].client))
  }

  /** Subsystem s takes its new fields, queue and events; its neighbours receive what it sent. */
  function Deliver(t: Topology, n: Net, s: SubId, e: Effect, queue: seq<Message>, events: multiset<Event>): (r: Net)
    requires Registered(t) && |n| == |t| && s < |n|
    ensures |r| == |n| && r[s] == Sub(e.l, queue, events)
    ensures forall i | 0 <= i < |n| && i != s :: r[i] == Received(t, n[i], i, s, e)
  {
    seq(|n|, i requires 0 <= i < |n| =>
      if i == s then Sub(e.l, queue, events) else Received(t, n[i], i, s, e))
  }

  function Received(t: Topology, x: Sub, i: SubId, s: SubId, e: Effect): Sub
    requires i < |t| && s < |t|
  {
    if i in t[s] then x.(queue := x.queue + Commands(e.downs))
    else if s in t[i] then x.(queue := x.queue + Reports(s, e.ups))
    else x
  }

  datatype Action =
    // A coroutine of a subsystem runs.
    | DoEntry(s: SubId, k: nat, launch: nat)
    | DoMessage(s: SubId, k: nat)
    | DoEvent(s: SubId, k: nat, v: Event, aborting: bool)
    | DoExpire(s: SubId, k: nat)
    // The surroundings move.
    | LinkUp(s: SubId, compute: ComputeId)
    | LinkGivenUp(s: SubId, compute: ComputeId)
    | LinkLost(s: SubId, compute: ComputeId)
    | ProcStarts(s: SubId, p: ProcId)
    | ProcStops(s: SubId, p: ProcId)
    | ProcCrashes(s: SubId, p: ProcId)
    | OtherArrives(s: SubId)
    | DelayOver(s: SubId)
    | ClientSends(s: SubId, m: Message)

  predicate EnabledAt(x: Sub, a: Action) {
    match a
    case DoEntry(_, k, _) => k < |x.l.coros| && x.l.coros[k].Scheduled?
    case DoMessage(_, k) => k < |x.l.coros| && Serves(x.l.coros[k]) && x.queue != []
    case DoEvent(_, k, v, _) => k < |x.l.coros| && Serves(x.l.coros[k]) && v in x.events
    case DoExpire(_, k) => k < |x.l.coros| && (x.l.coros[k].RestartWait? || x.l.coros[k].LaunchSleep?)
    case LinkUp(_, c) => c in x.l.connectors && c in x.l.umbilicals && x.l.umbilicals[c].state == LinkConnecting
    case LinkGivenUp(_, c) => c in x.l.connectors && x.l.oper != Connecting
    case LinkLost(_, c) => c in x.l.umbilicals && x.l.umbilicals[c].IsConnected()
    case ProcStarts(_, p) => p in x.l.launched && p < |x.l.procs|
    case ProcStops(_, p) => p in x.l.stopRequested && p < |x.l.procs|
    case ProcCrashes(_, p) => p < |x.l.procs| && x.l.procs[p].running
    case OtherArrives(_) => true
    case DelayOver(_) => x.l.delayed > 0
    case ClientSends(_, m) => !m.ReportOper?
  }

  predicate Enabled(n: Net, a: Action) {
    a.s < |n| && EnabledAt(n[a.s], a)
  }

  /** What the surroundings do to one subsystem. */
  function Surround(x: Sub, a: Action): Sub
    requires !(a.DoEntry? || a.DoMessage? || a.DoEvent? || a.DoExpire?)
  {
    match a
    case LinkUp(_, c) =>
      if c !in x.l.umbilicals then x
      else x.(l := x.l.(umbilicals := x.l.umbilicals[c := x.l.umbilicals[c].Connect(true)],
                        connectors := x.l.connectors - {c}),
              events := x.events + multiset{ConnectEvent(c)})
    case LinkGivenUp(_, c) => x.(l := x.l.(connectors := x.l.connectors - {c}))
    case LinkLost(_, c) => x.(events := x.events + multiset{DisconnectEvent(c)})
    case ProcStarts(_, p) =>
      x.(l := x.l.(launched := x.l.launched - {p}), events := x.events + multiset{StartEvent(p)})
    case ProcStops(_, p) =>
      x.(l := x.l.(stopRequested := x.l.stopRequested - {p}), events := x.events + multiset{StopEvent(p)})
    case ProcCrashes(_, p) => x.(events := x.events + multiset{StopEvent(p)})
    case OtherArrives(_) => x.(events := x.events + multiset{OtherEvent})
    case DelayOver(_) =>
      if x.l.delayed == 0 then x
      else x.(l := x.l.(delayed := x.l.delayed - 1), queue := x.queue + [RestartCrashed])
    case ClientSends(_, m) => x.(queue := x.queue + [m])
  }

  predicate ByCoroutine(a: Action) {
    a.DoEntry? || a.DoMessage? || a.DoEvent? || a.DoExpire?
  }

  /** What a coroutine does when it runs. */
  function Turn(x: Sub, nb: Neighbours, a: Action): Effect
    requires EnabledAt(x, a) && ByCoroutine(a)
  {
    match a
    case DoEntry(_, k, launch) => RunEntry(x.l, k, nb, launch)
    case DoMessage(_, k) => TakeMessage(x.l, k, nb, x.queue[0])
    case DoEvent(_, k, v, aborting) => TakeEvent(x.l, k, nb, v, aborting)
    case DoExpire(_, k) => Expire(x.l, k)
  }

  function EffectOf(t: Topology, n: Net, a: Action): Effect
    requires Registered(t) && |n| == |t| && Enabled(n, a) && ByCoroutine(a)
  {
    Turn(n[a.s], View(t, n, a.s), a)
  }

  function Apply(t: Topology, n: Net, a: Action): (r: Net)
    requires Registered(t) && |n| == |t| && Enabled(n, a)
    ensures |r| == |n|
  {
    var x := n[a.s];
    if ByCoroutine(a) then
      Deliver(t, n, a.s, EffectOf(t, n, a),
              if a.DoMessage? then x.queue[1..] else x.queue,
              if a.DoEvent? then x.events - multiset{a.v} else x.events)
    else
      n[a.s := Surround(x, a)]
  }

  /** A finite run: every action is enabled and leads to the next state. */
  ghost predicate Run(t: Topology, ns: seq<Net>, acts: seq<Action>)
    requires Registered(t)
  {
    && |ns| == |acts| + 1
    && (forall i | 0 <= i < |ns| :: |ns[i]| == |t|)
    && forall i {:trigger acts[i]} | 0 <= i < |acts| :: Enabled(ns[i], acts[i]) && ns[i+1] == Apply(t, ns[i], acts[i])
  }
}
