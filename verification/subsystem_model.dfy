/**
 What one subsystem does in one step, as functions of its own fields and of what it
 reads of its neighbours.  A subsystem is driven by a coroutine: EnterState changes
 oper at once and schedules a coroutine; when that runs it performs the entry actions
 of the state and then serves messages and StageZero events until it leaves.
 */
module SubsystemModel {
  import opened States
  import opened ClientBits
  import opened Umbilicals

  type SubId = nat
  type ProcId = nat
  type ComputeId = nat

  const MAX_RESTART_DELAY: nat := 32

  datatype Message =
    | ChangeAdmin(admin: AdminState, client: ClientId)
    | ReportOper(sender: SubId, oper: OperState)
    | Abort(emergency: bool)
    | Restart(client: ClientId)
    | RestartSome(client: ClientId, procs: seq<ProcId>)
    | RestartCrashed

  /** Events from StageZero. OtherEvent is output, log, parameter or telemetry. */
  datatype Event =
    | ConnectEvent(compute: ComputeId)
    | DisconnectEvent(compute: ComputeId)
    | StartEvent(proc: ProcId)
    | StopEvent(proc: ProcId)
    | OtherEvent

  datatype Proc = Proc(compute: ComputeId, maybeConnected: bool, running: bool,
                       numRestarts: int, maxRestarts: int, restartDelay: nat)

  /** A state coroutine: scheduled, serving its state, or asleep inside a restart. */
  datatype Coro =
    | Scheduled(state: OperState, client: ClientId)
    | Live(state: OperState, client: ClientId, next: OperState,
           notified: set<SubId>, requests: set<ClientId>, started: set<ProcId>)
    | RestartWait(client: ClientId)
    | LaunchSleep(client: ClientId)

  function Serving(state: OperState, client: ClientId, next: OperState): Coro {
    Live(state, client, next, {}, {}, {})
  }

  /**
   The fields of a subsystem.  The last four belong to its surroundings: umbilical
   connections being made, launches and stops StageZero has accepted but not yet
   answered, and crashed processes whose restart delay is running.
   */
  datatype Local = Local(
    admin: AdminState,
    oper: OperState,
    clients: Bits,
    coros: seq<Coro>,
    procs: seq<Proc>,
    umbilicals: map<ComputeId, Umb>,
    toRestart: seq<ProcId>,
    numRestarts: int,
    maxRestarts: int,
    restartDelay: nat,
    policy: RestartPolicy,
    critical: bool,
    connectors: set<ComputeId>,
    launched: set<ProcId>,
    stopRequested: set<ProcId>,
    delayed: nat)
  {
    predicate AllRunning() {
      forall p | 0 <= p < |procs| :: procs[p].running
    }

    predicate AllStopped() {
      forall p | 0 <= p < |procs| :: !procs[p].running
    }

    predicate StoppedAmong(ps: seq<ProcId>) {
      forall p | p in ps && p < |procs| :: !procs[p].running
    }

    predicate AllConnected() {
      forall p | 0 <= p < |procs| ::
        procs[p].compute in umbilicals && umbilicals[procs[p].compute].IsConnected()
    }

    function SetRunning(p: ProcId, running: bool): Local {
      if p < |procs| then this.(procs := procs[p := procs[p].(running := running)]) else this
    }
  }

  /** What a neighbour shows of itself. */
  datatype Glimpse = Glimpse(admin: AdminState, oper: OperState, clients: Bits)

  datatype Neighbours = Neighbours(parents: map<SubId, Glimpse>, children: map<SubId, Glimpse>) {
    predicate ParentsOffline() {
      forall p | p in parents :: parents[p].admin == AdminOffline
    }

    predicate ChildrenOnline() {
      forall d | d in children :: children[d].oper == Online
    }

    /** Every child either stays online or has dropped all the given clients. */
    predicate Released(requests: set<ClientId>) {
      forall d | d in children ::
        children[d].admin == AdminOnline || forall c | c in requests :: !children[d].clients.Contains(c)
    }
  }

  datatype Down = Down(admin: AdminState, client: ClientId)

  /** A subsystem's new fields, its reports to every parent and its commands to every child. */
  datatype Effect = Effect(l: Local, ups: seq<OperState>, downs: seq<Down>) {
    function Notify(): Effect {
      this.(ups := ups + [l.oper])
    }

    function Send(admin: AdminState, client: ClientId): Effect {
      this.(downs := downs + [Down(admin, client)])
    }

    function Enter(state: OperState, client: ClientId): Effect {
      this.(l := l.(oper := state, coros := l.coros + [Scheduled(state, client)]))
    }

    function Stay(c: Coro): Effect {
      this.(l := l.(coros := l.coros + [c]))
    }

    function SetAdmin(admin: AdminState): Effect {
      this.(l := l.(admin := admin))
    }
  }

  // ---------------------------------------------------------------- processes

  function ConnectProcess(l: Local, p: ProcId): Local
    requires p < |l.procs|
  {
    if l.procs[p].maybeConnected then l
    else
      var k := l.procs[p].compute;
      var l1 := l.(procs := l.procs[p := l.procs[p].(maybeConnected := true)]);
      if k !in l.umbilicals then l1
      else l1.(umbilicals := l.umbilicals[k := l.umbilicals[k].Precondition()],
               connectors := if l.umbilicals[k].WasClosed() then l.connectors + {k} else l.connectors)
  }

  function DisconnectProcess(l: Local, p: ProcId): Local
    requires p < |l.procs|
  {
    if !l.procs[p].maybeConnected then l
    else
      var k := l.procs[p].compute;
      var l1 := l.(procs := l.procs[p := l.procs[p].(maybeConnected := false, running := false)]);
      if k !in l.umbilicals then l1
      else l1.(umbilicals := l.umbilicals[k := l.umbilicals[k].Disconnect(false)])
  }

  /** A process that runs is asked to stop; one that does not run drops its connection. */
  function StopProcess(l: Local, p: ProcId): Local
    requires p < |l.procs|
  {
    if !l.procs[p].running then DisconnectProcess(l, p)
    else l.(procs := l.procs[p := l.procs[p].(numRestarts := 0)],
            stopRequested := l.stopRequested + {p})
  }

  // The loops over all processes, from process p on.

  function ConnectFrom(l: Local, p: ProcId): (r: Local)
    ensures |r.procs| == |l.procs|
    decreases |l.procs| - p
  {
    if p >= |l.procs| then l else ConnectFrom(ConnectProcess(l, p), p + 1)
  }

  function DisconnectFrom(l: Local, p: ProcId): (r: Local)
    ensures |r.procs| == |l.procs|
    decreases |l.procs| - p
  {
    if p >= |l.procs| then l else DisconnectFrom(DisconnectProcess(l, p), p + 1)
  }

  function DisconnectComputeFrom(l: Local, k: ComputeId, p: ProcId): (r: Local)
    ensures |r.procs| == |l.procs|
    decreases |l.procs| - p
  {
    if p >= |l.procs| then l
    else DisconnectComputeFrom(if l.procs[p].compute == k then DisconnectProcess(l, p) else l, k, p + 1)
  }

  function StopFrom(l: Local, p: ProcId): (r: Local)
    ensures |r.procs| == |l.procs|
    decreases |l.procs| - p
  {
    if p >= |l.procs| then l else StopFrom(StopProcess(l, p), p + 1)
  }

  function ResetProcessRestarts(l: Local): Local {
    l.(procs := seq(|l.procs|, p requires 0 <= p < |l.procs| => l.procs[p].(numRestarts := 0)))
  }

  function StopListed(l: Local, ps: seq<ProcId>): (r: Local)
    ensures |r.procs| == |l.procs|
    decreases |ps|
  {
    if ps == [] then l
    else
      var l1 := if ps[0] < |l.procs| && l.procs[ps[0]].running then StopProcess(l, ps[0]) else l;
      StopListed(l1, ps[1..])
  }

  /** An empty list restarts every process. */
  function StopForRestart(l: Local, ps: seq<ProcId>): Local {
    if ps == [] then StopFrom(l.(toRestart := seq(|l.procs|, p => p)), 0)
    else StopListed(l.(toRestart := ps), ps)
  }

  // ---------------------------------------------------------------- shared transitions

  function Min(a: nat, b: nat): nat {
    if a < b then a else b
  }

  function ClientsAfter(b: Bits, admin: AdminState, client: ClientId): Bits {
    if client == NO_CLIENT then b
    else if admin == AdminOnline then b.Set(client)
    else b.Clear(client)
  }

  /** Which state an admin command asks for; the client set decides. */
  function NextState(b: Bits, whenActive: OperState, whenNone: OperState): OperState {
    if b.IsEmpty() then whenNone else whenActive
  }

  /** HandleAdminCommand: parents expect to hear something even if nothing changes. */
  function Command(e: Effect, admin: AdminState, client: ClientId,
                   whenActive: OperState, whenNone: OperState): Effect {
    var e1 := e.(l := e.l.(clients := ClientsAfter(e.l.clients, admin, client)));
    if NextState(e1.l.clients, whenActive, whenNone) == e.l.oper then e1.Notify() else e1
  }

  function AbortLocal(l: Local): Local {
    l.(admin := AdminOffline, clients := l.clients.ClearAll(),
       procs := seq(|l.procs|, p requires 0 <= p < |l.procs| => l.procs[p].(running := false)))
  }

  function Aborted(e: Effect, t: Coro, emergency: bool): Effect {
    if !emergency && e.l.critical then e.Stay(t)
    else e.(l := AbortLocal(e.l)).Enter(Offline, NO_CLIENT)
  }

  function RestartNow(e: Effect, client: ClientId): Effect {
    e.Send(AdminOnline, client).Enter(StartingChildren, client)
  }

  /** A restart is charged to the budget and doubles the delay before the next one. */
  function ChargeRestart(l: Local): Local {
    l.(restartDelay := Min(MAX_RESTART_DELAY, l.restartDelay * 2), numRestarts := l.numRestarts + 1)
  }

  /** RestartIfPossibleAfterProcessCrash. */
  function Crashed(e: Effect, t: Coro, p: ProcId, aborting: bool): Effect
    requires t.Live?
  {
    if aborting || p >= |e.l.procs| || e.l.critical then e.Stay(t)
    else
      var l := e.l.SetRunning(p, false);
      var e1 := e.(l := l);
      if l.policy == ProcessOnly || l.oper == RestartingProcesses then
        if l.procs[p].numRestarts == l.procs[p].maxRestarts then e1.Enter(Degraded, t.client)
        else
          var q := l.procs[p].(numRestarts := l.procs[p].numRestarts + 1,
                               restartDelay := Min(MAX_RESTART_DELAY, l.procs[p].restartDelay * 2));
          e.(l := l.(procs := l.procs[p := q], delayed := l.delayed + 1)).Stay(t)
      else if l.policy == Manual then e1.Enter(Degraded, t.client)
      else if l.numRestarts == l.maxRestarts then e1.Enter(Broken, t.client)
      else e.(l := ChargeRestart(l)).Stay(RestartWait(t.client))
  }

  // ---------------------------------------------------------------- Offline

  function OfflineEntry(e: Effect, client: ClientId): Effect {
    var e1 := e.Notify();
    e1.(l := ResetProcessRestarts(DisconnectFrom(e1.l.(numRestarts := 0), 0)))
      .Stay(Serving(Offline, client, Offline))
  }

  function OfflineMessage(e: Effect, t: Coro, m: Message): Effect
    requires t.Live?
  {
    match m
    case ChangeAdmin(AdminOffline, _) => e.Notify().Stay(t)
    case ChangeAdmin(AdminOnline, c) =>
      var e1 := Command(e, AdminOnline, c, StartingChildren, Offline);
      if e1.l.clients.IsEmpty() then e1.Stay(t)
      else e1.SetAdmin(AdminOnline).Send(AdminOnline, c).Enter(StartingChildren, NO_CLIENT)
    case ReportOper(_, o) =>
      if o == Restarting then e.Enter(Restarting, t.client) else e.Notify().Stay(t)
    case _ => e.Stay(t)
  }

  // ---------------------------------------------------------------- StartingChildren

  function StartingChildrenEntry(e: Effect, nb: Neighbours, client: ClientId): Effect {
    if nb.children.Keys == {} then e.Enter(Connecting, client)
    else e.Notify().Stay(Serving(StartingChildren, client, Connecting))
  }

  function StartingChildrenCheck(e: Effect, t: Coro, nb: Neighbours): Effect
    requires t.Live?
  {
    if !(nb.children.Keys <= t.notified) then e.Stay(t)
    else if e.l.admin == AdminOffline then e.Enter(Offline, t.client)
    else if t.next != Connecting then e.Enter(t.next, t.client)
    else if !nb.ChildrenOnline() then e.Stay(t)
    else e.Enter(t.next, t.client)
  }

  function StartingChildrenMessage(e: Effect, t: Coro, nb: Neighbours, m: Message): Effect
    requires t.Live?
  {
    match m
    case ChangeAdmin(a, c) =>
      var e1 := Command(e, a, c, Connecting, StoppingChildren).Send(a, c);
      var nx := NextState(e1.l.clients, Connecting, StoppingChildren);
      var e2 := if nx == StoppingChildren then e1.SetAdmin(AdminOffline) else e1;
      StartingChildrenCheck(e2, t.(client := c, next := nx), nb)
    case ReportOper(d, o) =>
      if o == Broken then e.Enter(Broken, t.client)
      else
        var heard := o == Online || (e.l.admin == AdminOffline && o == Offline);
        var t1 := if heard then t.(notified := t.notified + {d}) else t;
        StartingChildrenCheck(e.Notify(), t1, nb)
    case Abort(emergency) => Aborted(e, t, emergency)
    case Restart(_) => e.Enter(Restarting, t.client)
    case RestartSome(_, _) => e.Stay(t)
    case RestartCrashed => e.Stay(t)
  }

  function StartingChildrenEvent(e: Effect, t: Coro, nb: Neighbours, v: Event): Effect
    requires t.Live?
  {
    if v.StopEvent? then e.Stay(t) else StartingChildrenCheck(e, t, nb)
  }

  // ---------------------------------------------------------------- Connecting

  function ConnectingEntry(e: Effect, client: ClientId): Effect {
    var e1 := e.(l := ConnectFrom(e.l.(oper := Connecting), 0));
    if e1.l.AllConnected() then e1.Enter(StartingProcesses, client)
    else e1.Notify().Stay(Serving(Connecting, client, Connecting))
  }

  function ConnectingCheck(e: Effect, t: Coro): Effect
    requires t.Live?
  {
    if e.l.AllConnected() then e.Enter(StartingProcesses, t.client).Send(AdminOnline, t.client)
    else e.Stay(t)
  }

  function ConnectingMessage(e: Effect, t: Coro, m: Message): Effect
    requires t.Live?
  {
    match m
    case ChangeAdmin(AdminOffline, c) =>
      Command(e, AdminOffline, c, StoppingProcesses, StoppingProcesses)
        .Enter(StoppingProcesses, c).SetAdmin(AdminOffline)
    case ChangeAdmin(AdminOnline, _) => ConnectingCheck(e, t)
    case ReportOper(_, _) => ConnectingCheck(e, t)
    case Abort(emergency) => Aborted(e, t, emergency)
    case Restart(_) => e.Enter(Restarting, t.client)
    case RestartSome(_, _) => e.Stay(t)
    case RestartCrashed => e.Stay(t)
  }

  function ConnectingEvent(e: Effect, t: Coro, v: Event): Effect
    requires t.Live?
  {
    if v.StopEvent? then e.Stay(t) else ConnectingCheck(e, t)
  }

  // ---------------------------------------------------------------- StartingProcesses

  /** Launching reaches the first `launch` processes; it succeeds when that is all of them. */
  function StartingProcessesEntry(e: Effect, client: ClientId, launch: nat): Effect {
    if e.l.admin == AdminOffline || e.l.procs == [] then
      e.Enter(if e.l.admin == AdminOffline then Offline else Online, client).Notify()
    else
      var l := e.l.(oper := StartingProcesses,
                    launched := e.l.launched + set p | 0 <= p < |e.l.procs| && p < launch && !e.l.procs[p].running);
      var e1 := e.(l := l);
      if launch >= |l.procs| then e1.Notify().Stay(Serving(StartingProcesses, client, Online))
      else if l.numRestarts == l.maxRestarts then e1.Enter(Broken, client)
      else e.(l := ChargeRestart(l)).Stay(LaunchSleep(client))
  }

  function StartingProcessesCheck(e: Effect, t: Coro): Effect
    requires t.Live?
  {
    if e.l.AllRunning() then e.Enter(t.next, t.client) else e.Stay(t)
  }

  function StartingProcessesMessage(e: Effect, t: Coro, m: Message): Effect
    requires t.Live?
  {
    match m
    case ChangeAdmin(a, c) =>
      var e1 := Command(e, a, c, Online, StoppingProcesses).Send(a, c);
      var nx := NextState(e1.l.clients, Online, StoppingProcesses);
      var e2 := if nx == StoppingProcesses then e1.SetAdmin(AdminOffline) else e1;
      StartingProcessesCheck(e2, t.(client := c, next := nx))
    case ReportOper(_, _) => StartingProcessesCheck(e.Notify(), t)
    case Abort(emergency) => Aborted(e, t, emergency)
    case Restart(_) => e.Enter(Restarting, t.client)
    case RestartSome(c, _) => e.Enter(StartingProcesses, c)
    case RestartCrashed => e.Enter(StartingProcesses, NO_CLIENT)
  }

  function StartingProcessesEvent(e: Effect, t: Coro, v: Event, aborting: bool): Effect
    requires t.Live?
  {
    match v
    case StartEvent(p) => StartingProcessesCheck(e.(l := e.l.SetRunning(p, true)), t)
    case StopEvent(p) =>
      if aborting then StartingProcessesCheck(e, t) else Crashed(e, t, p, aborting)
    case _ => StartingProcessesCheck(e, t)
  }

  // ---------------------------------------------------------------- Online

  function OnlineEntry(e: Effect, client: ClientId): Effect {
    e.Notify().Stay(Serving(Online, client, Online))
  }

  function OnlineMessage(e: Effect, t: Coro, nb: Neighbours, m: Message): Effect
    requires t.Live?
  {
    match m
    case ChangeAdmin(a, c) =>
      if a == AdminOffline && !nb.ParentsOffline() then e.Notify().Stay(t)
      else
        var e1 := Command(e, a, c, Online, StoppingProcesses);
        var nx := NextState(e1.l.clients, Online, StoppingProcesses);
        if nx == StoppingProcesses then e1.SetAdmin(AdminOffline).Enter(nx, c)
        else e1.Stay(t.(client := c, next := nx))
    case ReportOper(_, o) =>
      if o == Restarting then e.Enter(Restarting, t.client)
      else if o == Broken then e.Enter(Broken, t.client)
      else e.Stay(t)
    case Abort(emergency) => Aborted(e, t, emergency)
    case Restart(_) => e.Enter(Restarting, t.client)
    case RestartSome(c, ps) => e.(l := StopForRestart(e.l, ps)).Enter(RestartingProcesses, c)
    case RestartCrashed => e.Enter(Connecting, NO_CLIENT)
  }

  function OnlineEvent(e: Effect, t: Coro, v: Event, aborting: bool): Effect
    requires t.Live?
  {
    match v
    case DisconnectEvent(k) => e.(l := DisconnectComputeFrom(e.l, k, 0)).Enter(Restarting, NO_CLIENT)
    case StopEvent(p) => Crashed(e, t, p, aborting)
    case _ => e.Stay(t)
  }

  // ---------------------------------------------------------------- StoppingProcesses

  function StoppingProcessesEntry(e: Effect, client: ClientId): Effect {
    if e.l.AllStopped() then e.Send(AdminOffline, client).Enter(StoppingChildren, client)
    else e.(l := StopFrom(e.l, 0)).Notify().Stay(Serving(StoppingProcesses, client, StoppingChildren))
  }

  function StoppingProcessesCheck(e: Effect, t: Coro): Effect
    requires t.Live?
  {
    if e.l.AllStopped() then e.Send(AdminOffline, t.client).Enter(t.next, t.client) else e.Stay(t)
  }

  function StoppingProcessesMessage(e: Effect, t: Coro, m: Message): Effect
    requires t.Live?
  {
    match m
    case ChangeAdmin(a, c) =>
      var e1 := Command(e, a, c, Connecting, StoppingChildren);
      StoppingProcessesCheck(e1, t.(client := c, next := NextState(e1.l.clients, Connecting, StoppingChildren)))
    case ReportOper(_, _) => StoppingProcessesCheck(e.Notify(), t)
    case Abort(emergency) => Aborted(e, t, emergency)
    case Restart(_) => e.Enter(Restarting, t.client)
    case RestartSome(_, _) => e.Stay(t)
    case RestartCrashed => e.Stay(t)
  }

  function StoppingProcessesEvent(e: Effect, t: Coro, v: Event): Effect
    requires t.Live?
  {
    match v
    case DisconnectEvent(k) => StoppingProcessesCheck(e.(l := DisconnectComputeFrom(e.l, k, 0)), t)
    case StopEvent(p) => StoppingProcessesCheck(e.(l := e.l.SetRunning(p, false)), t)
    case _ => StoppingProcessesCheck(e, t)
  }

  // ---------------------------------------------------------------- StoppingChildren

  function StoppingChildrenEntry(e: Effect, nb: Neighbours, client: ClientId): Effect {
    if nb.children.Keys == {} then e.Enter(Offline, client)
    else e.Notify().Stay(Live(StoppingChildren, client, Offline, {}, {client}, {}))
  }

  function StoppingChildrenCheck(e: Effect, t: Coro, nb: Neighbours): Effect
    requires t.Live?
  {
    if !(nb.children.Keys <= t.notified) then e.Stay(t)
    else if t.next == StartingChildren then e.Enter(t.next, t.client)
    else if !nb.Released(t.requests) then e.Stay(t)
    else e.Send(AdminOffline, t.client).Enter(t.next, t.client)
  }

  function StoppingChildrenMessage(e: Effect, t: Coro, nb: Neighbours, m: Message): Effect
    requires t.Live?
  {
    match m
    case ChangeAdmin(a, c) =>
      var e1 := Command(e, a, c, StartingChildren, Offline);
      var requests := if a == AdminOffline then t.requests + {c} else t.requests - {c};
      var nx := NextState(e1.l.clients, StartingChildren, Offline);
      StoppingChildrenCheck(e1, t.(client := c, next := nx, requests := requests), nb)
    case ReportOper(d, o) =>
      var t1 := if o == Online || o == Offline then t.(notified := t.notified + {d}) else t;
      StoppingChildrenCheck(e.Notify(), t1, nb)
    case Abort(emergency) => Aborted(e, t, emergency)
    case Restart(_) => e.Enter(Restarting, t.client)
    case RestartSome(_, _) => e.Stay(t)
    case RestartCrashed => e.Stay(t)
  }

  // ---------------------------------------------------------------- Restarting

  function RestartingEntry(e: Effect, nb: Neighbours, client: ClientId): Effect {
    if e.l.AllStopped() && nb.parents.Keys == {} then RestartNow(e, client)
    else
      var e1 := if e.l.AllStopped() then e.Notify() else e;
      e1.(l := StopFrom(e1.l, 0)).Stay(Serving(Restarting, client, Restarting))
  }

  function RestartingCheck(e: Effect, t: Coro, nb: Neighbours): Effect
    requires t.Live?
  {
    if !e.l.AllStopped() then e.Stay(t)
    else if nb.parents.Keys == {} then RestartNow(e, t.client)
    else e.Notify().Stay(t)
  }

  function RestartingMessage(e: Effect, t: Coro, nb: Neighbours, m: Message): Effect
    requires t.Live?
  {
    match m
    case ChangeAdmin(AdminOnline, _) => RestartNow(e, t.client)
    case ChangeAdmin(AdminOffline, _) => RestartingCheck(e.Notify(), t, nb)
    case ReportOper(_, _) => RestartingCheck(e, t, nb)
    case Abort(emergency) => Aborted(e, t, emergency)
    case _ => e.Stay(t)
  }

  function RestartingEvent(e: Effect, t: Coro, nb: Neighbours, v: Event): Effect
    requires t.Live?
  {
    if v.StopEvent? then RestartingCheck(e.(l := e.l.SetRunning(v.proc, false)), t, nb)
    else RestartingCheck(e, t, nb)
  }

  // ---------------------------------------------------------------- RestartingProcesses

  function RestartingProcessesEntry(e: Effect, nb: Neighbours, client: ClientId): Effect {
    if e.l.StoppedAmong(e.l.toRestart) && nb.parents.Keys == {} then e.Enter(Connecting, client)
    else
      var e1 := if e.l.StoppedAmong(e.l.toRestart) then e.Notify() else e;
      e1.Stay(Serving(RestartingProcesses, client, Connecting))
  }

  function RestartingProcessesCheck(e: Effect, t: Coro): Effect
    requires t.Live?
  {
    if e.l.StoppedAmong(e.l.toRestart) then e.Enter(Connecting, t.client) else e.Stay(t)
  }

  function RestartingProcessesMessage(e: Effect, t: Coro, m: Message): Effect
    requires t.Live?
  {
    match m
    case ChangeAdmin(AdminOnline, _) => e.Enter(Connecting, t.client)
    case ChangeAdmin(AdminOffline, _) => RestartingProcessesCheck(e.Notify(), t)
    case ReportOper(_, _) => RestartingProcessesCheck(e, t)
    case Abort(emergency) => Aborted(e, t, emergency)
    case Restart(_) => e.Stay(t)
    case RestartSome(_, _) => RestartingProcessesCheck(e, t)
    case RestartCrashed => e.Stay(t)
  }

  function RestartingProcessesEvent(e: Effect, t: Coro, v: Event, aborting: bool): Effect
    requires t.Live?
  {
    match v
    case StartEvent(p) =>
      var t1 := if p < |e.l.procs| then t.(started := t.started + {p}) else t;
      RestartingProcessesCheck(e.(l := e.l.SetRunning(p, true)), t1)
    case StopEvent(p) =>
      if p in t.started then Crashed(e, t.(started := t.started - {p}), p, aborting)
      else RestartingProcessesCheck(e.(l := e.l.SetRunning(p, false)), t)
    case _ => RestartingProcessesCheck(e, t)
  }

  // ---------------------------------------------------------------- Broken and Degraded

  function BrokenEntry(e: Effect, state: OperState, client: ClientId): Effect {
    e.Notify().Stay(Serving(state, client, state))
  }

  function Repaired(l: Local): Local {
    ResetProcessRestarts(l.(numRestarts := 0))
  }

  /** Commands act on the client the state was entered for, not on the sender. */
  function BrokenMessage(e: Effect, t: Coro, m: Message): Effect
    requires t.Live?
  {
    var l := Repaired(e.l);
    var setOne := e.(l := l.(clients := l.clients.Set(t.client)));
    match m
    case ChangeAdmin(AdminOnline, c) => setOne.Enter(StartingChildren, t.client).Send(AdminOnline, c)
    case ChangeAdmin(AdminOffline, c) =>
      e.(l := l.(clients := l.clients.Clear(t.client), admin := AdminOffline))
        .Enter(StoppingChildren, t.client).Send(AdminOffline, c)
    case Restart(c) =>
      // The admin part of a restart message is never filled in and reads as offline.
      setOne.Enter(StartingChildren, t.client).Send(AdminOffline, c)
    case ReportOper(_, _) => e.Stay(t)
    case Abort(emergency) => Aborted(e, t, emergency)
    case RestartSome(_, _) => setOne.Enter(Connecting, t.client)
    case RestartCrashed => e.Stay(t)
  }

  // ---------------------------------------------------------------- the restart wait

  function WaitMessage(e: Effect, t: Coro, m: Message): Effect
    requires t.RestartWait?
  {
    match m
    case ChangeAdmin(AdminOnline, _) => e.Enter(Restarting, t.client)
    case Abort(emergency) =>
      if !emergency && e.l.critical then e.Stay(t)
      else e.(l := AbortLocal(e.l)).Enter(Offline, NO_CLIENT).Enter(Restarting, t.client)
    case _ => e.Stay(t)
  }

  function WaitEvent(e: Effect, t: Coro, v: Event): Effect
    requires t.RestartWait?
  {
    if v.StopEvent? then e.(l := e.l.SetRunning(v.proc, false)).Stay(t) else e.Stay(t)
  }

  // ---------------------------------------------------------------- one step of coroutine k

  /** While a coroutine runs it is taken out of the list; staying puts it back. */
  function Without(l: Local, k: nat): Effect
    requires k < |l.coros|
  {
    Effect(l.(coros := l.coros[..k] + l.coros[k+1..]), [], [])
  }

  function RunEntry(l: Local, k: nat, nb: Neighbours, launch: nat): Effect
    requires k < |l.coros| && l.coros[k].Scheduled?
  {
    HandleEntry(Without(l, k), l.coros[k], nb, launch)
  }

  function HandleEntry(e: Effect, t: Coro, nb: Neighbours, launch: nat): Effect
    requires t.Scheduled?
  {
    var c := t.client;
    match t.state
    case Offline => OfflineEntry(e, c)
    case StartingChildren => StartingChildrenEntry(e, nb, c)
    case Connecting => ConnectingEntry(e, c)
    case StartingProcesses => StartingProcessesEntry(e, c, launch)
    case Online => OnlineEntry(e, c)
    case StoppingProcesses => StoppingProcessesEntry(e, c)
    case StoppingChildren => StoppingChildrenEntry(e, nb, c)
    case Restarting => RestartingEntry(e, nb, c)
    case RestartingProcesses => RestartingProcessesEntry(e, nb, c)
    case Broken => BrokenEntry(e, Broken, c)
    case Degraded => BrokenEntry(e, Degraded, c)
  }

  predicate Serves(c: Coro) {
    c.Live? || c.RestartWait?
  }

  function TakeMessage(l: Local, k: nat, nb: Neighbours, m: Message): Effect
    requires k < |l.coros| && Serves(l.coros[k])
  {
    HandleMessage(Without(l, k), l.coros[k], nb, m)
  }

  function HandleMessage(e: Effect, t: Coro, nb: Neighbours, m: Message): Effect
    requires Serves(t)
  {
    if t.RestartWait? then WaitMessage(e, t, m)
    else
      match t.state
      case Offline => OfflineMessage(e, t, m)
      case StartingChildren => StartingChildrenMessage(e, t, nb, m)
      case Connecting => ConnectingMessage(e, t, m)
      case StartingProcesses => StartingProcessesMessage(e, t, m)
      case Online => OnlineMessage(e, t, nb, m)
      case StoppingProcesses => StoppingProcessesMessage(e, t, m)
      case StoppingChildren => StoppingChildrenMessage(e, t, nb, m)
      case Restarting => RestartingMessage(e, t, nb, m)
      case RestartingProcesses => RestartingProcessesMessage(e, t, m)
      case Broken => BrokenMessage(e, t, m)
      case Degraded => BrokenMessage(e, t, m)
  }

  /** The loss of a connection is read as an event of its own, and the client closes its sockets. */
  function Read(e: Effect, v: Event): Effect {
    if v.DisconnectEvent? && v.compute in e.l.umbilicals
    then e.(l := e.l.(umbilicals := e.l.umbilicals[v.compute := e.l.umbilicals[v.compute].Lose()]))
    else e
  }

  function TakeEvent(l: Local, k: nat, nb: Neighbours, v: Event, aborting: bool): Effect
    requires k < |l.coros| && Serves(l.coros[k])
  {
    HandleEvent(Read(Without(l, k), v), l.coros[k], nb, v, aborting)
  }

  function HandleEvent(e: Effect, t: Coro, nb: Neighbours, v: Event, aborting: bool): Effect
    requires Serves(t)
  {
    if t.RestartWait? then WaitEvent(e, t, v)
    else
      match t.state
      case StartingChildren => StartingChildrenEvent(e, t, nb, v)
      case Connecting => ConnectingEvent(e, t, v)
      case StartingProcesses => StartingProcessesEvent(e, t, v, aborting)
      case Online => OnlineEvent(e, t, v, aborting)
      case StoppingProcesses => StoppingProcessesEvent(e, t, v)
      case StoppingChildren => StoppingChildrenCheck(e, t, nb)
      case Restarting => RestartingEvent(e, t, nb, v)
      case RestartingProcesses => RestartingProcessesEvent(e, t, v, aborting)
      case Offline => e.Stay(t)
      case Broken => e.Stay(t)
      case Degraded => e.Stay(t)
  }

  /** The restart delay, or the sleep after a failed launch, is over. */
  function Expire(l: Local, k: nat): Effect
    requires k < |l.coros| && (l.coros[k].RestartWait? || l.coros[k].LaunchSleep?)
  {
    Without(l, k).Enter(Restarting, l.coros[k].client)
  }
}
