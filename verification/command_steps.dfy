/**
 What start and stop commands make a single subsystem do: what it keeps for itself, and what each
 of its steps promises the others.
 */
module CommandSteps {
  import opened States
  import opened ClientBits
  import opened Umbilicals
  import opened SubsystemModel

  /** States in which a subsystem relies on its children. */
  predicate Relying(o: OperState) {
    o == Connecting || o == StartingProcesses || o == Online
  }

  predicate CommandMessage(m: Message) {
    match m
    case ChangeAdmin(_, _) => true
    case ReportOper(_, o) => CommandState(o)
    case _ => false
  }

  predicate CommandState(o: OperState) {
    o != Restarting && o != RestartingProcesses && o != Broken && o != Degraded
  }

  // ---------------------------------------------------------------- what each subsystem keeps

  /** Some client wants this subsystem up, as far as its own state goes. */
  predicate Wanted(t: Coro) {
    match t
    case Scheduled(o, _) => o == StartingChildren || Relying(o)
    case Live(o, _, nx, _, _, _) =>
      || (o == StartingChildren && nx == Connecting)
      || o == Connecting
      || (o == StartingProcesses && nx == Online)
      || o == Online
      || (o == StoppingProcesses && nx == Connecting)
      || (o == StoppingChildren && nx == StartingChildren)
    case _ => false
  }

  predicate NextFits(t: Coro, admin: AdminState)
    requires t.Live?
  {
    match t.state
    case Offline => t.next == Offline
    case StartingChildren => t.next == Connecting || (t.next == StoppingChildren && admin == AdminOffline)
    case Connecting => true
    case StartingProcesses => t.next == Online || (t.next == StoppingProcesses && admin == AdminOffline)
    case Online => t.next == Online
    case StoppingProcesses => t.next == Connecting || t.next == StoppingChildren
    case StoppingChildren => t.next == StartingChildren || t.next == Offline
    case _ => false
  }

  predicate Steady(l: Local) {
    && |l.coros| == 1
    && (l.coros[0].Scheduled? || l.coros[0].Live?)
    && l.coros[0].state == l.oper
    && CommandState(l.oper)
    && (l.coros[0].Live? ==> NextFits(l.coros[0], l.admin))
    && (Wanted(l.coros[0]) ==> !l.clients.IsEmpty())
    && (l.oper in {Offline, StoppingProcesses, StoppingChildren} ==> l.admin == AdminOffline)
  }

  /** What a step of one subsystem promises the others. */
  ghost predicate Considerate(l: Local, nb: Neighbours, e: Effect) {
    && Steady(e.l)
    && (l.oper == Online && e.l.oper != Online ==> nb.ParentsOffline())
    && (e.l.admin == AdminOnline && Relying(e.l.oper) ==>
          (l.admin == AdminOnline && Relying(l.oper)) || nb.ChildrenOnline())
    && (forall i | 0 <= i < |e.ups| :: CommandState(e.ups[i]))
  }

  // ---------------------------------------------------------------- loops leave the control state alone

  predicate SameControl(l: Local, r: Local) {
    r == l.(procs := r.procs, umbilicals := r.umbilicals, connectors := r.connectors,
            stopRequested := r.stopRequested)
  }

  lemma ConnectFromControl(l: Local, p: ProcId)
    ensures SameControl(l, ConnectFrom(l, p))
    decreases |l.procs| - p
  {
    if p < |l.procs| {
      ConnectFromControl(ConnectProcess(l, p), p + 1);
    }
  }

  lemma DisconnectFromControl(l: Local, p: ProcId)
    ensures SameControl(l, DisconnectFrom(l, p))
    decreases |l.procs| - p
  {
    if p < |l.procs| {
      DisconnectFromControl(DisconnectProcess(l, p), p + 1);
    }
  }

  lemma StopFromControl(l: Local, p: ProcId)
    ensures SameControl(l, StopFrom(l, p))
    decreases |l.procs| - p
  {
    if p < |l.procs| {
      StopFromControl(StopProcess(l, p), p + 1);
    }
  }

  // ---------------------------------------------------------------- each kind of step is considerate

  /** Subsystem l is about to perform the entry actions of state o. */
  ghost predicate Entering(l: Local, o: OperState, e: Effect) {
    Steady(l) && l.oper == o && l.coros[0].Scheduled? && e == Effect(l.(coros := []), [], [])
  }

  lemma OfflineEntryConsiderate(l: Local, nb: Neighbours, e: Effect)
    requires Entering(l, Offline, e)
    ensures Considerate(l, nb, OfflineEntry(e, l.coros[0].client))
  {
    DisconnectFromControl(e.l.(numRestarts := 0), 0);
  }

  lemma ConnectingEntryConsiderate(l: Local, nb: Neighbours, e: Effect)
    requires Entering(l, Connecting, e)
    ensures Considerate(l, nb, ConnectingEntry(e, l.coros[0].client))
  {
    ConnectFromControl(e.l.(oper := Connecting), 0);
  }

  lemma StoppingProcessesEntryConsiderate(l: Local, nb: Neighbours, e: Effect)
    requires Entering(l, StoppingProcesses, e)
    ensures Considerate(l, nb, StoppingProcessesEntry(e, l.coros[0].client))
  {
    StopFromControl(e.l, 0);
  }

  lemma StartingProcessesEntryConsiderate(l: Local, nb: Neighbours, e: Effect, launch: nat)
    requires Entering(l, StartingProcesses, e) && launch >= |l.procs|
    ensures Considerate(l, nb, StartingProcessesEntry(e, l.coros[0].client, launch))
  {
  }

  lemma EntryConsiderate(l: Local, nb: Neighbours, launch: nat)
    requires Steady(l) && l.coros[0].Scheduled? && launch >= |l.procs|
    ensures Considerate(l, nb, RunEntry(l, 0, nb, launch))
  {
    var e := Effect(l.(coros := []), [], []);
    assert Without(l, 0) == e;
    match l.oper {
      case Offline => OfflineEntryConsiderate(l, nb, e);
      case Connecting => ConnectingEntryConsiderate(l, nb, e);
      case StartingProcesses => StartingProcessesEntryConsiderate(l, nb, e, launch);
      case StoppingProcesses => StoppingProcessesEntryConsiderate(l, nb, e);
      case _ =>
    }
  }

  /** Subsystem l is about to handle something in state o; e is where its handler starts. */
  ghost predicate Handling(l: Local, o: OperState, e: Effect, t: Coro) {
    && Steady(l) && l.oper == o && l.coros[0].Live? && t == l.coros[0]
    && e == Effect(l.(coros := []), [], [])
  }

  lemma OfflineMessageConsiderate(l: Local, nb: Neighbours, e: Effect, t: Coro, m: Message)
    requires Handling(l, Offline, e, t) && CommandMessage(m)
    ensures Considerate(l, nb, OfflineMessage(e, t, m))
  {
  }

  lemma StartingChildrenCommandConsiderate(l: Local, nb: Neighbours, e: Effect, t: Coro, m: Message)
    requires Handling(l, StartingChildren, e, t) && CommandMessage(m) && m.ChangeAdmin?
    ensures Considerate(l, nb, StartingChildrenMessage(e, t, nb, m))
  {
  }

  lemma StartingChildrenMessageConsiderate(l: Local, nb: Neighbours, e: Effect, t: Coro, m: Message)
    requires Handling(l, StartingChildren, e, t) && CommandMessage(m)
    ensures Considerate(l, nb, StartingChildrenMessage(e, t, nb, m))
  {
    if m.ChangeAdmin? {
      StartingChildrenCommandConsiderate(l, nb, e, t, m);
    }
  }

  lemma ConnectingMessageConsiderate(l: Local, nb: Neighbours, e: Effect, t: Coro, m: Message)
    requires Handling(l, Connecting, e, t) && CommandMessage(m)
    ensures Considerate(l, nb, ConnectingMessage(e, t, m))
  {
  }

  lemma StartingProcessesMessageConsiderate(l: Local, nb: Neighbours, e: Effect, t: Coro, m: Message)
    requires Handling(l, StartingProcesses, e, t) && CommandMessage(m)
    ensures Considerate(l, nb, StartingProcessesMessage(e, t, m))
  {
  }

  lemma OnlineMessageConsiderate(l: Local, nb: Neighbours, e: Effect, t: Coro, m: Message)
    requires Handling(l, Online, e, t) && CommandMessage(m)
    ensures Considerate(l, nb, OnlineMessage(e, t, nb, m))
  {
  }

  lemma StoppingProcessesMessageConsiderate(l: Local, nb: Neighbours, e: Effect, t: Coro, m: Message)
    requires Handling(l, StoppingProcesses, e, t) && CommandMessage(m)
    ensures Considerate(l, nb, StoppingProcessesMessage(e, t, m))
  {
  }

  lemma StoppingChildrenCommandConsiderate(l: Local, nb: Neighbours, e: Effect, t: Coro, m: Message)
    requires Handling(l, StoppingChildren, e, t) && CommandMessage(m) && m.ChangeAdmin?
    ensures Considerate(l, nb, StoppingChildrenMessage(e, t, nb, m))
  {
  }

  lemma StoppingChildrenMessageConsiderate(l: Local, nb: Neighbours, e: Effect, t: Coro, m: Message)
    requires Handling(l, StoppingChildren, e, t) && CommandMessage(m)
    ensures Considerate(l, nb, StoppingChildrenMessage(e, t, nb, m))
  {
    if m.ChangeAdmin? {
      StoppingChildrenCommandConsiderate(l, nb, e, t, m);
    } else {
      StoppingChildrenReportConsiderate(l, nb, e, t, m);
    }
  }

  lemma StoppingChildrenReportConsiderate(l: Local, nb: Neighbours, e: Effect, t: Coro, m: Message)
    requires Handling(l, StoppingChildren, e, t) && CommandMessage(m) && m.ReportOper?
    ensures Considerate(l, nb, StoppingChildrenMessage(e, t, nb, m))
  {
  }

  lemma MessageConsiderate(l: Local, nb: Neighbours, m: Message)
    requires Steady(l) && l.coros[0].Live? && CommandMessage(m)
    ensures Considerate(l, nb, TakeMessage(l, 0, nb, m))
  {
    var e := Effect(l.(coros := []), [], []);
    var t := l.coros[0];
    assert Without(l, 0) == e;
    match l.oper {
      case Offline => OfflineMessageConsiderate(l, nb, e, t, m);
      case StartingChildren => StartingChildrenMessageConsiderate(l, nb, e, t, m);
      case Connecting => ConnectingMessageConsiderate(l, nb, e, t, m);
      case StartingProcesses => StartingProcessesMessageConsiderate(l, nb, e, t, m);
      case Online => OnlineMessageConsiderate(l, nb, e, t, m);
      case StoppingProcesses => StoppingProcessesMessageConsiderate(l, nb, e, t, m);
      case StoppingChildren => StoppingChildrenMessageConsiderate(l, nb, e, t, m);
    }
  }

  predicate CommandEvent(o: OperState, v: Event) {
    !v.DisconnectEvent? && (v.StopEvent? ==> o == StoppingProcesses)
  }

  lemma StartingChildrenEventConsiderate(l: Local, nb: Neighbours, e: Effect, t: Coro, v: Event)
    requires Handling(l, StartingChildren, e, t)
    ensures Considerate(l, nb, StartingChildrenEvent(e, t, nb, v))
  {
  }

  lemma ConnectingEventConsiderate(l: Local, nb: Neighbours, e: Effect, t: Coro, v: Event)
    requires Handling(l, Connecting, e, t)
    ensures Considerate(l, nb, ConnectingEvent(e, t, v))
  {
  }

  lemma StartingProcessesEventConsiderate(l: Local, nb: Neighbours, e: Effect, t: Coro, v: Event)
    requires Handling(l, StartingProcesses, e, t) && CommandEvent(StartingProcesses, v)
    ensures Considerate(l, nb, StartingProcessesEvent(e, t, v, false))
  {
  }

  lemma StoppingProcessesEventConsiderate(l: Local, nb: Neighbours, e: Effect, t: Coro, v: Event)
    requires Handling(l, StoppingProcesses, e, t) && CommandEvent(StoppingProcesses, v)
    ensures Considerate(l, nb, StoppingProcessesEvent(e, t, v))
  {
  }

  lemma StoppingChildrenEventConsiderate(l: Local, nb: Neighbours, e: Effect, t: Coro)
    requires Handling(l, StoppingChildren, e, t)
    ensures Considerate(l, nb, StoppingChildrenCheck(e, t, nb))
  {
  }

  lemma EventConsiderate(l: Local, nb: Neighbours, v: Event)
    requires Steady(l) && l.coros[0].Live? && CommandEvent(l.oper, v)
    ensures Considerate(l, nb, TakeEvent(l, 0, nb, v, false))
  {
    var e := Effect(l.(coros := []), [], []);
    var t := l.coros[0];
    assert Without(l, 0) == e;
    match l.oper {
      case StartingChildren => StartingChildrenEventConsiderate(l, nb, e, t, v);
      case Connecting => ConnectingEventConsiderate(l, nb, e, t, v);
      case StartingProcesses => StartingProcessesEventConsiderate(l, nb, e, t, v);
      case StoppingProcesses => StoppingProcessesEventConsiderate(l, nb, e, t, v);
      case StoppingChildren => StoppingChildrenEventConsiderate(l, nb, e, t);
      case _ =>
    }
  }
}
