/**
 What every subsystem keeps through any mix of commands, crashes, lost connections,
 restarts and aborts: one coroutine that matches its state, an admin state that agrees
 with the operational one, and a restart budget that is never exceeded.
 */
module ControlToken {
  import opened States
  import opened ClientBits
  import opened Umbilicals
  import opened SubsystemModel
  import opened Network
  import CommandSteps

  /** Exactly one coroutine, and it is the one of the current state. */
  predicate OneCoroutine(l: Local) {
    && |l.coros| == 1
    && match l.coros[0]
       case Scheduled(o, _) => o == l.oper
       case Live(o, _, _, _, _, _) => o == l.oper
       case RestartWait(_) => l.oper == Online || l.oper == StartingProcesses
       case LaunchSleep(_) => l.oper == StartingProcesses
  }

  predicate GoingDown(o: OperState) {
    o == Offline || o == StoppingProcesses || o == StoppingChildren
  }

  /** A subsystem that is or is going down is meant to be down. */
  predicate Agrees(l: Local) {
    GoingDown(l.oper) ==> l.admin == AdminOffline
  }

  /** A handler that has decided to go down has already recorded it. */
  predicate Decided(l: Local) {
    forall i | 0 <= i < |l.coros| && l.coros[i].Live? ::
      && (l.oper == StartingChildren && l.coros[i].next != Connecting ==> l.admin == AdminOffline)
      && (l.oper == StartingProcesses && l.coros[i].next != Online ==> l.admin == AdminOffline)
  }

  predicate Counters(l: Local) {
    l.numRestarts >= 0 && forall p | 0 <= p < |l.procs| :: l.procs[p].numRestarts >= 0
  }

  predicate Sound(l: Local) {
    OneCoroutine(l) && Agrees(l) && Decided(l) && Counters(l)
  }

  predicate CountStep(num: int, num': int, max: int) {
    num' == num || num' == 0 || (num' == num + 1 && num != max)
  }

  /** How one step may change the restart counters. */
  predicate BudgetStep(l: Local, r: Local) {
    && r.maxRestarts == l.maxRestarts
    && CountStep(l.numRestarts, r.numRestarts, l.maxRestarts)
    && r.restartDelay == (if r.numRestarts == l.numRestarts + 1 then Min(MAX_RESTART_DELAY, 2 * l.restartDelay)
                          else l.restartDelay)
    && |r.procs| == |l.procs|
    && forall p | 0 <= p < |l.procs| :: ProcStep(l.procs[p], r.procs[p])
  }

  /** The same for one process: its own count, and its own delay. */
  predicate ProcStep(p: Proc, q: Proc) {
    && q.maxRestarts == p.maxRestarts
    && CountStep(p.numRestarts, q.numRestarts, p.maxRestarts)
    && q.restartDelay == (if q.numRestarts == p.numRestarts + 1 then Min(MAX_RESTART_DELAY, 2 * p.restartDelay)
                          else p.restartDelay)
  }

  /** The one way to lose control: an abort that takes effect while a restart delay is served. */
  predicate AbortsWait(l: Local, m: Message) {
    |l.coros| == 1 && l.coros[0].RestartWait? && m.Abort? && (m.emergency || !l.critical)
  }

  /** What every step of a subsystem keeps. */
  predicate Controlled(l: Local, e: Effect) {
    Sound(e.l) && BudgetStep(l, e.l)
  }

  // ---------------------------------------------------------------- loops over processes

  /** The loops change connections and flags, and at most reset a restart count. */
  predicate LoopStep(l: Local, r: Local) {
    && CommandSteps.SameControl(l, r)
    && |r.procs| == |l.procs|
    && forall p | 0 <= p < |l.procs| ::
         && r.procs[p].maxRestarts == l.procs[p].maxRestarts && r.procs[p].restartDelay == l.procs[p].restartDelay
         && (r.procs[p].numRestarts == l.procs[p].numRestarts || r.procs[p].numRestarts == 0)
  }

  lemma ConnectLoop(l: Local, p: ProcId)
    ensures LoopStep(l, ConnectFrom(l, p))
    decreases |l.procs| - p
  {
    if p < |l.procs| {
      ConnectLoop(ConnectProcess(l, p), p + 1);
    }
  }

  lemma DisconnectLoop(l: Local, p: ProcId)
    ensures LoopStep(l, DisconnectFrom(l, p))
    decreases |l.procs| - p
  {
    if p < |l.procs| {
      DisconnectLoop(DisconnectProcess(l, p), p + 1);
    }
  }

  lemma DisconnectComputeLoop(l: Local, k: ComputeId, p: ProcId)
    ensures LoopStep(l, DisconnectComputeFrom(l, k, p))
    decreases |l.procs| - p
  {
    if p < |l.procs| {
      DisconnectComputeLoop(if l.procs[p].compute == k then DisconnectProcess(l, p) else l, k, p + 1);
    }
  }

  lemma StopLoop(l: Local, p: ProcId)
    ensures LoopStep(l, StopFrom(l, p))
    decreases |l.procs| - p
  {
    if p < |l.procs| {
      StopLoop(StopProcess(l, p), p + 1);
    }
  }

  lemma StopListedLoop(l: Local, ps: seq<ProcId>)
    ensures LoopStep(l, StopListed(l, ps))
    decreases |ps|
  {
    if ps != [] {
      StopListedLoop(if ps[0] < |l.procs| && l.procs[ps[0]].running then StopProcess(l, ps[0]) else l, ps[1..]);
    }
  }

  // ---------------------------------------------------------------- each kind of step

  /** Where the entry actions of state o start. */
  ghost predicate Entering(l: Local, o: OperState, e: Effect) {
    && Sound(l) && l.oper == o && l.coros[0].Scheduled?
    && e == Effect(l.(coros := []), [], [])
  }

  lemma OfflineEntryControlled(l: Local, e: Effect, c: ClientId)
    requires Entering(l, Offline, e)
    ensures Controlled(l, OfflineEntry(e, c))
  {
    DisconnectLoop(e.l.(numRestarts := 0), 0);
  }

  lemma ConnectingEntryControlled(l: Local, e: Effect, c: ClientId)
    requires Entering(l, Connecting, e)
    ensures Controlled(l, ConnectingEntry(e, c))
  {
    ConnectLoop(e.l.(oper := Connecting), 0);
  }

  lemma StartingProcessesEntryControlled(l: Local, e: Effect, c: ClientId, launch: nat)
    requires Entering(l, StartingProcesses, e)
    ensures Controlled(l, StartingProcessesEntry(e, c, launch))
  {
  }

  lemma StoppingProcessesEntryControlled(l: Local, e: Effect, c: ClientId)
    requires Entering(l, StoppingProcesses, e)
    ensures Controlled(l, StoppingProcessesEntry(e, c))
  {
    StopLoop(e.l, 0);
  }

  lemma RestartingEntryControlled(l: Local, nb: Neighbours, e: Effect, c: ClientId)
    requires Entering(l, Restarting, e)
    ensures Controlled(l, RestartingEntry(e, nb, c))
  {
    StopLoop(e.l, 0);
  }

  lemma PlainEntryControlled(l: Local, nb: Neighbours, e: Effect, c: ClientId)
    requires Sound(l) && l.coros[0].Scheduled? && e == Effect(l.(coros := []), [], [])
    ensures l.oper == StartingChildren ==> Controlled(l, StartingChildrenEntry(e, nb, c))
    ensures l.oper == Online ==> Controlled(l, OnlineEntry(e, c))
    ensures l.oper == StoppingChildren ==> Controlled(l, StoppingChildrenEntry(e, nb, c))
    ensures l.oper == RestartingProcesses ==> Controlled(l, RestartingProcessesEntry(e, nb, c))
    ensures l.oper == Broken || l.oper == Degraded ==> Controlled(l, BrokenEntry(e, l.oper, c))
  {
  }

  lemma EntryControlled(l: Local, nb: Neighbours, launch: nat)
    requires Sound(l) && l.coros[0].Scheduled?
    ensures Controlled(l, RunEntry(l, 0, nb, launch))
  {
    var e := Effect(l.(coros := []), [], []);
    var c := l.coros[0].client;
    assert Without(l, 0) == e;
    match l.oper {
      case Offline => OfflineEntryControlled(l, e, c);
      case Connecting => ConnectingEntryControlled(l, e, c);
      case StartingProcesses => StartingProcessesEntryControlled(l, e, c, launch);
      case StoppingProcesses => StoppingProcessesEntryControlled(l, e, c);
      case Restarting => RestartingEntryControlled(l, nb, e, c);
      case _ => PlainEntryControlled(l, nb, e, c);
    }
  }

  /** Subsystem l is about to handle something in state o; e is where its handler starts. */
  ghost predicate Handling(l: Local, o: OperState, e: Effect, t: Coro) {
    && Sound(l) && l.oper == o && l.coros[0].Live? && t == l.coros[0]
    && e == Effect(l.(coros := []), [], [])
  }

  lemma OfflineMessageControlled(l: Local, e: Effect, t: Coro, m: Message)
    requires Handling(l, Offline, e, t)
    ensures Controlled(l, OfflineMessage(e, t, m))
  {
  }

  lemma StartingChildrenCheckControlled(l: Local, nb: Neighbours, e: Effect, t: Coro)
    requires e.l.coros == [] && e.l.oper == StartingChildren && t.Live? && t.state == StartingChildren
    requires t.next != Connecting ==> e.l.admin == AdminOffline
    requires Counters(e.l) && BudgetStep(l, e.l)
    ensures Controlled(l, StartingChildrenCheck(e, t, nb))
  {
  }

  lemma StartingChildrenMessageControlled(l: Local, nb: Neighbours, e: Effect, t: Coro, m: Message)
    requires Handling(l, StartingChildren, e, t)
    ensures Controlled(l, StartingChildrenMessage(e, t, nb, m))
  {
    match m
    case ChangeAdmin(a, c) =>
      var e1 := Command(e, a, c, Connecting, StoppingChildren).Send(a, c);
      var nx := NextState(e1.l.clients, Connecting, StoppingChildren);
      var e2 := if nx == StoppingChildren then e1.SetAdmin(AdminOffline) else e1;
      StartingChildrenCheckControlled(l, nb, e2, t.(client := c, next := nx));
    case ReportOper(d, o) =>
      StartingChildrenCheckControlled(l, nb, e.Notify(), t);
      StartingChildrenCheckControlled(l, nb, e.Notify(), t.(notified := t.notified + {d}));
    case _ =>
  }

  lemma ConnectingMessageControlled(l: Local, e: Effect, t: Coro, m: Message)
    requires Handling(l, Connecting, e, t)
    ensures Controlled(l, ConnectingMessage(e, t, m))
  {
  }

  lemma StartingProcessesMessageControlled(l: Local, e: Effect, t: Coro, m: Message)
    requires Handling(l, StartingProcesses, e, t)
    ensures Controlled(l, StartingProcessesMessage(e, t, m))
  {
  }

  lemma OnlineMessageControlled(l: Local, nb: Neighbours, e: Effect, t: Coro, m: Message)
    requires Handling(l, Online, e, t)
    ensures Controlled(l, OnlineMessage(e, t, nb, m))
  {
    if m.RestartSome? {
      RestartSomeControlled(l, nb, e, t, m);
    }
  }

  lemma RestartSomeControlled(l: Local, nb: Neighbours, e: Effect, t: Coro, m: Message)
    requires Handling(l, Online, e, t) && m.RestartSome?
    ensures Controlled(l, OnlineMessage(e, t, nb, m))
  {
    StopLoop(e.l.(toRestart := seq(|e.l.procs|, p => p)), 0);
    StopListedLoop(e.l.(toRestart := m.procs), m.procs);
  }

  lemma StoppingProcessesMessageControlled(l: Local, e: Effect, t: Coro, m: Message)
    requires Handling(l, StoppingProcesses, e, t)
    ensures Controlled(l, StoppingProcessesMessage(e, t, m))
  {
  }

  lemma StoppingChildrenCommandControlled(l: Local, nb: Neighbours, e: Effect, t: Coro, m: Message)
    requires Handling(l, StoppingChildren, e, t) && m.ChangeAdmin?
    ensures Controlled(l, StoppingChildrenMessage(e, t, nb, m))
  {
  }

  lemma StoppingChildrenMessageControlled(l: Local, nb: Neighbours, e: Effect, t: Coro, m: Message)
    requires Handling(l, StoppingChildren, e, t)
    ensures Controlled(l, StoppingChildrenMessage(e, t, nb, m))
  {
    if m.ChangeAdmin? {
      StoppingChildrenCommandControlled(l, nb, e, t, m);
    } else if m.ReportOper? {
      StoppingChildrenReportControlled(l, nb, e, t, m);
    }
  }

  lemma StoppingChildrenReportControlled(l: Local, nb: Neighbours, e: Effect, t: Coro, m: Message)
    requires Handling(l, StoppingChildren, e, t) && m.ReportOper?
    ensures Controlled(l, StoppingChildrenMessage(e, t, nb, m))
  {
  }

  lemma RestartingMessageControlled(l: Local, nb: Neighbours, e: Effect, t: Coro, m: Message)
    requires Handling(l, Restarting, e, t)
    ensures Controlled(l, RestartingMessage(e, t, nb, m))
  {
  }

  lemma RestartingProcessesMessageControlled(l: Local, e: Effect, t: Coro, m: Message)
    requires Handling(l, RestartingProcesses, e, t)
    ensures Controlled(l, RestartingProcessesMessage(e, t, m))
  {
  }

  lemma BrokenMessageControlled(l: Local, e: Effect, t: Coro, m: Message)
    requires Handling(l, Broken, e, t) || Handling(l, Degraded, e, t)
    ensures Controlled(l, BrokenMessage(e, t, m))
  {
  }

  /** What holds when a process of a running subsystem has crashed. */
  predicate Crashing(l: Local, e: Effect, t: Coro) {
    && Sound(l) && l.oper in {StartingProcesses, Online, RestartingProcesses}
    && e == Effect(l.(coros := []), [], [])
    && t.Live? && t.state == l.oper && Decided(l.(coros := [t]))
  }

  lemma CrashedAloneControlled(l: Local, e: Effect, t: Coro, p: ProcId)
    requires Crashing(l, e, t) && (l.policy == ProcessOnly || l.oper == RestartingProcesses)
    ensures Controlled(l, Crashed(e, t, p, false))
  {
  }

  lemma CrashedControlled(l: Local, e: Effect, t: Coro, p: ProcId, aborting: bool)
    requires Crashing(l, e, t)
    ensures Controlled(l, Crashed(e, t, p, aborting))
  {
    if !aborting && (l.policy == ProcessOnly || l.oper == RestartingProcesses) {
      CrashedAloneControlled(l, e, t, p);
    }
  }

  lemma StartingChildrenEventControlled(l: Local, nb: Neighbours, e: Effect, t: Coro, v: Event)
    requires Handling(l, StartingChildren, e, t)
    ensures Controlled(l, StartingChildrenEvent(e, t, nb, v))
  {
  }

  lemma ConnectingEventControlled(l: Local, e: Effect, t: Coro, v: Event)
    requires Handling(l, Connecting, e, t)
    ensures Controlled(l, ConnectingEvent(e, t, v))
  {
  }

  lemma StartingProcessesCheckControlled(l: Local, e: Effect, t: Coro)
    requires Sound(l) && l.oper == StartingProcesses && Flagged(l, e) && t == l.coros[0] && t.Live?
    ensures Controlled(l, StartingProcessesCheck(e, t))
  {
  }

  lemma StartingProcessesEventControlled(l: Local, e: Effect, t: Coro, v: Event, aborting: bool)
    requires Handling(l, StartingProcesses, e, t)
    ensures Controlled(l, StartingProcessesEvent(e, t, v, aborting))
  {
    match v
    case StartEvent(p) =>
      SetRunningFlags(l, e, p, true);
      StartingProcessesCheckControlled(l, e.(l := e.l.SetRunning(p, true)), t);
    case StopEvent(p) =>
      CrashedControlled(l, e, t, p, aborting);
      StartingProcessesCheckControlled(l, e, t);
    case _ => StartingProcessesCheckControlled(l, e, t);
  }

  lemma OnlineEventControlled(l: Local, e: Effect, t: Coro, v: Event, aborting: bool)
    requires Handling(l, Online, e, t)
    ensures Controlled(l, OnlineEvent(e, t, v, aborting))
  {
    if v.StopEvent? {
      CrashedControlled(l, e, t, v.proc, aborting);
    }
    if v.DisconnectEvent? {
      DisconnectComputeLoop(e.l, v.compute, 0);
    }
  }

  lemma StoppingProcessesEventControlled(l: Local, e: Effect, t: Coro, v: Event)
    requires Handling(l, StoppingProcesses, e, t)
    ensures Controlled(l, StoppingProcessesEvent(e, t, v))
  {
    if v.DisconnectEvent? {
      DisconnectComputeLoop(e.l, v.compute, 0);
    }
  }

  lemma StoppingChildrenEventControlled(l: Local, nb: Neighbours, e: Effect, t: Coro)
    requires Handling(l, StoppingChildren, e, t)
    ensures Controlled(l, StoppingChildrenCheck(e, t, nb))
  {
  }

  /** So far the handler has at most changed which processes run. */
  predicate Flagged(l: Local, e: Effect) {
    && e.l == l.(coros := [], procs := e.l.procs)
    && |e.l.procs| == |l.procs|
    && forall p | 0 <= p < |l.procs| ::
         && e.l.procs[p].maxRestarts == l.procs[p].maxRestarts && e.l.procs[p].restartDelay == l.procs[p].restartDelay
         && e.l.procs[p].numRestarts == l.procs[p].numRestarts
  }

  lemma SetRunningFlags(l: Local, e: Effect, p: ProcId, running: bool)
    requires e.l == l.(coros := [])
    ensures Flagged(l, e.(l := e.l.SetRunning(p, running)))
  {
  }

  lemma RestartingCheckControlled(l: Local, nb: Neighbours, e: Effect, t: Coro)
    requires Sound(l) && l.oper == Restarting && Flagged(l, e) && t == l.coros[0] && t.Live?
    ensures Controlled(l, RestartingCheck(e, t, nb))
  {
  }

  lemma RestartingEventControlled(l: Local, nb: Neighbours, e: Effect, t: Coro, v: Event)
    requires Handling(l, Restarting, e, t)
    ensures Controlled(l, RestartingEvent(e, t, nb, v))
  {
    if v.StopEvent? {
      SetRunningFlags(l, e, v.proc, false);
      RestartingCheckControlled(l, nb, e.(l := e.l.SetRunning(v.proc, false)), t);
    } else {
      RestartingCheckControlled(l, nb, e, t);
    }
  }

  lemma RestartingProcessesCheckControlled(l: Local, e: Effect, t: Coro)
    requires Sound(l) && l.oper == RestartingProcesses && Flagged(l, e) && t.Live? && t.state == RestartingProcesses
    ensures Controlled(l, RestartingProcessesCheck(e, t))
  {
  }

  lemma RestartingProcessesEventControlled(l: Local, e: Effect, t: Coro, v: Event, aborting: bool)
    requires Handling(l, RestartingProcesses, e, t)
    ensures Controlled(l, RestartingProcessesEvent(e, t, v, aborting))
  {
    match v
    case StartEvent(p) =>
      SetRunningFlags(l, e, p, true);
      RestartingProcessesCheckControlled(l, e.(l := e.l.SetRunning(p, true)),
        if p < |e.l.procs| then t.(started := t.started + {p}) else t);
    case StopEvent(p) =>
      if p in t.started {
        CrashedControlled(l, e, t.(started := t.started - {p}), p, aborting);
      } else {
        SetRunningFlags(l, e, p, false);
        RestartingProcessesCheckControlled(l, e.(l := e.l.SetRunning(p, false)), t);
      }
    case _ => RestartingProcessesCheckControlled(l, e, t);
  }

  /** A message leaves one matching coroutine, unless it is an abort that lands in a restart wait. */
  lemma WaitMessageControlled(l: Local, nb: Neighbours, m: Message)
    requires Sound(l) && l.coros[0].RestartWait?
    ensures !AbortsWait(l, m) ==> Controlled(l, TakeMessage(l, 0, nb, m))
    ensures AbortsWait(l, m) ==> !OneCoroutine(TakeMessage(l, 0, nb, m).l)
  {
    var e := Effect(l.(coros := []), [], []);
    assert Without(l, 0) == e;
  }

  lemma LiveMessageControlled(l: Local, nb: Neighbours, m: Message)
    requires Sound(l) && l.coros[0].Live?
    ensures Controlled(l, TakeMessage(l, 0, nb, m))
  {
    var e := Effect(l.(coros := []), [], []);
    var t := l.coros[0];
    assert Without(l, 0) == e;
    match l.oper {
      case Offline => OfflineMessageControlled(l, e, t, m);
      case StartingChildren => StartingChildrenMessageControlled(l, nb, e, t, m);
      case Connecting => ConnectingMessageControlled(l, e, t, m);
      case StartingProcesses => StartingProcessesMessageControlled(l, e, t, m);
      case Online => OnlineMessageControlled(l, nb, e, t, m);
      case StoppingProcesses => StoppingProcessesMessageControlled(l, e, t, m);
      case StoppingChildren => StoppingChildrenMessageControlled(l, nb, e, t, m);
      case Restarting => RestartingMessageControlled(l, nb, e, t, m);
      case RestartingProcesses => RestartingProcessesMessageControlled(l, e, t, m);
      case Broken => BrokenMessageControlled(l, e, t, m);
      case Degraded => BrokenMessageControlled(l, e, t, m);
    }
  }

  lemma MessageControlled(l: Local, nb: Neighbours, m: Message)
    requires Sound(l) && Serves(l.coros[0])
    ensures !AbortsWait(l, m) ==> Controlled(l, TakeMessage(l, 0, nb, m))
    ensures AbortsWait(l, m) ==> !OneCoroutine(TakeMessage(l, 0, nb, m).l)
  {
    if l.coros[0].Live? {
      LiveMessageControlled(l, nb, m);
    } else {
      WaitMessageControlled(l, nb, m);
    }
  }

  lemma EventControlled(l: Local, nb: Neighbours, v: Event, aborting: bool)
    requires Sound(l) && Serves(l.coros[0])
    ensures Controlled(l, TakeEvent(l, 0, nb, v, aborting))
  {
    if l.coros[0].Live? {
      LiveEventControlled(l, nb, v, aborting);
    } else {
      WaitEventControlled(l, nb, v, aborting);
    }
  }

  lemma WaitEventControlled(l: Local, nb: Neighbours, v: Event, aborting: bool)
    requires Sound(l) && l.coros[0].RestartWait?
    ensures Controlled(l, TakeEvent(l, 0, nb, v, aborting))
  {
    var e := Effect(l.(coros := []), [], []);
    assert Without(l, 0) == e;
  }

  lemma IdleEventControlled(l: Local, e: Effect, t: Coro)
    requires Handling(l, l.oper, e, t)
    ensures Controlled(l, e.Stay(t))
  {
  }

  lemma HandledEventControlled(l: Local, nb: Neighbours, e: Effect, t: Coro, v: Event, aborting: bool)
    requires Handling(l, l.oper, e, t)
    ensures Controlled(l, HandleEvent(e, t, nb, v, aborting))
  {
    match l.oper {
      case StartingChildren => StartingChildrenEventControlled(l, nb, e, t, v);
      case Connecting => ConnectingEventControlled(l, e, t, v);
      case StartingProcesses => StartingProcessesEventControlled(l, e, t, v, aborting);
      case Online => OnlineEventControlled(l, e, t, v, aborting);
      case StoppingProcesses => StoppingProcessesEventControlled(l, e, t, v);
      case StoppingChildren => StoppingChildrenEventControlled(l, nb, e, t);
      case Restarting => RestartingEventControlled(l, nb, e, t, v);
      case RestartingProcesses => RestartingProcessesEventControlled(l, e, t, v, aborting);
      case _ => IdleEventControlled(l, e, t);
    }
  }

  lemma LiveEventControlled(l: Local, nb: Neighbours, v: Event, aborting: bool)
    requires Sound(l) && l.coros[0].Live?
    ensures Controlled(l, TakeEvent(l, 0, nb, v, aborting))
  {
    var e := Read(Effect(l.(coros := []), [], []), v);
    assert Without(l, 0) == Effect(l.(coros := []), [], []);
    var read := l.(umbilicals := e.l.umbilicals);
    HandledEventControlled(read, nb, e, l.coros[0], v, aborting);
    ReadControlled(l, read, TakeEvent(l, 0, nb, v, aborting));
  }

  lemma ReadControlled(l: Local, read: Local, e: Effect)
    requires Controlled(read, e) && read == l.(umbilicals := read.umbilicals)
    ensures Controlled(l, e)
  {
  }
}
