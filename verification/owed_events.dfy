/**
 What StageZero owes a subsystem in a run of start and stop commands: starts while its processes are
 being launched, stops while they are being stopped, and nothing at any other time.
 */
module OwedEvents {
  import opened States
  import opened ClientBits
  import opened Umbilicals
  import opened SubsystemModel
  import opened Network
  import opened CommandSteps

  type Events = multiset<Event>

  predicate NothingOwed(l: Local, events: Events) {
    && l.launched == {} && l.stopRequested == {}
    && forall v | v in events :: !v.StartEvent? && !v.StopEvent? && !v.DisconnectEvent?
  }

  /** Every start on its way comes once, and for a process that does not run yet. */
  predicate StartsOwed(l: Local, events: Events) {
    && l.stopRequested == {}
    && (forall p | p in l.launched :: p < |l.procs| && !l.procs[p].running && StartEvent(p) !in events)
    && forall v | v in events ::
         && !v.StopEvent? && !v.DisconnectEvent?
         && (v.StartEvent? ==> v.proc < |l.procs| && !l.procs[v.proc].running && events[v] == 1)
  }

  /** Every stop on its way comes once, and for a process that still runs. */
  predicate StopsOwed(l: Local, events: Events) {
    && l.launched == {}
    && (forall p | p in l.stopRequested :: p < |l.procs| && l.procs[p].running && StopEvent(p) !in events)
    && forall v | v in events ::
         && !v.StartEvent? && !v.DisconnectEvent?
         && (v.StopEvent? ==> v.proc < |l.procs| && l.procs[v.proc].running && events[v] == 1)
  }

  /** Where no process runs. */
  predicate Idle(o: OperState) {
    o == Offline || o == StartingChildren || o == Connecting || o == StartingProcesses || o == StoppingChildren
  }

  /** What is owed, and which processes run, by what the coroutine is doing. */
  predicate Tidy(l: Local, events: Events)
    requires Steady(l)
  {
    if l.coros[0].Live? && l.oper == StartingProcesses then StartsOwed(l, events)
    else if l.coros[0].Live? && l.oper == StoppingProcesses then StopsOwed(l, events)
    else NothingOwed(l, events) && (l.oper == Online ==> l.AllRunning()) && (Idle(l.oper) ==> l.AllStopped())
  }

  /** A stop is only reported where it is awaited. */
  lemma TidyEvent(l: Local, events: Events, v: Event)
    requires Steady(l) && l.coros[0].Live? && Tidy(l, events) && v in events
    ensures CommandEvent(l.oper, v)
  {
  }

  // ---------------------------------------------------------------- entries

  predicate SameRunning(l: Local, r: Local) {
    && |r.procs| == |l.procs|
    && forall p | 0 <= p < |l.procs| :: r.procs[p].running == l.procs[p].running
  }

  lemma ConnectFromRunning(l: Local, p: ProcId)
    ensures SameRunning(l, ConnectFrom(l, p)) && ConnectFrom(l, p).stopRequested == l.stopRequested
    decreases |l.procs| - p
  {
    if p < |l.procs| {
      ConnectFromRunning(ConnectProcess(l, p), p + 1);
    }
  }

  lemma DisconnectFromStopped(l: Local, p: ProcId)
    requires l.AllStopped()
    ensures SameRunning(l, DisconnectFrom(l, p)) && DisconnectFrom(l, p).AllStopped()
    ensures DisconnectFrom(l, p).stopRequested == l.stopRequested
    decreases |l.procs| - p
  {
    if p < |l.procs| {
      DisconnectFromStopped(DisconnectProcess(l, p), p + 1);
    }
  }

  /** Exactly the processes that run are asked to stop. */
  lemma StopFromAsks(l: Local, p: ProcId)
    ensures SameRunning(l, StopFrom(l, p))
    ensures forall q :: q in StopFrom(l, p).stopRequested <==>
      q in l.stopRequested || (p <= q < |l.procs| && l.procs[q].running)
    decreases |l.procs| - p
  {
    if p < |l.procs| {
      StopFromAsks(StopProcess(l, p), p + 1);
    }
  }

  lemma OfflineEntryTidy(l: Local, e: Effect, events: Events)
    requires Entering(l, Offline, e) && Tidy(l, events)
    ensures var r := OfflineEntry(e, l.coros[0].client).l; Steady(r) && Tidy(r, events) && SameRunning(l, r)
  {
    OfflineEntryConsiderate(l, Neighbours(map[], map[]), e);
    DisconnectFromControl(e.l.(numRestarts := 0), 0);
    DisconnectFromStopped(e.l.(numRestarts := 0), 0);
  }

  lemma StartingChildrenEntryTidy(l: Local, nb: Neighbours, e: Effect, events: Events)
    requires Entering(l, StartingChildren, e) && Tidy(l, events)
    ensures var r := StartingChildrenEntry(e, nb, l.coros[0].client).l; Steady(r) && Tidy(r, events) && SameRunning(l, r)
  {
  }

  lemma ConnectingEntryTidy(l: Local, e: Effect, events: Events)
    requires Entering(l, Connecting, e) && Tidy(l, events)
    ensures var r := ConnectingEntry(e, l.coros[0].client).l; Steady(r) && Tidy(r, events) && SameRunning(l, r)
  {
    ConnectFromControl(e.l.(oper := Connecting), 0);
    ConnectFromRunning(e.l.(oper := Connecting), 0);
  }

  lemma StartingProcessesEntryTidy(l: Local, e: Effect, launch: nat, events: Events)
    requires Entering(l, StartingProcesses, e) && launch >= |l.procs| && Tidy(l, events)
    ensures var r := StartingProcessesEntry(e, l.coros[0].client, launch).l; Steady(r) && Tidy(r, events) && SameRunning(l, r)
  {
  }

  lemma OnlineEntryTidy(l: Local, e: Effect, events: Events)
    requires Entering(l, Online, e) && Tidy(l, events)
    ensures var r := OnlineEntry(e, l.coros[0].client).l; Steady(r) && Tidy(r, events) && SameRunning(l, r)
  {
  }

  lemma StoppingProcessesEntryTidy(l: Local, e: Effect, events: Events)
    requires Entering(l, StoppingProcesses, e) && Tidy(l, events)
    ensures var r := StoppingProcessesEntry(e, l.coros[0].client).l; Steady(r) && Tidy(r, events) && SameRunning(l, r)
  {
    StopFromControl(e.l, 0);
    StopFromAsks(e.l, 0);
  }

  lemma StoppingChildrenEntryTidy(l: Local, nb: Neighbours, e: Effect, events: Events)
    requires Entering(l, StoppingChildren, e) && Tidy(l, events)
    ensures var r := StoppingChildrenEntry(e, nb, l.coros[0].client).l; Steady(r) && Tidy(r, events) && SameRunning(l, r)
  {
  }

  lemma EntryTidy(l: Local, nb: Neighbours, launch: nat, events: Events)
    requires Steady(l) && l.coros[0].Scheduled? && launch >= |l.procs| && Tidy(l, events)
    ensures var r := RunEntry(l, 0, nb, launch).l; Steady(r) && Tidy(r, events) && SameRunning(l, r)
  {
    var e := Effect(l.(coros := []), [], []);
    assert Without(l, 0) == e;
    match l.oper {
      case Offline => OfflineEntryTidy(l, e, events);
      case StartingChildren => StartingChildrenEntryTidy(l, nb, e, events);
      case Connecting => ConnectingEntryTidy(l, e, events);
      case StartingProcesses => StartingProcessesEntryTidy(l, e, launch, events);
      case Online => OnlineEntryTidy(l, e, events);
      case StoppingProcesses => StoppingProcessesEntryTidy(l, e, events);
      case StoppingChildren => StoppingChildrenEntryTidy(l, nb, e, events);
    }
  }

  // ---------------------------------------------------------------- messages

  /** A command or report changes neither a process nor what is owed. */
  predicate SameProcesses(l: Local, r: Local) {
    r.procs == l.procs && r.launched == l.launched && r.stopRequested == l.stopRequested
  }

  /** Where a coroutine may go without touching its processes. */
  predicate Leads(l: Local, r: Local)
    requires Steady(l) && Steady(r)
  {
    && SameProcesses(l, r)
    && if r.coros[0].Live? then r.oper == l.oper
       else match l.oper
         case StartingProcesses => l.AllRunning() && (r.oper == Online || r.oper == StoppingProcesses)
         case StoppingProcesses => l.AllStopped() && (Idle(r.oper) || r.oper == StoppingProcesses)
         case Online => r.oper == StoppingProcesses
         case _ => Idle(r.oper) || r.oper == StoppingProcesses
  }

  lemma LeadsTidy(l: Local, r: Local, events: Events)
    requires Steady(l) && Steady(r) && l.coros[0].Live? && Tidy(l, events) && Leads(l, r)
    ensures Tidy(r, events)
  {
  }

  lemma OfflineMessageLeads(l: Local, e: Effect, t: Coro, m: Message)
    requires Handling(l, Offline, e, t) && CommandMessage(m)
    ensures var r := OfflineMessage(e, t, m).l; Steady(r) ==> Leads(l, r)
  {
  }

  lemma StartingChildrenMessageLeads(l: Local, nb: Neighbours, e: Effect, t: Coro, m: Message)
    requires Handling(l, StartingChildren, e, t) && CommandMessage(m)
    ensures var r := StartingChildrenMessage(e, t, nb, m).l; Steady(r) ==> Leads(l, r)
  {
  }

  lemma ConnectingMessageLeads(l: Local, e: Effect, t: Coro, m: Message)
    requires Handling(l, Connecting, e, t) && CommandMessage(m)
    ensures var r := ConnectingMessage(e, t, m).l; Steady(r) ==> Leads(l, r)
  {
  }

  lemma StartingProcessesMessageLeads(l: Local, e: Effect, t: Coro, m: Message)
    requires Handling(l, StartingProcesses, e, t) && CommandMessage(m)
    ensures var r := StartingProcessesMessage(e, t, m).l; Steady(r) ==> Leads(l, r)
  {
  }

  lemma OnlineMessageLeads(l: Local, nb: Neighbours, e: Effect, t: Coro, m: Message)
    requires Handling(l, Online, e, t) && CommandMessage(m)
    ensures var r := OnlineMessage(e, t, nb, m).l; Steady(r) ==> Leads(l, r)
  {
  }

  lemma StoppingProcessesMessageLeads(l: Local, e: Effect, t: Coro, m: Message)
    requires Handling(l, StoppingProcesses, e, t) && CommandMessage(m)
    ensures var r := StoppingProcessesMessage(e, t, m).l; Steady(r) ==> Leads(l, r)
  {
  }

  lemma StoppingChildrenMessageLeads(l: Local, nb: Neighbours, e: Effect, t: Coro, m: Message)
    requires Handling(l, StoppingChildren, e, t) && CommandMessage(m)
    ensures var r := StoppingChildrenMessage(e, t, nb, m).l; Steady(r) ==> Leads(l, r)
  {
  }

  lemma MessageTidy(l: Local, nb: Neighbours, m: Message, events: Events)
    requires Steady(l) && l.coros[0].Live? && CommandMessage(m) && Tidy(l, events)
    requires Steady(TakeMessage(l, 0, nb, m).l)
    ensures Tidy(TakeMessage(l, 0, nb, m).l, events) && SameProcesses(l, TakeMessage(l, 0, nb, m).l)
  {
    var e := Effect(l.(coros := []), [], []);
    var t := l.coros[0];
    assert Without(l, 0) == e;
    match l.oper {
      case Offline => OfflineMessageLeads(l, e, t, m);
      case StartingChildren => StartingChildrenMessageLeads(l, nb, e, t, m);
      case Connecting => ConnectingMessageLeads(l, e, t, m);
      case StartingProcesses => StartingProcessesMessageLeads(l, e, t, m);
      case Online => OnlineMessageLeads(l, nb, e, t, m);
      case StoppingProcesses => StoppingProcessesMessageLeads(l, e, t, m);
      case StoppingChildren => StoppingChildrenMessageLeads(l, nb, e, t, m);
    }
    LeadsTidy(l, TakeMessage(l, 0, nb, m).l, events);
  }

  // ---------------------------------------------------------------- events

  /** The event has set or cleared the flag of its process. */
  function Marked(l: Local, v: Event): Local {
    match v
    case StartEvent(p) => if l.oper == StartingProcesses then l.SetRunning(p, true) else l
    case StopEvent(p) => l.SetRunning(p, false)
    case _ => l
  }

  lemma MarkedTidy(l: Local, v: Event, events: Events)
    requires Steady(l) && l.coros[0].Live? && Tidy(l, events) && v in events
    ensures Steady(Marked(l, v)) && Tidy(Marked(l, v), events - multiset{v})
  {
  }

  lemma StartingProcessesEventLeads(l: Local, e: Effect, t: Coro, v: Event)
    requires Handling(l, StartingProcesses, e, t) && CommandEvent(StartingProcesses, v) && Steady(Marked(l, v))
    ensures var r := StartingProcessesEvent(e, t, v, false).l; Steady(r) ==> Leads(Marked(l, v), r)
  {
  }

  lemma StoppingProcessesEventLeads(l: Local, e: Effect, t: Coro, v: Event)
    requires Handling(l, StoppingProcesses, e, t) && CommandEvent(StoppingProcesses, v) && Steady(Marked(l, v))
    ensures var r := StoppingProcessesEvent(e, t, v).l; Steady(r) ==> Leads(Marked(l, v), r)
  {
  }

  lemma QuietEventLeads(l: Local, nb: Neighbours, e: Effect, t: Coro, v: Event)
    requires Handling(l, l.oper, e, t) && l.oper != StartingProcesses && l.oper != StoppingProcesses
    requires CommandEvent(l.oper, v)
    ensures var r := HandleEvent(e, t, nb, v, false).l; Steady(r) ==> Leads(l, r)
  {
  }

  lemma EventTidy(l: Local, nb: Neighbours, v: Event, events: Events)
    requires Steady(l) && l.coros[0].Live? && Tidy(l, events) && v in events
    requires Steady(TakeEvent(l, 0, nb, v, false).l)
    ensures Tidy(TakeEvent(l, 0, nb, v, false).l, events - multiset{v})
    ensures SameProcesses(Marked(l, v), TakeEvent(l, 0, nb, v, false).l)
  {
    TidyEvent(l, events, v);
    MarkedTidy(l, v, events);
    var e := Effect(l.(coros := []), [], []);
    var t := l.coros[0];
    assert Without(l, 0) == e == Read(e, v);
    match l.oper {
      case StartingProcesses => StartingProcessesEventLeads(l, e, t, v);
      case StoppingProcesses => StoppingProcessesEventLeads(l, e, t, v);
      case _ => QuietEventLeads(l, nb, e, t, v);
    }
    LeadsTidy(Marked(l, v), TakeEvent(l, 0, nb, v, false).l, events - multiset{v});
  }
}
