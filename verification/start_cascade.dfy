/**
 The start cascade.  A client starts one subsystem of a system at rest, whatever other clients have up
 already, and every process comes up: no wake-up is lost, what was up stays up, and exactly that
 subsystem and everything it depends on comes up beside it.
 */
module StartCascade {
  import opened States
  import opened ClientBits
  import opened Umbilicals
  import opened SubsystemModel
  import opened Network
  import opened CascadeMeasure
  import opened Configs

  /** The states of a start, in order. */
  predicate Rung(o: OperState) {
    o == Offline || o == StartingChildren || o == Connecting || o == StartingProcesses || o == Online
  }

  predicate IsScheduled(l: Local, o: OperState) {
    |l.coros| == 1 && l.coros[0].Scheduled? && l.coros[0].state == o
  }

  /** States still ahead. */
  function StartRank(l: Local): nat {
    if IsScheduled(l, Offline) then 9
    else if IsLive(l, Offline) then 8
    else if IsScheduled(l, StartingChildren) then 7
    else if IsLive(l, StartingChildren) then 6
    else if IsScheduled(l, Connecting) then 5
    else if IsLive(l, Connecting) then 4
    else if IsScheduled(l, StartingProcesses) then 3
    else if IsLive(l, StartingProcesses) then 2
    else if IsScheduled(l, Online) then 1
    else 0
  }

  /** Control state of a subsystem during the start of client c. */
  predicate Rising(l: Local, c: ClientId) {
    && Rung(l.oper)
    && (IsScheduled(l, l.oper) || IsLive(l, l.oper))
    && l.admin == (if l.oper == Offline then AdminOffline else AdminOnline)
    && l.clients.members == (if l.oper == Offline then {} else {c})
    && (l.oper != Offline ==> l.coros[0].client == c || l.coros[0].client == NO_CLIENT)
    && (IsLive(l, StartingChildren) ==> l.coros[0].next == Connecting)
    && (IsLive(l, StartingProcesses) ==> l.coros[0].next == Online)
    && (IsLive(l, Online) ==> l.coros[0].next == Online)
    && (IsLive(l, Offline) ==> l.coros[0].next == Offline)
  }

  /** Processes, connections and the events on their way. */
  predicate Supplied(l: Local, events: multiset<Event>) {
    && l.stopRequested == {}
    && (forall p | 0 <= p < |l.procs| :: l.procs[p].compute in l.umbilicals)
    && (forall k | k in l.connectors :: k in l.umbilicals && l.umbilicals[k].state == LinkConnecting)
    && (forall p | p in l.launched :: p < |l.procs|)
    && (l.oper == Offline || l.oper == StartingChildren || IsScheduled(l, Connecting) ==>
          Pristine(l) && events == multiset{})
    && (IsLive(l, Connecting) ==>
          && l.launched == {}
          && (forall v | v in events :: v.ConnectEvent?)
          && (forall p | 0 <= p < |l.procs| :: !l.procs[p].running && Reachable(l, l.procs[p].compute))
          && (l.AllConnected() ==> exists v :: v in events))
    && (IsScheduled(l, StartingProcesses) ==>
          && l.launched == {}
          && (forall v | v in events :: v.ConnectEvent?)
          && forall p | 0 <= p < |l.procs| :: !l.procs[p].running)
    && (IsLive(l, StartingProcesses) ==>
          && !l.AllRunning()
          && (forall p | 0 <= p < |l.procs| :: l.procs[p].running || p in l.launched || StartEvent(p) in events))
    && (l.oper == Online ==> l.AllRunning())
    && (forall v | v in events :: v.ConnectEvent? || v.StartEvent?)
  }

  /** Connected, or being connected. */
  predicate Reachable(l: Local, k: ComputeId) {
    k in l.umbilicals
    && (l.umbilicals[k].IsConnected() || (l.umbilicals[k].state == LinkConnecting && k in l.connectors))
  }

  /** The children a subsystem has heard from, and whether it is waiting for them. */
  function Heard(l: Local): set<SubId> {
    if IsLive(l, StartingChildren) then l.coros[0].notified else {}
  }

  function EventsLeft(events: multiset<Event>, input: Input): multiset<Event> {
    if input.Ev? then events - multiset{input.v} else events
  }

  predicate StartMessage(m: Message, c: ClientId) {
    match m
    case ChangeAdmin(a, x) => a == AdminOnline && (x == c || x == NO_CLIENT)
    case ReportOper(_, o) => Rung(o)
    case _ => false
  }

  /** What one step of a subsystem guarantees during a start. */
  ghost predicate Rises(l: Local, events: multiset<Event>, input: Input, nb: Neighbours, e: Effect, c: ClientId) {
    && Rising(e.l, c) && Supplied(e.l, EventsLeft(events, input))
    && Economical(StartRank, l, input, e)
    && Speaks(l, input, nb, e, c)
  }

  /** What it tells its neighbours, and what it makes of what they tell it. */
  ghost predicate Speaks(l: Local, input: Input, nb: Neighbours, e: Effect, c: ClientId) {
    && (forall i | 0 <= i < |e.downs| ::
          e.downs[i].admin == AdminOnline && (e.downs[i].client == c || e.downs[i].client == NO_CLIENT))
    && (forall i | 0 <= i < |e.ups| :: Rung(e.ups[i]))
    // Leaving Offline commands the children, and a command of the client is never lost.
    && (l.oper == Offline && e.l.oper != Offline ==> Down(AdminOnline, c) in e.downs)
    && (input == Msg(ChangeAdmin(AdminOnline, c)) ==> e.l.oper != Offline)
    && (e.l.oper != Offline || e.downs != [] ==> l.oper != Offline || input == Msg(ChangeAdmin(AdminOnline, c)))
    && (l.oper != Offline ==> e.l.oper != Offline)
    // Once online it stays, says so on arrival and again whenever it is commanded.
    && (l.oper == Online ==> e.l.oper == Online)
    && (Online in e.ups ==> e.l.oper == Online)
    && (IsLive(e.l, Online) ==> Online in e.ups || (IsLive(l, Online) && !(input.Msg? && input.m.ChangeAdmin?)))
    // While it waits for its children it hears them all and forgets none.
    && (IsScheduled(e.l, StartingChildren) ==> l.oper == Offline)
    && (IsLive(e.l, StartingChildren) ==>
          && l.oper == StartingChildren
          && Heard(l) <= Heard(e.l)
          && (forall d | d in Heard(e.l) :: d in Heard(l) || input == Msg(ReportOper(d, Online)))
          && (forall d | input == Msg(ReportOper(d, Online)) :: d in Heard(e.l))
          && (!(nb.children.Keys <= Heard(e.l)) || !nb.ChildrenOnline()))
  }

  // ---------------------------------------------------------------- loops over processes

  /** Connecting a pristine subsystem leaves every process connected or being connected. */
  lemma ConnectAllReaches(l: Local, p: ProcId)
    requires forall q | 0 <= q < |l.procs| :: l.procs[q].compute in l.umbilicals && !l.procs[q].running
    requires forall q | p <= q < |l.procs| :: !l.procs[q].maybeConnected
    requires forall q | 0 <= q < p && q < |l.procs| ::
        l.umbilicals[l.procs[q].compute].state == LinkConnecting && l.procs[q].compute in l.connectors
    requires forall k | k in l.umbilicals :: l.umbilicals[k].state == LinkClosed || k in l.connectors
    requires forall k | k in l.connectors :: k in l.umbilicals && l.umbilicals[k].state == LinkConnecting
    ensures var r := ConnectFrom(l, p);
            && r == l.(procs := r.procs, umbilicals := r.umbilicals, connectors := r.connectors)
            && (forall q | 0 <= q < |r.procs| :: !r.procs[q].running && r.procs[q].compute in r.connectors
                                                 && r.procs[q].compute in r.umbilicals)
            && (forall k | k in r.connectors :: k in r.umbilicals && r.umbilicals[k].state == LinkConnecting)
            && |r.connectors| <= |l.connectors| + (if p < |l.procs| then |l.procs| - p else 0)
    decreases |l.procs| - p
  {
    if p < |l.procs| {
      ConnectAllReaches(ConnectProcess(l, p), p + 1);
    }
  }

  lemma DisconnectNone(l: Local, p: ProcId)
    requires forall q | 0 <= q < |l.procs| :: !l.procs[q].maybeConnected
    ensures DisconnectFrom(l, p) == l
    decreases |l.procs| - p
  {
    if p < |l.procs| {
      DisconnectNone(l, p + 1);
    }
  }

  lemma {:induction false} IndicesBelow(s: set<ProcId>, n: nat)
    requires forall p | p in s :: p < n
    ensures |s| <= n
  {
    if n == 0 {
      assert s == {};
    } else {
      IndicesBelow(s - {n - 1}, n - 1);
    }
  }

  // ---------------------------------------------------------------- each kind of step

  /** A subsystem with one coroutine t is about to run it; e is where it starts. */
  ghost predicate Starts(l: Local, events: multiset<Event>, o: OperState, e: Effect, t: Coro, c: ClientId) {
    && Rising(l, c) && Supplied(l, events) && l.oper == o && t == l.coros[0] && c < 64
    && e == Effect(l.(coros := []), [], [])
  }

  lemma OfflineEntryRises(l: Local, events: multiset<Event>, nb: Neighbours, e: Effect, t: Coro, c: ClientId)
    requires Starts(l, events, Offline, e, t, c) && t.Scheduled?
    ensures Rises(l, events, Entry, nb, OfflineEntry(e, t.client), c)
  {
    DisconnectNone(e.l.(numRestarts := 0), 0);
  }

  lemma StartingChildrenEntryRises(l: Local, events: multiset<Event>, nb: Neighbours, e: Effect, t: Coro, c: ClientId)
    requires Starts(l, events, StartingChildren, e, t, c) && t.Scheduled?
    ensures Rises(l, events, Entry, nb, StartingChildrenEntry(e, nb, t.client), c)
  {
  }

  lemma ConnectingStays(l: Local, events: multiset<Event>, nb: Neighbours, r: Local, x: ClientId, c: ClientId)
    requires Rising(l, c) && Supplied(l, events) && IsScheduled(l, Connecting) && l.coros[0].client == x
    requires r == l.(coros := [], procs := r.procs, umbilicals := r.umbilicals, connectors := r.connectors)
    requires |r.procs| == |l.procs| && !r.AllConnected() && |r.connectors| <= |l.procs|
    requires forall q | 0 <= q < |r.procs| :: !r.procs[q].running && r.procs[q].compute in r.connectors
    requires forall k | k in r.connectors :: k in r.umbilicals && r.umbilicals[k].state == LinkConnecting
    ensures Rises(l, events, Entry, nb, Effect(r, [Connecting], []).Stay(Serving(Connecting, x, Connecting)), c)
  {
    var r1 := Effect(r, [Connecting], []).Stay(Serving(Connecting, x, Connecting)).l;
    assert IsLive(r1, Connecting) && !r1.AllConnected();
    assert Supplied(r1, events);
  }

  lemma ConnectingEntryRises(l: Local, events: multiset<Event>, nb: Neighbours, e: Effect, t: Coro, c: ClientId)
    requires Starts(l, events, Connecting, e, t, c) && t.Scheduled?
    ensures Rises(l, events, Entry, nb, ConnectingEntry(e, t.client), c)
  {
    var l0 := e.l.(oper := Connecting);
    ConnectAllReaches(l0, 0);
    var r := ConnectFrom(l0, 0);
    if l.procs == [] {
      assert r == l0 && r.AllConnected();
    } else {
      assert r.umbilicals[r.procs[0].compute].state == LinkConnecting;
      assert !r.AllConnected();
      ConnectingStays(l, events, nb, r, t.client, c);
    }
  }

  lemma StartingProcessesEntryRises(l: Local, events: multiset<Event>, nb: Neighbours, e: Effect, t: Coro,
                                    c: ClientId, launch: nat)
    requires Starts(l, events, StartingProcesses, e, t, c) && t.Scheduled? && launch >= |l.procs|
    ensures Rises(l, events, Entry, nb, StartingProcessesEntry(e, t.client, launch), c)
  {
    var r := StartingProcessesEntry(e, t.client, launch);
    if l.procs != [] {
      IndicesBelow(r.l.launched, |l.procs|);
      assert !l.procs[0].running;
    }
  }

  lemma OnlineEntryRises(l: Local, events: multiset<Event>, nb: Neighbours, e: Effect, t: Coro, c: ClientId)
    requires Starts(l, events, Online, e, t, c) && t.Scheduled?
    ensures Rises(l, events, Entry, nb, OnlineEntry(e, t.client), c)
  {
  }

  lemma OfflineMessageRises(l: Local, events: multiset<Event>, nb: Neighbours, e: Effect, t: Coro, c: ClientId,
                            m: Message)
    requires Starts(l, events, Offline, e, t, c) && t.Live? && StartMessage(m, c)
    ensures Rises(l, events, Msg(m), nb, OfflineMessage(e, t, m), c)
  {
    if m == ChangeAdmin(AdminOnline, c) {
      OfflineLeaves(l, events, nb, e, t, c);
    } else {
      assert OfflineMessage(e, t, m) == e.Notify().Stay(t);
      OfflineStays(l, events, nb, e, t, c, m);
    }
  }

  lemma OfflineStays(l: Local, events: multiset<Event>, nb: Neighbours, e: Effect, t: Coro, c: ClientId, m: Message)
    requires Starts(l, events, Offline, e, t, c) && t.Live? && StartMessage(m, c) && m != ChangeAdmin(AdminOnline, c)
    ensures Rises(l, events, Msg(m), nb, e.Notify().Stay(t), c)
  {
  }

  /** A subsystem that leaves Offline for client c. */
  function LeavesOffline(l: Local, c: ClientId): Effect {
    Effect(l.(coros := [Scheduled(StartingChildren, NO_CLIENT)], oper := StartingChildren,
              admin := AdminOnline, clients := l.clients.Set(c)), [], [Down(AdminOnline, c)])
  }

  lemma OfflineHearsStart(l: Local, events: multiset<Event>, e: Effect, t: Coro, c: ClientId)
    requires Starts(l, events, Offline, e, t, c) && t.Live?
    ensures l.clients.Set(c).members == {c}
    ensures OfflineMessage(e, t, ChangeAdmin(AdminOnline, c)) == LeavesOffline(l, c)
  {
    assert l.clients.Set(c).members == {c};
  }

  lemma LeavingRises(l: Local, events: multiset<Event>, nb: Neighbours, e: Effect, t: Coro, c: ClientId)
    requires Starts(l, events, Offline, e, t, c) && t.Live? && l.clients.Set(c).members == {c}
    ensures Rises(l, events, Msg(ChangeAdmin(AdminOnline, c)), nb, LeavesOffline(l, c), c)
  {
  }

  lemma OfflineLeaves(l: Local, events: multiset<Event>, nb: Neighbours, e: Effect, t: Coro, c: ClientId)
    requires Starts(l, events, Offline, e, t, c) && t.Live?
    ensures Rises(l, events, Msg(ChangeAdmin(AdminOnline, c)), nb, OfflineMessage(e, t, ChangeAdmin(AdminOnline, c)), c)
  {
    OfflineHearsStart(l, events, e, t, c);
    LeavingRises(l, events, nb, e, t, c);
  }

  /** What message m makes of a subsystem that waits for its children, before it looks at them. */
  ghost predicate Noted(l: Local, events: multiset<Event>, e: Effect, t: Coro, c: ClientId, m: Message) {
    && Rising(l, c) && Supplied(l, events) && IsLive(l, StartingChildren) && StartMessage(m, c)
    && e.l == l.(coros := [], clients := e.l.clients) && e.l.clients.members == {c}
    && t.Live? && t.state == StartingChildren && t.next == Connecting && (t.client == c || t.client == NO_CLIENT)
    && (m.ChangeAdmin? ==> e.ups == [] && e.downs == [Down(AdminOnline, m.client)] && t.notified == Heard(l))
    && (m.ReportOper? ==> && e.ups == [StartingChildren] && e.downs == []
                          && t.notified == (if m.oper == Online then Heard(l) + {m.sender} else Heard(l)))
  }

  lemma GoesOnWaiting(l: Local, events: multiset<Event>, nb: Neighbours, e: Effect, t: Coro, c: ClientId, m: Message)
    requires Noted(l, events, e, t, c, m)
    requires !(nb.children.Keys <= t.notified) || !nb.ChildrenOnline()
    ensures Rises(l, events, Msg(m), nb, e.Stay(t), c)
  {
  }

  lemma StopsWaiting(l: Local, events: multiset<Event>, nb: Neighbours, e: Effect, t: Coro, c: ClientId, m: Message)
    requires Noted(l, events, e, t, c, m)
    ensures Rises(l, events, Msg(m), nb, e.Enter(Connecting, t.client), c)
  {
  }

  lemma StartingChildrenCheckRises(l: Local, events: multiset<Event>, nb: Neighbours, e: Effect, t: Coro, c: ClientId,
                                   m: Message)
    requires Noted(l, events, e, t, c, m)
    ensures Rises(l, events, Msg(m), nb, StartingChildrenCheck(e, t, nb), c)
  {
    assert e.l.admin == AdminOnline;
    if nb.children.Keys <= t.notified && nb.ChildrenOnline() {
      StopsWaiting(l, events, nb, e, t, c, m);
    } else {
      GoesOnWaiting(l, events, nb, e, t, c, m);
    }
  }

  function NotedEffect(e: Effect, m: Message): Effect {
    match m
    case ChangeAdmin(_, x) => e.(l := e.l.(clients := ClientsAfter(e.l.clients, AdminOnline, x))).Send(AdminOnline, x)
    case _ => e.Notify()
  }

  function NotedCoro(t: Coro, m: Message): Coro
    requires t.Live?
  {
    match m
    case ChangeAdmin(_, x) => Live(t.state, x, Connecting, t.notified, t.requests, t.started)
    case ReportOper(d, Online) => Live(t.state, t.client, t.next, t.notified + {d}, t.requests, t.started)
    case _ => t
  }

  lemma StartingChildrenMessageNotes(l: Local, events: multiset<Event>, nb: Neighbours, e: Effect, t: Coro,
                                     c: ClientId, m: Message)
    requires Starts(l, events, StartingChildren, e, t, c) && t.Live? && StartMessage(m, c)
    ensures StartingChildrenMessage(e, t, nb, m) == StartingChildrenCheck(NotedEffect(e, m), NotedCoro(t, m), nb)
    ensures Noted(l, events, NotedEffect(e, m), NotedCoro(t, m), c, m)
  {
    if m.ChangeAdmin? {
      assert ClientsAfter(l.clients, AdminOnline, m.client).members == {c};
    }
  }

  lemma StartingChildrenMessageRises(l: Local, events: multiset<Event>, nb: Neighbours, e: Effect, t: Coro,
                                     c: ClientId, m: Message)
    requires Starts(l, events, StartingChildren, e, t, c) && t.Live? && StartMessage(m, c)
    ensures Rises(l, events, Msg(m), nb, StartingChildrenMessage(e, t, nb, m), c)
  {
    StartingChildrenMessageNotes(l, events, nb, e, t, c, m);
    StartingChildrenCheckRises(l, events, nb, NotedEffect(e, m), NotedCoro(t, m), c, m);
  }

  /** Connected: the children are told once more, and the processes are started. */
  lemma ConnectingEnds(l: Local, events: multiset<Event>, input: Input, nb: Neighbours, e: Effect, t: Coro, c: ClientId)
    requires Starts(l, events, Connecting, e, t, c) && t.Live? && l.AllConnected()
    requires input.Msg? || (input.Ev? && input.v in events)
    ensures Rises(l, events, input, nb, e.Enter(StartingProcesses, t.client).Send(AdminOnline, t.client), c)
  {
    var r := e.Enter(StartingProcesses, t.client).Send(AdminOnline, t.client);
    assert Rising(r.l, c) && Economical(StartRank, l, input, r);
    assert Supplied(r.l, EventsLeft(events, input));
  }

  lemma ConnectingStaysOn(l: Local, events: multiset<Event>, input: Input, nb: Neighbours, e: Effect, t: Coro,
                          c: ClientId)
    requires Starts(l, events, Connecting, e, t, c) && t.Live? && !l.AllConnected()
    requires (input.Msg? && StartMessage(input.m, c)) || (input.Ev? && input.v in events)
    ensures Rises(l, events, input, nb, e.Stay(t), c)
  {
    assert !e.Stay(t).l.AllConnected();
  }

  lemma ConnectingMessageRises(l: Local, events: multiset<Event>, nb: Neighbours, e: Effect, t: Coro, c: ClientId,
                               m: Message)
    requires Starts(l, events, Connecting, e, t, c) && t.Live? && StartMessage(m, c)
    ensures Rises(l, events, Msg(m), nb, ConnectingMessage(e, t, m), c)
  {
    assert ConnectingMessage(e, t, m) == ConnectingCheck(e, t);
    if l.AllConnected() {
      ConnectingEnds(l, events, Msg(m), nb, e, t, c);
    } else {
      ConnectingStaysOn(l, events, Msg(m), nb, e, t, c);
    }
  }

  /** Not all processes run yet: the command is passed on, the report is relayed. */
  lemma StartingProcessesStaysOn(l: Local, events: multiset<Event>, nb: Neighbours, c: ClientId, m: Message, r: Effect)
    requires Rising(l, c) && Supplied(l, events) && IsLive(l, StartingProcesses) && StartMessage(m, c)
    requires r.l == l.(coros := r.l.coros, clients := r.l.clients) && r.l.clients.members == {c}
    requires IsLive(r.l, StartingProcesses) && r.l.coros[0].next == Online
    requires r.l.coros[0].client == c || r.l.coros[0].client == NO_CLIENT
    requires m.ChangeAdmin? ==> r.ups == [] && r.downs == [Down(AdminOnline, m.client)]
    requires m.ReportOper? ==> r.ups == [StartingProcesses] && r.downs == []
    ensures Rises(l, events, Msg(m), nb, r, c)
  {
  }

  lemma StartingProcessesMessageRises(l: Local, events: multiset<Event>, nb: Neighbours, e: Effect, t: Coro,
                                      c: ClientId, m: Message)
    requires Starts(l, events, StartingProcesses, e, t, c) && t.Live? && StartMessage(m, c)
    ensures Rises(l, events, Msg(m), nb, StartingProcessesMessage(e, t, m), c)
  {
    var r := StartingProcessesMessage(e, t, m);
    if m.ChangeAdmin? {
      assert ClientsAfter(l.clients, AdminOnline, m.client).members == {c};
    }
    StartingProcessesStaysOn(l, events, nb, c, m, r);
  }

  /** A command is answered, a report is not. */
  lemma OnlineStaysOn(l: Local, events: multiset<Event>, nb: Neighbours, c: ClientId, m: Message, r: Effect)
    requires Rising(l, c) && Supplied(l, events) && IsLive(l, Online) && StartMessage(m, c)
    requires r.l == l.(coros := r.l.coros, clients := r.l.clients) && r.l.clients.members == {c}
    requires IsLive(r.l, Online) && r.l.coros[0].next == Online && r.downs == []
    requires r.l.coros[0].client == c || r.l.coros[0].client == NO_CLIENT
    requires r.ups == if m.ChangeAdmin? then [Online] else []
    ensures Rises(l, events, Msg(m), nb, r, c)
  {
  }

  lemma OnlineMessageRises(l: Local, events: multiset<Event>, nb: Neighbours, e: Effect, t: Coro, c: ClientId,
                           m: Message)
    requires Starts(l, events, Online, e, t, c) && t.Live? && StartMessage(m, c)
    ensures Rises(l, events, Msg(m), nb, OnlineMessage(e, t, nb, m), c)
  {
    var r := OnlineMessage(e, t, nb, m);
    if m.ChangeAdmin? {
      assert ClientsAfter(l.clients, AdminOnline, m.client).members == {c};
    }
    OnlineStaysOn(l, events, nb, c, m, r);
  }

  lemma ConnectingEventRises(l: Local, events: multiset<Event>, nb: Neighbours, e: Effect, t: Coro, c: ClientId,
                             v: Event)
    requires Starts(l, events, Connecting, e, t, c) && t.Live? && v in events
    ensures Rises(l, events, Ev(v), nb, ConnectingEvent(e, t, v), c)
  {
    assert ConnectingEvent(e, t, v) == ConnectingCheck(e, t);
    if l.AllConnected() {
      ConnectingEnds(l, events, Ev(v), nb, e, t, c);
    } else {
      ConnectingStaysOn(l, events, Ev(v), nb, e, t, c);
    }
  }

  /** Either the last process is up, or the wait goes on with one event less. */
  lemma DoneStarting(l: Local, events: multiset<Event>, nb: Neighbours, c: ClientId, v: Event, l1: Local)
    requires Rising(l, c) && Supplied(l, events) && IsLive(l, StartingProcesses) && v in events
    requires l1 == (if v.StartEvent? then l.SetRunning(v.proc, true) else l).(coros := [])
    ensures l1.AllRunning() ==> Rises(l, events, Ev(v), nb, Effect(l1, [], []).Enter(Online, l.coros[0].client), c)
  {
  }

  lemma GoesOnStarting(l: Local, events: multiset<Event>, nb: Neighbours, c: ClientId, v: Event, l1: Local)
    requires Rising(l, c) && Supplied(l, events) && IsLive(l, StartingProcesses) && v in events
    requires l1 == (if v.StartEvent? then l.SetRunning(v.proc, true) else l).(coros := [])
    ensures !l1.AllRunning() ==> Rises(l, events, Ev(v), nb, Effect(l1, [], []).Stay(l.coros[0]), c)
  {
    var e := Effect(l1.(coros := [l.coros[0]]), [], []);
    StillStarting(l, events, c, v, l1);
    StartingIsPatient(l, c, v, l1, nb);
    assert Effect(l1, [], []).Stay(l.coros[0]) == e;
  }

  lemma StartingIsPatient(l: Local, c: ClientId, v: Event, l1: Local, nb: Neighbours)
    requires Rising(l, c) && IsLive(l, StartingProcesses)
    requires l1 == (if v.StartEvent? then l.SetRunning(v.proc, true) else l).(coros := [])
    ensures var e := Effect(l1.(coros := [l.coros[0]]), [], []); Economical(StartRank, l, Ev(v), e) && Speaks(l, Ev(v), nb, e, c)
  {
  }

  lemma StillStarting(l: Local, events: multiset<Event>, c: ClientId, v: Event, l1: Local)
    requires Rising(l, c) && Supplied(l, events) && IsLive(l, StartingProcesses) && v in events
    requires l1 == (if v.StartEvent? then l.SetRunning(v.proc, true) else l).(coros := [])
    ensures var r := l1.(coros := [l.coros[0]]); Rising(r, c) && (!l1.AllRunning() ==> Supplied(r, EventsLeft(events, Ev(v))))
  {
    assert l1.(coros := [l.coros[0]]).AllRunning() == l1.AllRunning();
  }

  lemma StartingProcessesEventRises(l: Local, events: multiset<Event>, nb: Neighbours, e: Effect, t: Coro,
                                    c: ClientId, v: Event)
    requires Starts(l, events, StartingProcesses, e, t, c) && t.Live? && v in events
    ensures Rises(l, events, Ev(v), nb, StartingProcessesEvent(e, t, v, false), c)
  {
    var l1 := (if v.StartEvent? then l.SetRunning(v.proc, true) else l).(coros := []);
    assert StartingProcessesEvent(e, t, v, false) == StartingProcessesCheck(Effect(l1, [], []), t);
    DoneStarting(l, events, nb, c, v, l1);
    GoesOnStarting(l, events, nb, c, v, l1);
  }

  lemma OnlineEventRises(l: Local, events: multiset<Event>, nb: Neighbours, e: Effect, t: Coro, c: ClientId, v: Event)
    requires Starts(l, events, Online, e, t, c) && t.Live? && v in events
    ensures Rises(l, events, Ev(v), nb, OnlineEvent(e, t, v, false), c)
  {
  }

  lemma EntryRises(l: Local, events: multiset<Event>, nb: Neighbours, c: ClientId, launch: nat)
    requires Rising(l, c) && Supplied(l, events) && c < 64 && l.coros[0].Scheduled? && launch >= |l.procs|
    ensures Rises(l, events, Entry, nb, RunEntry(l, 0, nb, launch), c)
  {
    var e, t := Effect(l.(coros := []), [], []), l.coros[0];
    assert Without(l, 0) == e;
    match l.oper {
      case Offline => OfflineEntryRises(l, events, nb, e, t, c);
      case StartingChildren => StartingChildrenEntryRises(l, events, nb, e, t, c);
      case Connecting => ConnectingEntryRises(l, events, nb, e, t, c);
      case StartingProcesses => StartingProcessesEntryRises(l, events, nb, e, t, c, launch);
      case Online => OnlineEntryRises(l, events, nb, e, t, c);
    }
  }

  lemma MessageRises(l: Local, events: multiset<Event>, nb: Neighbours, c: ClientId, m: Message)
    requires Rising(l, c) && Supplied(l, events) && c < 64 && l.coros[0].Live? && StartMessage(m, c)
    ensures Rises(l, events, Msg(m), nb, TakeMessage(l, 0, nb, m), c)
  {
    var e, t := Effect(l.(coros := []), [], []), l.coros[0];
    assert Without(l, 0) == e;
    match l.oper {
      case Offline => OfflineMessageRises(l, events, nb, e, t, c, m);
      case StartingChildren => StartingChildrenMessageRises(l, events, nb, e, t, c, m);
      case Connecting => ConnectingMessageRises(l, events, nb, e, t, c, m);
      case StartingProcesses => StartingProcessesMessageRises(l, events, nb, e, t, c, m);
      case Online => OnlineMessageRises(l, events, nb, e, t, c, m);
    }
  }

  lemma EventRises(l: Local, events: multiset<Event>, nb: Neighbours, c: ClientId, v: Event)
    requires Rising(l, c) && Supplied(l, events) && c < 64 && l.coros[0].Live? && v in events
    ensures Rises(l, events, Ev(v), nb, TakeEvent(l, 0, nb, v, false), c)
  {
    var e, t := Effect(l.(coros := []), [], []), l.coros[0];
    assert Without(l, 0) == e;
    match l.oper {
      case Connecting => ConnectingEventRises(l, events, nb, e, t, c, v);
      case StartingProcesses => StartingProcessesEventRises(l, events, nb, e, t, c, v);
      case Online => OnlineEventRises(l, events, nb, e, t, c, v);
    }
  }

  // ---------------------------------------------------------------- what is up already

  /** The client of the start is never lost, and comes with its command alone. */
  ghost predicate Welcomes(l: Local, input: Input, e: Effect, c: ClientId) {
    && (l.clients.Contains(c) ==> e.l.clients.Contains(c))
    && (input == Msg(ChangeAdmin(AdminOnline, c)) ==> e.l.clients.Contains(c))
    && (e.l.clients.Contains(c) ==> l.clients.Contains(c) || input == Msg(ChangeAdmin(AdminOnline, c)))
  }

  /** A subsystem that was down has the client exactly when it has left Offline, and one that was up passes nothing on. */
  ghost predicate Stands(l: Local, who: set<nat>, c: ClientId) {
    && (IsLive(l, l.oper) || IsScheduled(l, l.oper))
    && if who == {} then l.clients.Contains(c) <==> l.oper != Offline else l.oper == Online
  }

  /** A subsystem that is up takes the client of a start in, answers it, and passes nothing on. */
  ghost predicate TakesIn(l: Local, input: Input, nb: Neighbours, e: Effect, c: ClientId) {
    && Holding(e.l) && e.downs == []
    && Economical(StartRank, l, input, e) && Speaks(l, input, nb, e, c)
    && e.l == l.(coros := e.l.coros, clients := e.l.clients)
    && (e.l.clients.members == l.clients.members || e.l.clients.members == l.clients.members + {c})
    && Welcomes(l, input, e, c)
  }

  lemma HoldingHears(l: Local, nb: Neighbours, c: ClientId, m: Message)
    requires Holding(l) && l.clients.members != {} && c < 64 && StartMessage(m, c)
    ensures var t := l.coros[0];
      var members := if m.ChangeAdmin? && m.client == c then l.clients.members + {c} else l.clients.members;
      var r := TakeMessage(l, 0, nb, m);
      && r.l == l.(coros := [if m.ChangeAdmin? then t.(client := m.client, next := Online) else t], clients := r.l.clients)
      && r.l.clients.members == members
      && r.ups == (if m.ChangeAdmin? then [Online] else []) && r.downs == []
  {
    assert Without(l, 0) == Effect(l.(coros := []), [], []);
    if m.ChangeAdmin? {
      assert (if m.client == NO_CLIENT then l.clients else l.clients.Set(m.client)).members != {};
    }
  }

  lemma HoldingTakesIn(l: Local, nb: Neighbours, c: ClientId, m: Message)
    requires Holding(l) && l.clients.members != {} && c < 64 && StartMessage(m, c)
    ensures TakesIn(l, Msg(m), nb, TakeMessage(l, 0, nb, m), c)
  {
    HoldingHears(l, nb, c, m);
  }

  // ---------------------------------------------------------------- the whole system

  /** d is r or something r depends on. */
  ghost predicate Reach(t: Topology, r: SubId, d: SubId)
    decreases |t| - d
  {
    r == d || exists p :: d < p < |t| && d in t[p] && Reach(t, r, p)
  }

  /** The start of r comes to d: d is r, or a child of something that was down and the start comes to. */
  ghost predicate Comes(t: Topology, w: Config, r: SubId, d: SubId)
    requires |w| == |t|
    decreases |t| - d
  {
    r == d || exists p :: d < p < |t| && d in t[p] && w[p] == {} && Comes(t, w, r, p)
  }

  /** Who has subsystem i up after client c has started r. */
  ghost function AfterStart(t: Topology, w: Config, r: SubId, c: ClientId): (w': Config)
    requires |w| == |t|
    ensures |w'| == |t|
  {
    seq(|t|, i requires 0 <= i < |t| => if Comes(t, w, r, i) then w[i] + {c} else w[i])
  }

  predicate Commanded(q: seq<Message>) {
    exists i | 0 <= i < |q| :: q[i].ChangeAdmin?
  }

  /** A subsystem in a start: coming up or still down, or up from the beginning. */
  ghost predicate Fine(x: Sub, who: set<nat>, c: ClientId) {
    if who == {} then Rising(x.l, c) && Supplied(x.l, x.events)
    else
      && Holding(x.l) && Provided(x.l) && x.events == multiset{}
      && (x.l.clients.members == who || x.l.clients.members == who + {c})
  }

  /** A parent that the start has come to has passed it on, or the command is on its way. */
  ghost predicate Passed(n: Net, w: Config, p: SubId, d: SubId, c: ClientId)
    requires |n| == |w| && p < |n| && d < |n|
  {
    w[p] == {} && n[p].l.oper != Offline ==>
      n[d].l.clients.Contains(c) || ChangeAdmin(AdminOnline, c) in n[d].queue
  }

  /** Only what the start comes to gets its client. */
  ghost predicate Gets(t: Topology, n: Net, w: Config, r: SubId, c: ClientId, i: SubId)
    requires |n| == |w| == |t| && i < |t|
  {
    (n[i].l.clients.Contains(c) && c !in w[i]) || ChangeAdmin(AdminOnline, c) in n[i].queue ==> Comes(t, w, r, i)
  }

  /** No lost wake-up: an online child that a waiting parent has not heard will still be heard. */
  ghost predicate WillHear(n: Net, p: SubId, d: SubId)
    requires p < |n| && d < |n|
  {
    n[p].l.oper == StartingChildren && d !in Heard(n[p].l) && IsLive(n[d].l, Online) ==>
      ReportOper(d, Online) in n[p].queue || Commanded(n[d].queue)
  }

  /** What a parent has heard, or is about to hear, is true. */
  ghost predicate HeardTruth(n: Net, p: SubId, d: SubId)
    requires p < |n|
  {
    d in Heard(n[p].l) || ReportOper(d, Online) in n[p].queue ==> d < |n| && n[d].l.oper == Online
  }

  ghost predicate Inv(t: Topology, n: Net, w: Config, r: SubId, c: ClientId)
    requires Registered(t) && |n| == |w| == |t| && r < |t|
  {
    && (forall i | 0 <= i < |n| :: Fine(n[i], w[i], c))
    && Told(t, n, w, r, c)
  }

  /** The part of the invariant that relates different subsystems. */
  ghost predicate Told(t: Topology, n: Net, w: Config, r: SubId, c: ClientId)
    requires Registered(t) && |n| == |w| == |t| && r < |t|
  {
    && (forall i, m | 0 <= i < |n| && m in n[i].queue :: StartMessage(m, c))
    && (n[r].l.clients.Contains(c) || ChangeAdmin(AdminOnline, c) in n[r].queue)
    && (forall p, d | 0 <= p < |n| && d in t[p] :: Passed(n, w, p, d, c) && WillHear(n, p, d))
    && (forall p, d: SubId | 0 <= p < |n| :: HeardTruth(n, p, d))
    && (forall p | 0 <= p < |n| && IsLive(n[p].l, StartingChildren) :: !(t[p] <= Heard(n[p].l)))
    && (forall i | 0 <= i < |n| :: Gets(t, n, w, r, c, i))
  }

  /** What reaches the queue of another subsystem i when s acts. */
  lemma Arrivals(t: Topology, n: Net, n': Net, s: SubId, i: SubId, e: Effect)
    requires Registered(t) && |n| == |n'| == |t| && s < |t| && i < |t| && i != s
    requires n'[i] == Received(t, n[i], i, s, e)
    ensures n'[i].l == n[i].l && n'[i].events == n[i].events
    ensures forall m | m in n[i].queue :: m in n'[i].queue
    ensures forall o | o in e.ups && s in t[i] :: ReportOper(s, o) in n'[i].queue
    ensures forall w | w in e.downs && i in t[s] :: ChangeAdmin(w.admin, w.client) in n'[i].queue
    ensures forall m | m in n'[i].queue ::
        || m in n[i].queue
        || (i in t[s] && exists w :: w in e.downs && m == ChangeAdmin(w.admin, w.client))
        || (s in t[i] && m.ReportOper? && m.sender == s && m.oper in e.ups)
  {
    if i in t[s] {
      forall w | w in e.downs ensures ChangeAdmin(w.admin, w.client) in n'[i].queue {
        var j :| 0 <= j < |e.downs| && e.downs[j] == w;
        assert Commands(e.downs)[j] == ChangeAdmin(w.admin, w.client);
      }
    } else if s in t[i] {
      forall o | o in e.ups ensures ReportOper(s, o) in n'[i].queue {
        var j :| 0 <= j < |e.ups| && e.ups[j] == o;
        assert Reports(s, e.ups)[j] == ReportOper(s, o);
      }
    }
  }

  /** Subsystem s has made one start step from n to n'. */
  ghost predicate Moves(t: Topology, n: Net, n': Net, s: SubId, input: Input, e: Effect, w: Config, r: SubId,
                        c: ClientId)
    requires Registered(t) && |n| == |w| == |t| && s < |t| && r < |t|
  {
    && |n'| == |n| && Told(t, n, w, r, c)
    && Stands(n[s].l, w[s], c) && Stands(e.l, w[s], c) && (w[s] != {} ==> e.downs == [])
    && Welcomes(n[s].l, input, e, c) && Speaks(n[s].l, input, View(t, n, s), e, c)
    && Consumes(n[s], input, n'[s].queue, n'[s].events) && n'[s].l == e.l
    && forall i | 0 <= i < |n| && i != s :: n'[i] == Received(t, n[i], i, s, e)
  }

  /** Only the consumed message leaves a queue. */
  lemma QueueLeft(x: Sub, input: Input, queue: seq<Message>, events: multiset<Event>)
    requires Consumes(x, input, queue, events)
    ensures forall m | m in x.queue :: m in queue || input == Msg(m)
    ensures forall m | m in queue :: m in x.queue
    ensures Commanded(x.queue) ==> Commanded(queue) || (input.Msg? && input.m.ChangeAdmin?)
    ensures Commanded(queue) ==> Commanded(x.queue)
    ensures events == EventsLeft(x.events, input)
  {
    if input.Msg? {
      assert x.queue == [input.m] + queue;
      if Commanded(x.queue) {
        var i :| 0 <= i < |x.queue| && x.queue[i].ChangeAdmin?;
        if i > 0 { assert queue[i-1].ChangeAdmin?; }
      }
      if Commanded(queue) {
        var i :| 0 <= i < |queue| && queue[i].ChangeAdmin?;
        assert x.queue[i+1].ChangeAdmin?;
      }
    }
  }

  lemma CommandedBy(q: seq<Message>, m: Message)
    requires m in q && m.ChangeAdmin?
    ensures Commanded(q)
  {
    var i :| 0 <= i < |q| && q[i] == m;
  }

  lemma CommandedKept(q: seq<Message>, q': seq<Message>)
    requires Commanded(q) && forall m | m in q :: m in q'
    ensures Commanded(q')
  {
    var i :| 0 <= i < |q| && q[i].ChangeAdmin?;
    CommandedBy(q', q[i]);
  }

  lemma PassedKept(t: Topology, n: Net, n': Net, s: SubId, input: Input, e: Effect, w: Config, r: SubId, c: ClientId,
                   p: SubId, d: SubId)
    requires Registered(t) && |n| == |w| == |t| && s < |t| && r < |t| && Moves(t, n, n', s, input, e, w, r, c)
    requires p < |t| && d in t[p]
    ensures Passed(n', w, p, d, c)
  {
    assert Passed(n, w, p, d, c);
    QueueLeft(n[s], input, n'[s].queue, n'[s].events);
    if p != s { Arrivals(t, n, n', s, p, e); }
    if d != s { Arrivals(t, n, n', s, d, e); }
  }

  lemma WillHearKept(t: Topology, n: Net, n': Net, s: SubId, input: Input, e: Effect, w: Config, r: SubId,
                     c: ClientId, p: SubId, d: SubId)
    requires Registered(t) && |n| == |w| == |t| && s < |t| && r < |t| && Moves(t, n, n', s, input, e, w, r, c)
    requires p < |t| && d in t[p]
    ensures WillHear(n', p, d)
  {
    assert WillHear(n, p, d);
    QueueLeft(n[s], input, n'[s].queue, n'[s].events);
    if p != s { Arrivals(t, n, n', s, p, e); }
    if d != s { Arrivals(t, n, n', s, d, e); }
    if n'[p].l.oper == StartingChildren && d !in Heard(n'[p].l) && IsLive(n'[d].l, Online) {
      if p == s {
        if n[s].l.oper == Offline {
          CommandedBy(n'[d].queue, ChangeAdmin(AdminOnline, c));
        } else if Commanded(n[d].queue) {
          CommandedKept(n[d].queue, n'[d].queue);
        }
      } else if d != s && Commanded(n[d].queue) {
        CommandedKept(n[d].queue, n'[d].queue);
      }
    }
  }

  lemma HeardTruthKept(t: Topology, n: Net, n': Net, s: SubId, input: Input, e: Effect, w: Config, r: SubId,
                       c: ClientId, p: SubId, d: SubId)
    requires Registered(t) && |n| == |w| == |t| && s < |t| && r < |t| && Moves(t, n, n', s, input, e, w, r, c)
    requires p < |t|
    ensures HeardTruth(n', p, d)
  {
    assert HeardTruth(n, p, d);
    QueueLeft(n[s], input, n'[s].queue, n'[s].events);
    if p != s { Arrivals(t, n, n', s, p, e); }
    if d != s && d < |t| { Arrivals(t, n, n', s, d, e); }
  }

  /** A subsystem that goes on waiting has a child it has not heard. */
  lemma StillWaiting(t: Topology, n: Net, n': Net, s: SubId, input: Input, e: Effect, w: Config, r: SubId,
                     c: ClientId, p: SubId)
    requires Registered(t) && |n| == |w| == |t| && s < |t| && r < |t| && Moves(t, n, n', s, input, e, w, r, c)
    requires p < |t| && IsLive(n'[p].l, StartingChildren)
    ensures !(t[p] <= Heard(n'[p].l))
  {
    var nb := View(t, n, s);
    if p != s {
      Arrivals(t, n, n', s, p, e);
    } else if t[p] <= Heard(n'[p].l) {
      assert nb.children.Keys == t[s];
      forall d | d in nb.children ensures nb.children[d].oper == Online {
        assert HeardTruth(n, s, d);
        assert nb.children[d] == GlimpseOf(n[d]);
      }
      assert nb.ChildrenOnline();
    }
  }

  lemma GetsKept(t: Topology, n: Net, n': Net, s: SubId, input: Input, e: Effect, w: Config, r: SubId, c: ClientId,
                 i: SubId)
    requires Registered(t) && |n| == |w| == |t| && s < |t| && r < |t| && Moves(t, n, n', s, input, e, w, r, c)
    requires i < |t|
    ensures Gets(t, n', w, r, c, i)
  {
    assert Gets(t, n, w, r, c, i) && Gets(t, n, w, r, c, s);
    QueueLeft(n[s], input, n'[s].queue, n'[s].events);
    if i != s {
      Arrivals(t, n, n', s, i, e);
      if ChangeAdmin(AdminOnline, c) in n'[i].queue && ChangeAdmin(AdminOnline, c) !in n[i].queue {
        SenderComes(t, n, n', s, input, e, w, r, c);
        assert i in t[s] && i < s;
      }
    }
  }

  /** Whoever passes the start on has got it. */
  lemma SenderComes(t: Topology, n: Net, n': Net, s: SubId, input: Input, e: Effect, w: Config, r: SubId, c: ClientId)
    requires Registered(t) && |n| == |w| == |t| && s < |t| && r < |t| && Moves(t, n, n', s, input, e, w, r, c)
    requires e.downs != []
    ensures w[s] == {} && Comes(t, w, r, s)
  {
    assert Gets(t, n, w, r, c, s);
    assert input == Msg(ChangeAdmin(AdminOnline, c)) ==> ChangeAdmin(AdminOnline, c) in n[s].queue;
  }

  /** What one step of a subsystem comes to, whether it was up or down to begin with. */
  ghost predicate Serves(x: Sub, who: set<nat>, input: Input, nb: Neighbours, e: Effect, c: ClientId) {
    && Fine(Sub(e.l, [], EventsLeft(x.events, input)), who, c)
    && Economical(StartRank, x.l, input, e) && Speaks(x.l, input, nb, e, c)
    && Stands(x.l, who, c) && Stands(e.l, who, c) && (who != {} ==> e.downs == [])
    && Welcomes(x.l, input, e, c)
  }

  lemma RisingStands(l: Local, c: ClientId)
    requires Rising(l, c)
    ensures Stands(l, {}, c)
  {
  }

  lemma RisesServes(x: Sub, input: Input, nb: Neighbours, e: Effect, c: ClientId)
    requires Rising(x.l, c) && Rises(x.l, x.events, input, nb, e, c)
    ensures Serves(x, {}, input, nb, e, c)
  {
    RisingStands(x.l, c);
    RisingStands(e.l, c);
  }

  lemma LocalKept(t: Topology, n: Net, n': Net, s: SubId, input: Input, e: Effect, w: Config, r: SubId, c: ClientId)
    requires Registered(t) && |n| == |n'| == |w| == |t| && s < |t| && r < |t| && Inv(t, n, w, r, c)
    requires Serves(n[s], w[s], input, View(t, n, s), e, c)
    requires Consumes(n[s], input, n'[s].queue, n'[s].events) && n'[s].l == e.l
    requires forall i | 0 <= i < |n| && i != s :: n'[i].l == n[i].l && n'[i].events == n[i].events
    ensures forall i | 0 <= i < |n'| :: Fine(n'[i], w[i], c)
  {
    QueueLeft(n[s], input, n'[s].queue, n'[s].events);
    forall i | 0 <= i < |n'| ensures Fine(n'[i], w[i], c) {
      assert Fine(n[i], w[i], c);
    }
  }

  lemma ToldKept(t: Topology, n: Net, n': Net, s: SubId, input: Input, e: Effect, w: Config, r: SubId, c: ClientId)
    requires Registered(t) && |n| == |w| == |t| && s < |t| && r < |t| && Moves(t, n, n', s, input, e, w, r, c)
    ensures Told(t, n', w, r, c)
  {
    QueueLeft(n[s], input, n'[s].queue, n'[s].events);
    forall i, m | 0 <= i < |n'| && m in n'[i].queue ensures StartMessage(m, c) {
      if i != s { Arrivals(t, n, n', s, i, e); }
    }
    if r != s { Arrivals(t, n, n', s, r, e); }
    forall p, d | 0 <= p < |n'| && d in t[p] ensures Passed(n', w, p, d, c) && WillHear(n', p, d) {
      PassedKept(t, n, n', s, input, e, w, r, c, p, d);
      WillHearKept(t, n, n', s, input, e, w, r, c, p, d);
    }
    forall p, d: SubId | 0 <= p < |n'| ensures HeardTruth(n', p, d) {
      HeardTruthKept(t, n, n', s, input, e, w, r, c, p, d);
    }
    forall p | 0 <= p < |n'| && IsLive(n'[p].l, StartingChildren) ensures !(t[p] <= Heard(n'[p].l)) {
      StillWaiting(t, n, n', s, input, e, w, r, c, p);
    }
    forall i | 0 <= i < |n'| ensures Gets(t, n', w, r, c, i) {
      GetsKept(t, n, n', s, input, e, w, r, c, i);
    }
  }

  /** The actions of a run in which every process comes up and nobody interferes. */
  predicate StartAction(n: Net, a: Action)
    requires Enabled(n, a)
  {
    match a
    case DoEntry(s, _, launch) => launch >= |n[s].l.procs|
    case DoMessage(_, _) => true
    case DoEvent(_, _, _, aborting) => !aborting
    case LinkUp(_, _) => true
    case ProcStarts(_, _) => true
    case _ => false
  }

  function InputOf(n: Net, a: Action): Input
    requires Enabled(n, a) && ByCoroutine(a)
  {
    match a
    case DoMessage(s, _) => Msg(n[s].queue[0])
    case DoEvent(_, _, v, _) => Ev(v)
    case _ => Entry
  }

  lemma DoEntryRises(t: Topology, n: Net, a: Action, c: ClientId)
    requires Registered(t) && |n| == |t| && c < 64 && Enabled(n, a) && StartAction(n, a) && a.DoEntry?
    requires Rising(n[a.s].l, c) && Supplied(n[a.s].l, n[a.s].events)
    ensures Rises(n[a.s].l, n[a.s].events, Entry, View(t, n, a.s), EffectOf(t, n, a), c)
  {
    EntryRises(n[a.s].l, n[a.s].events, View(t, n, a.s), c, a.launch);
  }

  lemma DoMessageRises(t: Topology, n: Net, a: Action, c: ClientId)
    requires Registered(t) && |n| == |t| && c < 64 && Enabled(n, a) && StartAction(n, a) && a.DoMessage?
    requires Rising(n[a.s].l, c) && Supplied(n[a.s].l, n[a.s].events) && StartMessage(n[a.s].queue[0], c)
    ensures Rises(n[a.s].l, n[a.s].events, Msg(n[a.s].queue[0]), View(t, n, a.s), EffectOf(t, n, a), c)
  {
    MessageRises(n[a.s].l, n[a.s].events, View(t, n, a.s), c, n[a.s].queue[0]);
  }

  lemma DoEventRises(t: Topology, n: Net, a: Action, c: ClientId)
    requires Registered(t) && |n| == |t| && c < 64 && Enabled(n, a) && StartAction(n, a) && a.DoEvent?
    requires Rising(n[a.s].l, c) && Supplied(n[a.s].l, n[a.s].events)
    ensures Rises(n[a.s].l, n[a.s].events, Ev(a.v), View(t, n, a.s), EffectOf(t, n, a), c)
  {
    EventRises(n[a.s].l, n[a.s].events, View(t, n, a.s), c, a.v);
  }

  lemma CoroutineRises(t: Topology, n: Net, a: Action, c: ClientId)
    requires Registered(t) && |n| == |t| && c < 64 && Enabled(n, a) && StartAction(n, a) && ByCoroutine(a)
    requires Rising(n[a.s].l, c) && Supplied(n[a.s].l, n[a.s].events)
    requires a.DoMessage? ==> StartMessage(n[a.s].queue[0], c)
    ensures Rises(n[a.s].l, n[a.s].events, InputOf(n, a), View(t, n, a.s), EffectOf(t, n, a), c)
  {
    if a.DoEntry? {
      DoEntryRises(t, n, a, c);
    } else if a.DoMessage? {
      DoMessageRises(t, n, a, c);
    } else {
      DoEventRises(t, n, a, c);
    }
  }

  /** What was up already can only take a message. */
  lemma HoldingServes(t: Topology, n: Net, a: Action, who: set<nat>, c: ClientId)
    requires Registered(t) && |n| == |t| && c < 64 && Enabled(n, a) && StartAction(n, a) && ByCoroutine(a)
    requires who != {} && Fine(n[a.s], who, c)
    requires a.DoMessage? ==> StartMessage(n[a.s].queue[0], c)
    ensures Serves(n[a.s], who, InputOf(n, a), View(t, n, a.s), EffectOf(t, n, a), c)
  {
    assert a.DoMessage? && a.k == 0;
    HoldingTakesIn(n[a.s].l, View(t, n, a.s), c, n[a.s].queue[0]);
  }

  lemma CoroutineServes(t: Topology, n: Net, a: Action, w: Config, r: SubId, c: ClientId)
    requires Registered(t) && |n| == |w| == |t| && r < |t| && c < 64 && Inv(t, n, w, r, c)
    requires Enabled(n, a) && StartAction(n, a) && ByCoroutine(a)
    ensures Serves(n[a.s], w[a.s], InputOf(n, a), View(t, n, a.s), EffectOf(t, n, a), c)
  {
    assert Fine(n[a.s], w[a.s], c);
    if w[a.s] == {} {
      CoroutineRises(t, n, a, c);
      RisesServes(n[a.s], InputOf(n, a), View(t, n, a.s), EffectOf(t, n, a), c);
    } else {
      HoldingServes(t, n, a, w[a.s], c);
    }
  }

  lemma DeliverKeeps(t: Topology, n: Net, s: SubId, input: Input, e: Effect, queue: seq<Message>,
                     events: multiset<Event>, w: Config, r: SubId, c: ClientId)
    requires Registered(t) && |n| == |w| == |t| && s < |t| && r < |t| && Inv(t, n, w, r, c)
    requires Serves(n[s], w[s], input, View(t, n, s), e, c) && Consumes(n[s], input, queue, events)
    ensures var n' := Deliver(t, n, s, e, queue, events);
            Inv(t, n', w, r, c) && Total(t, n', |t|, StartRank) < Total(t, n, |t|, StartRank)
  {
    var n' := Deliver(t, n, s, e, queue, events);
    LocalKept(t, n, n', s, input, e, w, r, c);
    ToldKept(t, n, n', s, input, e, w, r, c);
    CoroutineLowers(t, n, s, input, e, queue, events, StartRank);
  }

  /** A connection or a process coming up changes neither states nor queues. */
  lemma SurroundKeeps(t: Topology, n: Net, s: SubId, y: Sub, w: Config, r: SubId, c: ClientId)
    requires Registered(t) && |n| == |w| == |t| && s < |t| && r < |t| && Inv(t, n, w, r, c)
    requires y.queue == n[s].queue && Fine(y, w[s], c)
    requires y.l.oper == n[s].l.oper && y.l.coros == n[s].l.coros && y.l.clients == n[s].l.clients
    ensures Inv(t, n[s := y], w, r, c)
  {
    var n' := n[s := y];
    forall i | 0 <= i < |n'| ensures Fine(n'[i], w[i], c) {
      assert Fine(n[i], w[i], c);
    }
    SameTold(t, n, n', w, r, c);
  }

  lemma SameTold(t: Topology, n: Net, n': Net, w: Config, r: SubId, c: ClientId)
    requires Registered(t) && |n| == |n'| == |w| == |t| && r < |t| && Told(t, n, w, r, c)
    requires forall i | 0 <= i < |n| ::
        && n'[i].queue == n[i].queue && n'[i].l.oper == n[i].l.oper && n'[i].l.coros == n[i].l.coros
        && n'[i].l.clients == n[i].l.clients
    ensures Told(t, n', w, r, c)
  {
    forall i | 0 <= i < |n'| ensures Gets(t, n', w, r, c, i) {
      assert Gets(t, n, w, r, c, i);
    }
    forall p, d | 0 <= p < |n'| && d in t[p] ensures Passed(n', w, p, d, c) && WillHear(n', p, d) {
      assert Passed(n, w, p, d, c) && WillHear(n, p, d);
    }
    forall p, d: SubId | 0 <= p < |n'| ensures HeardTruth(n', p, d) {
      assert HeardTruth(n, p, d);
    }
  }

  lemma LinkUpSupplied(x: Sub, k: ComputeId, c: ClientId)
    requires Rising(x.l, c) && Supplied(x.l, x.events)
    requires k in x.l.connectors && k in x.l.umbilicals && x.l.umbilicals[k].state == LinkConnecting
    ensures var y := Surround(x, LinkUp(0, k));
            Supplied(y.l, y.events) && StartRank(y.l) == StartRank(x.l)
  {
    var y := Surround(x, LinkUp(0, k));
    assert ConnectEvent(k) in y.events;
    assert y.l == x.l.(umbilicals := x.l.umbilicals[k := x.l.umbilicals[k].(state := LinkConnected, alive := true)],
                       connectors := x.l.connectors - {k});
    assert y.l.oper == Connecting ==> IsLive(y.l, Connecting) == IsLive(x.l, Connecting);
  }

  lemma ProcStartsSupplied(x: Sub, p: ProcId, c: ClientId)
    requires Rising(x.l, c) && Supplied(x.l, x.events) && p in x.l.launched
    ensures var y := Surround(x, ProcStarts(0, p));
            Supplied(y.l, y.events) && StartRank(y.l) == StartRank(x.l)
  {
    var y := Surround(x, ProcStarts(0, p));
    assert StartEvent(p) in y.events;
    assert y.l == x.l.(launched := x.l.launched - {p});
  }

  /** An answer of StageZero. */
  lemma AnswerFine(x: Sub, a: Action, who: set<nat>, c: ClientId)
    requires Fine(x, who, c) && EnabledAt(x, a) && (a.LinkUp? || a.ProcStarts?)
    ensures var y := Surround(x, a);
      && Fine(y, who, c) && StartRank(y.l) == StartRank(x.l) && y.queue == x.queue
      && y.l.oper == x.l.oper && y.l.coros == x.l.coros && y.l.clients == x.l.clients
  {
    if who == {} && a.LinkUp? {
      LinkUpSupplied(x, a.compute, c);
    } else if who == {} {
      ProcStartsSupplied(x, a.p, c);
    }
  }

  lemma AnswerKeeps(t: Topology, n: Net, a: Action, w: Config, r: SubId, c: ClientId)
    requires Registered(t) && |n| == |w| == |t| && r < |t| && Inv(t, n, w, r, c)
    requires Enabled(n, a) && (a.LinkUp? || a.ProcStarts?)
    ensures var n' := n[a.s := Surround(n[a.s], a)];
            Inv(t, n', w, r, c) && Total(t, n', |t|, StartRank) < Total(t, n, |t|, StartRank)
  {
    var x := n[a.s];
    assert Fine(x, w[a.s], c);
    AnswerFine(x, a, w[a.s], c);
    AnswerOwed(x, a);
    SurroundKeeps(t, n, a.s, Surround(x, a), w, r, c);
    AnswerLowers(t, n, a.s, Surround(x, a), StartRank);
  }

  /** Every step of a start keeps the invariant and lowers the measure. */
  lemma StartStep(t: Topology, n: Net, a: Action, w: Config, r: SubId, c: ClientId)
    requires Registered(t) && |n| == |w| == |t| && r < |t| && c < 64 && Inv(t, n, w, r, c)
    requires Enabled(n, a) && StartAction(n, a)
    ensures Inv(t, Apply(t, n, a), w, r, c)
    ensures Total(t, Apply(t, n, a), |t|, StartRank) < Total(t, n, |t|, StartRank)
  {
    var x := n[a.s];
    if ByCoroutine(a) {
      CoroutineServes(t, n, a, w, r, c);
      DeliverKeeps(t, n, a.s, InputOf(n, a), EffectOf(t, n, a),
        if a.DoMessage? then x.queue[1..] else x.queue,
        if a.DoEvent? then x.events - multiset{a.v} else x.events, w, r, c);
    } else {
      AnswerKeeps(t, n, a, w, r, c);
    }
  }

  // ---------------------------------------------------------------- where a start ends

  /** No action of the start is possible any more. */
  ghost predicate Stuck(n: Net) {
    forall a | Enabled(n, a) :: !StartAction(n, a)
  }

  lemma StuckServes(n: Net, i: SubId, c: ClientId)
    requires i < |n| && Rising(n[i].l, c) && Stuck(n)
    ensures IsLive(n[i].l, n[i].l.oper) && n[i].queue == []
  {
    assert !Enabled(n, DoEntry(i, 0, |n[i].l.procs|));
    assert !Enabled(n, DoMessage(i, 0));
  }

  lemma StuckOwesNothing(n: Net, i: SubId)
    requires i < |n| && Supplied(n[i].l, n[i].events) && Stuck(n) && IsLive(n[i].l, n[i].l.oper)
    ensures n[i].events == multiset{} && n[i].l.connectors == {} && n[i].l.launched == {}
  {
    var x := n[i];
    forall v ensures v !in x.events {
      assert !Enabled(n, DoEvent(i, 0, v, false));
    }
    forall k ensures k !in x.l.connectors {
      assert !Enabled(n, LinkUp(i, k));
    }
    forall p ensures p !in x.l.launched {
      assert !Enabled(n, ProcStarts(i, p));
    }
  }

  /** Nothing is scheduled, queued or owed. */
  lemma StuckIsQuiet(t: Topology, n: Net, w: Config, r: SubId, c: ClientId, i: SubId)
    requires Registered(t) && |n| == |w| == |t| && r < |t| && i < |t| && Inv(t, n, w, r, c) && Stuck(n)
    ensures IsLive(n[i].l, n[i].l.oper) && n[i].queue == [] && n[i].events == multiset{}
    ensures n[i].l.connectors == {} && n[i].l.launched == {}
  {
    assert Fine(n[i], w[i], c);
    if w[i] == {} {
      StuckServes(n, i, c);
      StuckOwesNothing(n, i);
    } else {
      assert !Enabled(n, DoMessage(i, 0));
    }
  }

  /** Nobody is stuck over its own connections or processes. */
  lemma NotStuckAlone(l: Local, events: multiset<Event>, c: ClientId)
    requires Rising(l, c) && Supplied(l, events) && IsLive(l, l.oper)
    requires events == multiset{} && l.connectors == {} && l.launched == {}
    ensures l.oper == Offline || l.oper == StartingChildren || l.oper == Online
  {
    assert l.oper == Connecting ==> l.AllConnected() by {
      assert forall p | 0 <= p < |l.procs| && l.oper == Connecting :: Reachable(l, l.procs[p].compute);
    }
    assert l.oper == StartingProcesses ==> l.AllRunning();
  }

  /** Nobody is stuck waiting for a child: the lowest one waiting would have been heard. */
  lemma {:induction false} NobodyWaits(t: Topology, n: Net, w: Config, r: SubId, c: ClientId, i: SubId)
    requires Registered(t) && |n| == |w| == |t| && r < |t| && i < |t| && Inv(t, n, w, r, c) && Stuck(n)
    ensures n[i].l.oper == Offline || (n[i].l.oper == Online && IsLive(n[i].l, Online))
    decreases i
  {
    StuckIsQuiet(t, n, w, r, c, i);
    assert Fine(n[i], w[i], c);
    if w[i] == {} {
      NotStuckAlone(n[i].l, n[i].events, c);
      forall d | d in t[i] && n[i].l.oper == StartingChildren ensures d in Heard(n[i].l) {
        NobodyWaits(t, n, w, r, c, d);
        StuckIsQuiet(t, n, w, r, c, d);
        assert Passed(n, w, i, d, c) && WillHear(n, i, d);
        assert Fine(n[d], w[d], c);
      }
    }
  }

  /** Whatever the start comes to has its client. */
  lemma {:induction false} ComesToAll(t: Topology, n: Net, w: Config, r: SubId, c: ClientId, d: SubId)
    requires Registered(t) && |n| == |w| == |t| && r < |t| && d < |t| && Inv(t, n, w, r, c) && Stuck(n)
    requires Comes(t, w, r, d)
    ensures n[d].l.clients.Contains(c)
    decreases |t| - d
  {
    StuckIsQuiet(t, n, w, r, c, d);
    if d != r {
      var p :| d < p < |t| && d in t[p] && w[p] == {} && Comes(t, w, r, p);
      ComesToAll(t, n, w, r, c, p);
      assert Passed(n, w, p, d, c) && Fine(n[p], w[p], c);
    }
  }

  /** Everything is at rest again, and the client has come to exactly what its start came to. */
  lemma StuckIsStarted(t: Topology, n: Net, w: Config, r: SubId, c: ClientId)
    requires Registered(t) && |n| == |w| == |t| && r < |t| && Inv(t, n, w, r, c) && Stuck(n)
    ensures AllResting(n, AfterStart(t, w, r, c))
  {
    forall i | 0 <= i < |t| ensures Resting(n[i], AfterStart(t, w, r, c)[i]) {
      StuckIsQuiet(t, n, w, r, c, i);
      NobodyWaits(t, n, w, r, c, i);
      if Comes(t, w, r, i) {
        ComesToAll(t, n, w, r, c, i);
      }
      assert Fine(n[i], w[i], c) && Gets(t, n, w, r, c, i);
      EndsResting(n[i], w[i], c, Comes(t, w, r, i));
    }
  }

  lemma EndsResting(x: Sub, who: set<nat>, c: ClientId, comes: bool)
    requires Fine(x, who, c) && IsLive(x.l, x.l.oper) && x.queue == [] && x.events == multiset{}
    requires x.l.connectors == {} && x.l.launched == {} && (x.l.oper == Offline || x.l.oper == Online)
    requires x.l.clients.Contains(c) && c !in who ==> comes
    requires comes ==> x.l.clients.Contains(c)
    ensures Resting(x, if comes then who + {c} else who)
  {
  }

  /** A subsystem at rest, or just created and about to enter Offline. */
  predicate Ready(x: Sub, who: set<nat>) {
    || Resting(x, who)
    || (who == {} && |x.l.coros| == 1 && x.l.coros[0].Scheduled?
        && Resting(x.(l := x.l.(coros := [Serving(Offline, x.l.coros[0].client, x.l.coros[0].state)])), who))
  }

  /** All at rest, with the one command of the client to r on its way. */
  ghost predicate StartState(t: Topology, n: Net, w: Config, r: SubId, c: ClientId) {
    && |n| == |w| == |t| && r < |t| && n[r].queue == [ChangeAdmin(AdminOnline, c)]
    && forall i | 0 <= i < |n| :: Ready(if i == r then n[i].(queue := []) else n[i], w[i])
  }

  lemma ReadyFine(x: Sub, who: set<nat>, c: ClientId)
    requires Ready(x, who)
    ensures Fine(x, who, c) && x.queue == [] && (x.l.oper == Offline || x.l.oper == Online)
    ensures x.l.clients.members == who
  {
  }

  lemma StartStateInv(t: Topology, n: Net, w: Config, r: SubId, c: ClientId)
    requires Registered(t) && StartState(t, n, w, r, c)
    ensures Inv(t, n, w, r, c)
  {
    forall i | 0 <= i < |n|
      ensures Fine(n[i], w[i], c) && (n[i].l.oper == Offline || n[i].l.oper == Online)
      ensures n[i].l.clients.members == w[i] && (i != r ==> n[i].queue == [])
    {
      ReadyFine(if i == r then n[i].(queue := []) else n[i], w[i], c);
    }
  }

  ghost predicate Holds(t: Topology, n: Net, w: Config, r: SubId, c: ClientId)
    requires Registered(t) && r < |t|
  {
    |n| == |w| == |t| && Inv(t, n, w, r, c)
  }

  function Size(t: Topology, n: Net): int {
    if |n| == |t| then Total(t, n, |t|, StartRank) else 0
  }

  /**
   The start cascade terminates and loses no wake-up: a run is never longer than the
   measure of its first state, and when nothing more can happen all is at rest again, r
   and whatever it depends on that was down is up for the client, and what was up stays up.
   */
  lemma StartEnds(t: Topology, ns: seq<Net>, acts: seq<Action>, w: Config, r: SubId, c: ClientId)
    requires Registered(t) && Run(t, ns, acts) && StartState(t, ns[0], w, r, c) && c < 64
    requires forall k | 0 <= k < |acts| :: StartAction(ns[k], acts[k])
    ensures |acts| <= Total(t, ns[0], |t|, StartRank)
    ensures Stuck(ns[|acts|]) ==> AllResting(ns[|acts|], AfterStart(t, w, r, c))
  {
    StartInvAlways(t, ns, acts, w, r, c, |acts|);
    if Stuck(ns[|acts|]) {
      StuckIsStarted(t, ns[|acts|], w, r, c);
    }
  }

  lemma StartKeepsLower(t: Topology, n: Net, a: Action, n': Net, w: Config, r: SubId, c: ClientId)
    requires Registered(t) && r < |t| && Holds(t, n, w, r, c) && c < 64
    requires Enabled(n, a) && StartAction(n, a) && n' == Apply(t, n, a)
    ensures Holds(t, n', w, r, c) && Size(t, n') < Size(t, n)
  {
    StartStep(t, n, a, w, r, c);
  }

  lemma StartInvAlways(t: Topology, ns: seq<Net>, acts: seq<Action>, w: Config, r: SubId, c: ClientId, i: nat)
    requires Registered(t) && Run(t, ns, acts) && StartState(t, ns[0], w, r, c) && c < 64
    requires forall k | 0 <= k < |acts| :: StartAction(ns[k], acts[k])
    requires i < |ns|
    ensures |ns[i]| == |t| && Inv(t, ns[i], w, r, c)
    ensures Total(t, ns[i], |t|, StartRank) + i <= Total(t, ns[0], |t|, StartRank)
  {
    StartStateInv(t, ns[0], w, r, c);
    var good := iset n: Net | Holds(t, n, w, r, c);
    forall k {:trigger ns[k]} | 0 <= k < i
      ensures ns[k] in good ==> ns[k+1] in good && Size(t, ns[k+1]) < Size(t, ns[k])
    {
      assert StartAction(ns[k], acts[k]);
      if ns[k] in good {
        StartKeepsLower(t, ns[k], acts[k], ns[k+1], w, r, c);
      }
    }
    Descends(ns, i, good, n => Size(t, n));
  }
}
