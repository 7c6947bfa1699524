/**
 The stop cascade.  A client stops one subsystem of a system at rest, whatever other clients have up:
 exactly what nobody else holds comes down, shared children last, the rest stays up, and nobody is left
 waiting for a child's report.
 */
module StopCascade {
  import opened States
  import opened ClientBits
  import opened Umbilicals
  import opened SubsystemModel
  import opened Network
  import opened CascadeMeasure
  import opened Configs
  import StartCascade
  import ReferenceCounts

  /** The states of a stop, in order. */
  predicate Rung(o: OperState) {
    o == Online || o == StoppingProcesses || o == StoppingChildren || o == Offline
  }

  predicate IsScheduled(l: Local, o: OperState) {
    StartCascade.IsScheduled(l, o)
  }

  /** States still ahead. */
  function StopRank(l: Local): nat {
    if IsLive(l, Online) then 6
    else if IsScheduled(l, StoppingProcesses) then 5
    else if IsLive(l, StoppingProcesses) then 4
    else if IsScheduled(l, StoppingChildren) then 3
    else if IsLive(l, StoppingChildren) then 2
    else if IsScheduled(l, Offline) then 1
    else 0
  }

  /** Control state of a subsystem during the stop of client c. */
  predicate Falling(l: Local, c: ClientId) {
    && Rung(l.oper)
    && (IsLive(l, l.oper) || (IsScheduled(l, l.oper) && l.oper != Online))
    && l.admin == (if l.oper == Online then AdminOnline else AdminOffline)
    && l.clients.members == (if l.oper == Online then {c} else {})
    && (l.oper == StoppingProcesses || l.oper == StoppingChildren ==> l.coros[0].client == c)
    && (IsLive(l, Online) ==> l.coros[0].next == Online)
    && (IsLive(l, Offline) ==> l.coros[0].next == Offline)
    && (IsLive(l, StoppingProcesses) ==> l.coros[0].next == StoppingChildren)
    && (IsLive(l, StoppingChildren) ==> l.coros[0].next == Offline && l.coros[0].requests == {c})
  }

  /** Processes and the stop events on their way. */
  predicate Draining(l: Local, events: multiset<Event>) {
    && l.connectors == {} && l.launched == {} && Provided(l)
    && (forall v | v in events :: v.StopEvent?)
    && (forall p | p in l.stopRequested :: p < |l.procs|)
    && (l.oper == Online || IsScheduled(l, StoppingProcesses) ==>
          l.AllRunning() && events == multiset{} && l.stopRequested == {})
    && (IsLive(l, StoppingProcesses) ==>
          && !l.AllStopped()
          && forall p | 0 <= p < |l.procs| && l.procs[p].running :: p in l.stopRequested || StopEvent(p) in events)
    && (l.oper == StoppingChildren || l.oper == Offline ==> l.AllStopped())
    && (IsLive(l, Offline) ==> Released(l))
  }

  /** No process holds a connection. */
  predicate Released(l: Local) {
    forall p | 0 <= p < |l.procs| :: !l.procs[p].maybeConnected
  }

  function Heard(l: Local): set<SubId> {
    if IsLive(l, StoppingChildren) then l.coros[0].notified else {}
  }

  predicate StopMessage(m: Message, c: ClientId) {
    match m
    case ChangeAdmin(a, x) => a == AdminOffline && x == c
    case ReportOper(_, o) => Rung(o)
    case _ => false
  }

  /** A report that settles where a child has got to. */
  predicate Settles(input: Input, d: SubId) {
    input == Msg(ReportOper(d, Online)) || input == Msg(ReportOper(d, Offline))
  }

  predicate ByCommand(input: Input) {
    input.Msg? && input.m.ChangeAdmin?
  }

  /** What one step of a subsystem guarantees during a stop. */
  ghost predicate Falls(l: Local, events: multiset<Event>, input: Input, nb: Neighbours, e: Effect, c: ClientId) {
    && Falling(e.l, c) && Draining(e.l, StartCascade.EventsLeft(events, input))
    && Economical(StopRank, l, input, e)
    && Speaks(l, input, nb, e, c)
  }

  /** What it tells its neighbours, and what it makes of what they tell it. */
  ghost predicate Speaks(l: Local, input: Input, nb: Neighbours, e: Effect, c: ClientId) {
    && (forall i | 0 <= i < |e.downs| :: e.downs[i] == Down(AdminOffline, c))
    && (forall i | 0 <= i < |e.ups| :: Rung(e.ups[i]))
    // It leaves Online exactly on a command that finds all its parents going down.
    && (e.l.oper == Online ==> l.oper == Online)
    && (l.oper == Online && e.l.oper != Online ==> nb.ParentsOffline() && IsScheduled(e.l, StoppingProcesses))
    && (l.oper == Online && ByCommand(input) && nb.ParentsOffline() ==> !e.l.clients.Contains(c))
    && (e.l.clients.Contains(c) ==> l.clients.Contains(c))
    && (e.downs != [] ==> l.oper == StoppingProcesses || l.oper == StoppingChildren)
    && (l.oper == StoppingProcesses && e.l.oper != StoppingProcesses ==> Down(AdminOffline, c) in e.downs)
    && (e.l.oper == StoppingProcesses ==> l.oper == Online || l.oper == StoppingProcesses)
    && (l.oper == Offline ==> e.l.oper == Offline)
    // Staying online or offline it answers every command; going offline it says so.
    && (IsLive(e.l, Online) ==> Online in e.ups || (IsLive(l, Online) && !ByCommand(input)))
    && (IsLive(e.l, Offline) ==> Offline in e.ups || (IsLive(l, Offline) && !ByCommand(input)))
    // While it waits for its children it hears them all and forgets none.
    && (IsScheduled(e.l, StoppingChildren) ==> l.oper == StoppingProcesses)
    && (IsLive(e.l, StoppingChildren) ==>
          && l.oper == StoppingChildren
          && Heard(l) <= Heard(e.l)
          && (forall d | Settles(input, d) :: d in Heard(e.l))
          && !(nb.children.Keys <= Heard(e.l)))
  }

  // ---------------------------------------------------------------- each kind of step

  lemma StopAllAsks(l: Local, p: ProcId)
    requires l.AllRunning()
    ensures var r := StopFrom(l, p);
            && r == l.(procs := r.procs, stopRequested := r.stopRequested)
            && r.AllRunning() && (Provided(l) ==> Provided(r))
            && l.stopRequested <= r.stopRequested
            && (forall q | p <= q < |l.procs| :: q in r.stopRequested)
            && (forall q | q in r.stopRequested :: q in l.stopRequested || q < |l.procs|)
    decreases |l.procs| - p
  {
    if p < |l.procs| {
      StopAllAsks(StopProcess(l, p), p + 1);
    }
  }

  lemma DisconnectAllQuiet(l: Local, p: ProcId)
    ensures var r := DisconnectFrom(l, p);
            && r == l.(procs := r.procs, umbilicals := r.umbilicals)
            && (Provided(l) ==> Provided(r))
            && (forall q | 0 <= q < |l.procs| :: r.procs[q].running ==> l.procs[q].running)
            && (forall q | 0 <= q < |l.procs| :: r.procs[q].maybeConnected ==> q < p && l.procs[q].maybeConnected)
    decreases |l.procs| - p
  {
    if p < |l.procs| {
      DisconnectAllQuiet(DisconnectProcess(l, p), p + 1);
    }
  }

  /** A subsystem with one coroutine t is about to run it; e is where it starts. */
  ghost predicate Starts(l: Local, events: multiset<Event>, o: OperState, nb: Neighbours, e: Effect, t: Coro,
                         c: ClientId) {
    && Falling(l, c) && Draining(l, events) && l.oper == o && t == l.coros[0] && c < 64
    && nb.Released({c})
    && e == Effect(l.(coros := []), [], [])
  }

  lemma StoppingProcessesEntryFalls(l: Local, events: multiset<Event>, nb: Neighbours, e: Effect, t: Coro, c: ClientId)
    requires Starts(l, events, StoppingProcesses, nb, e, t, c) && t.Scheduled?
    ensures Falls(l, events, Entry, nb, StoppingProcessesEntry(e, t.client), c)
  {
    if !l.AllStopped() {
      StopAllAsks(e.l, 0);
      var r := StopFrom(e.l, 0);
      StartCascade.IndicesBelow(r.stopRequested, |l.procs|);
      StoppingStays(l, events, nb, r, c);
    }
  }

  lemma StoppingStays(l: Local, events: multiset<Event>, nb: Neighbours, r: Local, c: ClientId)
    requires Falling(l, c) && Draining(l, events) && IsScheduled(l, StoppingProcesses) && l.procs != []
    requires r == l.(coros := [], procs := r.procs, stopRequested := r.stopRequested) && |r.procs| == |l.procs|
    requires r.AllRunning() && Provided(r) && |r.stopRequested| <= |l.procs|
    requires forall q | 0 <= q < |l.procs| :: q in r.stopRequested
    requires forall q | q in r.stopRequested :: q < |l.procs|
    ensures Falls(l, events, Entry, nb,
                  Effect(r, [StoppingProcesses], []).Stay(Serving(StoppingProcesses, c, StoppingChildren)), c)
  {
    assert r.procs[0].running;
  }

  lemma StoppingChildrenEntryFalls(l: Local, events: multiset<Event>, nb: Neighbours, e: Effect, t: Coro, c: ClientId)
    requires Starts(l, events, StoppingChildren, nb, e, t, c) && t.Scheduled?
    ensures Falls(l, events, Entry, nb, StoppingChildrenEntry(e, nb, t.client), c)
  {
  }

  lemma OfflineEntryFalls(l: Local, events: multiset<Event>, nb: Neighbours, e: Effect, t: Coro, c: ClientId)
    requires Starts(l, events, Offline, nb, e, t, c) && t.Scheduled?
    ensures Falls(l, events, Entry, nb, OfflineEntry(e, t.client), c)
  {
    DisconnectAllQuiet(e.l.(numRestarts := 0), 0);
  }

  lemma OnlineMessageFalls(l: Local, events: multiset<Event>, nb: Neighbours, e: Effect, t: Coro, c: ClientId,
                           m: Message)
    requires Starts(l, events, Online, nb, e, t, c) && t.Live? && StopMessage(m, c)
    ensures Falls(l, events, Msg(m), nb, OnlineMessage(e, t, nb, m), c)
  {
  }

  lemma StoppingProcessesMessageFalls(l: Local, events: multiset<Event>, nb: Neighbours, e: Effect, t: Coro,
                                      c: ClientId, m: Message)
    requires Starts(l, events, StoppingProcesses, nb, e, t, c) && t.Live? && StopMessage(m, c)
    ensures Falls(l, events, Msg(m), nb, StoppingProcessesMessage(e, t, m), c)
  {
  }

  lemma StoppingChildrenMessageFalls(l: Local, events: multiset<Event>, nb: Neighbours, e: Effect, t: Coro,
                                     c: ClientId, m: Message)
    requires Starts(l, events, StoppingChildren, nb, e, t, c) && t.Live? && StopMessage(m, c)
    ensures Falls(l, events, Msg(m), nb, StoppingChildrenMessage(e, t, nb, m), c)
  {
  }

  lemma OfflineMessageFalls(l: Local, events: multiset<Event>, nb: Neighbours, e: Effect, t: Coro, c: ClientId,
                            m: Message)
    requires Starts(l, events, Offline, nb, e, t, c) && t.Live? && StopMessage(m, c)
    ensures Falls(l, events, Msg(m), nb, OfflineMessage(e, t, m), c)
  {
  }

  /** Either the last process is down, or the wait goes on with one event less. */
  lemma DoneStopping(l: Local, events: multiset<Event>, nb: Neighbours, c: ClientId, v: Event, l1: Local)
    requires Falling(l, c) && Draining(l, events) && IsLive(l, StoppingProcesses) && v in events
    requires v.StopEvent? && l1 == l.SetRunning(v.proc, false).(coros := []) && l1.AllStopped()
    ensures Falls(l, events, Ev(v), nb, Effect(l1, [], []).Send(AdminOffline, c).Enter(StoppingChildren, c), c)
  {
  }

  lemma GoesOnStopping(l: Local, events: multiset<Event>, nb: Neighbours, c: ClientId, v: Event, l1: Local)
    requires Falling(l, c) && Draining(l, events) && IsLive(l, StoppingProcesses) && v in events
    requires v.StopEvent? && l1 == l.SetRunning(v.proc, false).(coros := []) && !l1.AllStopped()
    ensures Falls(l, events, Ev(v), nb, Effect(l1, [], []).Stay(l.coros[0]), c)
  {
    assert !Effect(l1, [], []).Stay(l.coros[0]).l.AllStopped();
  }

  lemma StoppingProcessesEventFalls(l: Local, events: multiset<Event>, nb: Neighbours, e: Effect, t: Coro,
                                    c: ClientId, v: Event)
    requires Starts(l, events, StoppingProcesses, nb, e, t, c) && t.Live? && v in events
    ensures Falls(l, events, Ev(v), nb, StoppingProcessesEvent(e, t, v), c)
  {
    var l1 := l.SetRunning(v.proc, false).(coros := []);
    assert StoppingProcessesEvent(e, t, v) == StoppingProcessesCheck(Effect(l1, [], []), t);
    if l1.AllStopped() {
      DoneStopping(l, events, nb, c, v, l1);
    } else {
      GoesOnStopping(l, events, nb, c, v, l1);
    }
  }

  lemma StoppingChildrenEventFalls(l: Local, events: multiset<Event>, nb: Neighbours, e: Effect, t: Coro, c: ClientId,
                                   v: Event)
    requires Starts(l, events, StoppingChildren, nb, e, t, c) && t.Live? && v in events
    requires !(nb.children.Keys <= Heard(l))
    ensures Falls(l, events, Ev(v), nb, StoppingChildrenCheck(e, t, nb), c)
  {
  }

  lemma OfflineEventFalls(l: Local, events: multiset<Event>, nb: Neighbours, e: Effect, t: Coro, c: ClientId, v: Event)
    requires Starts(l, events, Offline, nb, e, t, c) && t.Live? && v in events
    ensures Falls(l, events, Ev(v), nb, e.Stay(t), c)
  {
  }

  lemma EntryFalls(l: Local, events: multiset<Event>, nb: Neighbours, c: ClientId, launch: nat)
    requires Falling(l, c) && Draining(l, events) && c < 64 && l.coros[0].Scheduled? && nb.Released({c})
    ensures Falls(l, events, Entry, nb, RunEntry(l, 0, nb, launch), c)
  {
    var e, t := Effect(l.(coros := []), [], []), l.coros[0];
    assert Without(l, 0) == e;
    match l.oper {
      case StoppingProcesses => StoppingProcessesEntryFalls(l, events, nb, e, t, c);
      case StoppingChildren => StoppingChildrenEntryFalls(l, events, nb, e, t, c);
      case Offline => OfflineEntryFalls(l, events, nb, e, t, c);
    }
  }

  lemma MessageFalls(l: Local, events: multiset<Event>, nb: Neighbours, c: ClientId, m: Message)
    requires Falling(l, c) && Draining(l, events) && c < 64 && l.coros[0].Live? && nb.Released({c}) && StopMessage(m, c)
    ensures Falls(l, events, Msg(m), nb, TakeMessage(l, 0, nb, m), c)
  {
    var e, t := Effect(l.(coros := []), [], []), l.coros[0];
    assert Without(l, 0) == e;
    match l.oper {
      case Online => OnlineMessageFalls(l, events, nb, e, t, c, m);
      case StoppingProcesses => StoppingProcessesMessageFalls(l, events, nb, e, t, c, m);
      case StoppingChildren => StoppingChildrenMessageFalls(l, events, nb, e, t, c, m);
      case Offline => OfflineMessageFalls(l, events, nb, e, t, c, m);
    }
  }

  lemma EventFalls(l: Local, events: multiset<Event>, nb: Neighbours, c: ClientId, v: Event)
    requires Falling(l, c) && Draining(l, events) && c < 64 && l.coros[0].Live? && nb.Released({c}) && v in events
    requires IsLive(l, StoppingChildren) ==> !(nb.children.Keys <= Heard(l))
    ensures Falls(l, events, Ev(v), nb, TakeEvent(l, 0, nb, v, false), c)
  {
    var e, t := Effect(l.(coros := []), [], []), l.coros[0];
    assert Without(l, 0) == e;
    match l.oper {
      case StoppingProcesses => StoppingProcessesEventFalls(l, events, nb, e, t, c, v);
      case StoppingChildren => StoppingChildrenEventFalls(l, events, nb, e, t, c, v);
      case Offline => OfflineEventFalls(l, events, nb, e, t, c, v);
    }
  }

  // ---------------------------------------------------------------- what stays up

  /** A subsystem that is held by somebody else answers a stop and stays up; it lets the client go once its parents do. */
  lemma HoldingHears(l: Local, nb: Neighbours, c: ClientId, m: Message)
    requires Holding(l) && c < 64 && StopMessage(m, c)
    requires m.ChangeAdmin? && nb.ParentsOffline() ==> l.clients.members - {c} != {}
    ensures var t := l.coros[0];
      var lets := m.ChangeAdmin? && nb.ParentsOffline();
      var r := TakeMessage(l, 0, nb, m);
      && r.l == l.(coros := [if lets then t.(client := c, next := Online) else t], clients := r.l.clients)
      && r.l.clients.members == (if lets then l.clients.members - {c} else l.clients.members)
      && r.ups == (if m.ChangeAdmin? then [Online] else []) && r.downs == []
  {
    assert Without(l, 0) == Effect(l.(coros := []), [], []);
  }

  lemma HoldingSpeaks(l: Local, nb: Neighbours, c: ClientId, m: Message)
    requires Holding(l) && c < 64 && StopMessage(m, c)
    requires m.ChangeAdmin? && nb.ParentsOffline() ==> l.clients.members - {c} != {}
    ensures var r := TakeMessage(l, 0, nb, m);
      Holding(r.l) && Economical(StopRank, l, Msg(m), r) && Speaks(l, Msg(m), nb, r, c)
  {
    HoldingHears(l, nb, c, m);
  }

  // ---------------------------------------------------------------- the whole system

  /** The stop of r concerns d: d is r, or a parent of d is up. */
  predicate Concerns(t: Topology, w: Config, r: SubId, d: SubId)
    requires |w| == |t|
  {
    d == r || exists p :: d < p < |t| && d in t[p] && w[p] != {}
  }

  /** Who still has d up after client c has stopped r: d lets the client go when no parent is left up. */
  ghost function Left(t: Topology, w: Config, r: SubId, c: ClientId, d: SubId): set<nat>
    requires |w| == |t| && d < |t|
    decreases |t| - d
  {
    if Concerns(t, w, r, d) && forall p | d < p < |t| && d in t[p] :: Left(t, w, r, c, p) == {} then w[d] - {c} else w[d]
  }

  ghost function AfterStop(t: Topology, w: Config, r: SubId, c: ClientId): (w': Config)
    requires |w| == |t|
    ensures |w'| == |t|
  {
    seq(|t|, i requires 0 <= i < |t| => Left(t, w, r, c, i))
  }

  /** A subsystem in a stop: going down or down already, or up to the end. */
  ghost predicate Fine(x: Sub, who: set<nat>, left: set<nat>, c: ClientId) {
    if left != {} then Holding(x.l) && Provided(x.l) && x.events == multiset{} && left <= x.l.clients.members <= who
    else Falling(x.l, c) && Draining(x.l, x.events) && (who == {} ==> x.l.oper == Offline)
  }

  /** A child that has settled while its parent waits has told it, or is about to. */
  ghost predicate WillHear(n: Net, p: SubId, d: SubId)
    requires p < |n| && d < |n|
  {
    n[p].l.oper == StoppingChildren && d !in Heard(n[p].l) && (IsLive(n[d].l, Online) || IsLive(n[d].l, Offline)) ==>
      || ReportOper(d, Online) in n[p].queue || ReportOper(d, Offline) in n[p].queue
      || StartCascade.Commanded(n[d].queue)
  }

  /** A subsystem that nobody above needs any more and that still has the client has been told so, or will be. */
  ghost predicate WillBeTold(t: Topology, n: Net, w: Config, r: SubId, c: ClientId, d: SubId)
    requires |n| == |w| == |t| && d < |n|
  {
    && Concerns(t, w, r, d) && n[d].l.clients.Contains(c)
    && (forall p | 0 <= p < |t| && d in t[p] :: n[p].l.admin == AdminOffline) ==>
      StartCascade.Commanded(n[d].queue) || exists p :: 0 <= p < |t| && d in t[p] && n[p].l.oper == StoppingProcesses
  }

  ghost predicate Inv(t: Topology, n: Net, w: Config, r: SubId, c: ClientId)
    requires Registered(t) && |n| == |w| == |t|
  {
    && (forall i | 0 <= i < |n| :: Fine(n[i], w[i], Left(t, w, r, c, i), c))
    && Told(t, n, w, r, c)
  }

  /** The part of the invariant that relates different subsystems. */
  ghost predicate Told(t: Topology, n: Net, w: Config, r: SubId, c: ClientId)
    requires Registered(t) && |n| == |w| == |t|
  {
    && (forall i, m | 0 <= i < |n| && m in n[i].queue :: StopMessage(m, c))
    && (forall p, d | 0 <= p < |n| && d in t[p] :: WillHear(n, p, d))
    && (forall d | 0 <= d < |n| :: WillBeTold(t, n, w, r, c, d))
    && (forall p | 0 <= p < |n| && IsLive(n[p].l, StoppingChildren) :: !(t[p] <= Heard(n[p].l)))
    && (forall i | 0 <= i < |n| && StartCascade.Commanded(n[i].queue) :: Concerns(t, w, r, i))
  }

  /** The two states agree, and only what was up goes through the states of a stop. */
  ghost predicate Stands(l: Local, who: set<nat>, c: ClientId) {
    && (IsLive(l, l.oper) || IsScheduled(l, l.oper))
    && l.admin == (if l.oper == Online then AdminOnline else AdminOffline)
    && (who == {} ==> l.oper == Offline)
    && (l.clients.Contains(c) ==> l.oper == Online)
  }

  /** Subsystem s has made one stop step from n to n'. */
  ghost predicate Moves(t: Topology, n: Net, n': Net, s: SubId, input: Input, e: Effect, w: Config, r: SubId,
                        c: ClientId)
    requires Registered(t) && |n| == |w| == |t| && s < |t|
  {
    && |n'| == |n| && Told(t, n, w, r, c)
    && Stands(n[s].l, w[s], c) && Stands(e.l, w[s], c) && Speaks(n[s].l, input, View(t, n, s), e, c)
    && Consumes(n[s], input, n'[s].queue, n'[s].events) && n'[s].l == e.l
    && forall i | 0 <= i < |n| && i != s :: n'[i] == Received(t, n[i], i, s, e)
  }

  lemma WillHearKept(t: Topology, n: Net, n': Net, s: SubId, input: Input, e: Effect, w: Config, r: SubId, c: ClientId,
                     p: SubId, d: SubId)
    requires Registered(t) && |n| == |w| == |t| && s < |t| && Moves(t, n, n', s, input, e, w, r, c)
    requires p < |t| && d in t[p]
    ensures WillHear(n', p, d)
  {
    assert WillHear(n, p, d);
    StartCascade.QueueLeft(n[s], input, n'[s].queue, n'[s].events);
    if p != s { StartCascade.Arrivals(t, n, n', s, p, e); }
    if d != s { StartCascade.Arrivals(t, n, n', s, d, e); }
    if n'[p].l.oper == StoppingChildren && d !in Heard(n'[p].l) && (IsLive(n'[d].l, Online) || IsLive(n'[d].l, Offline)) {
      if p == s && n[s].l.oper == StoppingProcesses {
        StartCascade.CommandedBy(n'[d].queue, ChangeAdmin(AdminOffline, c));
      } else if d != s && StartCascade.Commanded(n[d].queue) {
        StartCascade.CommandedKept(n[d].queue, n'[d].queue);
      }
    }
  }

  lemma WillBeToldKept(t: Topology, n: Net, n': Net, s: SubId, input: Input, e: Effect, w: Config, r: SubId,
                       c: ClientId,
                       d: SubId)
    requires Registered(t) && |n| == |w| == |t| && s < |t| && Moves(t, n, n', s, input, e, w, r, c)
    requires d < |t|
    ensures WillBeTold(t, n', w, r, c, d)
  {
    var nb := View(t, n, s);
    assert WillBeTold(t, n, w, r, c, d);
    StartCascade.QueueLeft(n[s], input, n'[s].queue, n'[s].events);
    forall i | 0 <= i < |t| && i != s ensures n'[i].l == n[i].l {
      StartCascade.Arrivals(t, n, n', s, i, e);
    }
    if d != s { StartCascade.Arrivals(t, n, n', s, d, e); }
    if && Concerns(t, w, r, d) && n'[d].l.clients.Contains(c)
       && forall p | 0 <= p < |t| && d in t[p] :: n'[p].l.admin == AdminOffline {
      if s < |t| && d in t[s] && n[s].l.admin == AdminOnline {
        assert n'[s].l.oper == StoppingProcesses;
      } else {
        assert forall p | 0 <= p < |t| && d in t[p] :: n[p].l.admin == AdminOffline;
        if StartCascade.Commanded(n[d].queue) {
          if d == s {
            ParentsSeenOffline(t, n, s);
          } else {
            StartCascade.CommandedKept(n[d].queue, n'[d].queue);
          }
        } else {
          var p :| 0 <= p < |t| && d in t[p] && n[p].l.oper == StoppingProcesses;
          if p == s && n'[s].l.oper != StoppingProcesses {
            StartCascade.CommandedBy(n'[d].queue, ChangeAdmin(AdminOffline, c));
          }
        }
      }
    }
  }

  lemma ParentsSeenOffline(t: Topology, n: Net, s: SubId)
    requires Registered(t) && |n| == |t| && s < |t|
    requires forall p | 0 <= p < |t| && s in t[p] :: n[p].l.admin == AdminOffline
    ensures View(t, n, s).ParentsOffline()
  {
    var nb := View(t, n, s);
    forall p | p in nb.parents ensures nb.parents[p].admin == AdminOffline {
      assert nb.parents[p] == GlimpseOf(n[p]);
    }
  }

  lemma ConcernsKept(t: Topology, n: Net, n': Net, s: SubId, input: Input, e: Effect, w: Config, r: SubId, c: ClientId,
                     i: SubId)
    requires Registered(t) && |n| == |w| == |t| && s < |t| && Moves(t, n, n', s, input, e, w, r, c)
    requires i < |t| && StartCascade.Commanded(n'[i].queue)
    ensures Concerns(t, w, r, i)
  {
    StartCascade.QueueLeft(n[s], input, n'[s].queue, n'[s].events);
    if i != s && !StartCascade.Commanded(n[i].queue) {
      StartCascade.Arrivals(t, n, n', s, i, e);
      var j :| 0 <= j < |n'[i].queue| && n'[i].queue[j].ChangeAdmin?;
      if n'[i].queue[j] in n[i].queue { StartCascade.CommandedBy(n[i].queue, n'[i].queue[j]); }
      assert i in t[s] && i < s && w[s] != {};
    }
  }

  lemma ToldKept(t: Topology, n: Net, n': Net, s: SubId, input: Input, e: Effect, w: Config, r: SubId, c: ClientId)
    requires Registered(t) && |n| == |w| == |t| && s < |t| && Moves(t, n, n', s, input, e, w, r, c)
    ensures Told(t, n', w, r, c)
  {
    StartCascade.QueueLeft(n[s], input, n'[s].queue, n'[s].events);
    forall i, m | 0 <= i < |n'| && m in n'[i].queue ensures StopMessage(m, c) {
      if i != s { StartCascade.Arrivals(t, n, n', s, i, e); }
    }
    forall p, d | 0 <= p < |n'| && d in t[p] ensures WillHear(n', p, d) {
      WillHearKept(t, n, n', s, input, e, w, r, c, p, d);
    }
    forall d | 0 <= d < |n'| ensures WillBeTold(t, n', w, r, c, d) {
      WillBeToldKept(t, n, n', s, input, e, w, r, c, d);
    }
    forall p | 0 <= p < |n'| && IsLive(n'[p].l, StoppingChildren) ensures !(t[p] <= Heard(n'[p].l)) {
      if p != s {
        StartCascade.Arrivals(t, n, n', s, p, e);
      } else {
        assert View(t, n, s).children.Keys == t[s];
      }
    }
    forall i | 0 <= i < |n'| && StartCascade.Commanded(n'[i].queue) ensures Concerns(t, w, r, i) {
      ConcernsKept(t, n, n', s, input, e, w, r, c, i);
    }
  }

  /** What one step of a subsystem comes to, whether it stays up or goes down. */
  ghost predicate Serves(x: Sub, who: set<nat>, left: set<nat>, input: Input, nb: Neighbours, e: Effect, c: ClientId) {
    && Fine(Sub(e.l, [], StartCascade.EventsLeft(x.events, input)), who, left, c)
    && Economical(StopRank, x.l, input, e) && Speaks(x.l, input, nb, e, c)
    && Stands(x.l, who, c) && Stands(e.l, who, c)
  }

  lemma FallsServes(x: Sub, who: set<nat>, input: Input, nb: Neighbours, e: Effect, c: ClientId)
    requires Fine(x, who, {}, c) && Falls(x.l, x.events, input, nb, e, c)
    ensures Serves(x, who, {}, input, nb, e, c)
  {
  }

  lemma LocalKept(t: Topology, n: Net, n': Net, s: SubId, input: Input, e: Effect, w: Config, r: SubId, c: ClientId)
    requires Registered(t) && |n| == |n'| == |w| == |t| && s < |t| && Inv(t, n, w, r, c)
    requires Serves(n[s], w[s], Left(t, w, r, c, s), input, View(t, n, s), e, c)
    requires Consumes(n[s], input, n'[s].queue, n'[s].events) && n'[s].l == e.l
    requires forall i | 0 <= i < |n| && i != s :: n'[i].l == n[i].l && n'[i].events == n[i].events
    ensures forall i | 0 <= i < |n'| :: Fine(n'[i], w[i], Left(t, w, r, c, i), c)
  {
    StartCascade.QueueLeft(n[s], input, n'[s].queue, n'[s].events);
    forall i | 0 <= i < |n'| ensures Fine(n'[i], w[i], Left(t, w, r, c, i), c) {
      assert Fine(n[i], w[i], Left(t, w, r, c, i), c);
    }
  }

  lemma DeliverKeeps(t: Topology, n: Net, s: SubId, input: Input, e: Effect, queue: seq<Message>,
                     events: multiset<Event>, w: Config, r: SubId, c: ClientId)
    requires Registered(t) && |n| == |w| == |t| && s < |t| && Inv(t, n, w, r, c)
    requires Serves(n[s], w[s], Left(t, w, r, c, s), input, View(t, n, s), e, c) && Consumes(n[s], input, queue, events)
    ensures var n' := Deliver(t, n, s, e, queue, events);
            Inv(t, n', w, r, c) && Total(t, n', |t|, StopRank) < Total(t, n, |t|, StopRank)
  {
    var n' := Deliver(t, n, s, e, queue, events);
    LocalKept(t, n, n', s, input, e, w, r, c);
    ToldKept(t, n, n', s, input, e, w, r, c);
    CoroutineLowers(t, n, s, input, e, queue, events, StopRank);
  }

  /** The actions of a run in which every process stops when asked and nobody interferes. */
  predicate StopAction(n: Net, a: Action)
    requires Enabled(n, a)
  {
    match a
    case DoEntry(_, _, _) => true
    case DoMessage(_, _) => true
    case DoEvent(_, _, _, aborting) => !aborting
    case ProcStops(_, _) => true
    case _ => false
  }

  /** Nobody is waited for who does not stay up for good: whoever is admin Offline has let the client go. */
  lemma ViewReleased(t: Topology, n: Net, s: SubId, w: Config, r: SubId, c: ClientId)
    requires Registered(t) && |n| == |w| == |t| && s < |t| && Inv(t, n, w, r, c)
    ensures View(t, n, s).Released({c})
  {
    var nb := View(t, n, s);
    forall d | d in nb.children ensures nb.children[d].admin == AdminOnline || !nb.children[d].clients.Contains(c) {
      assert Fine(n[d], w[d], Left(t, w, r, c, d), c);
      assert nb.children[d] == GlimpseOf(n[d]);
    }
  }

  lemma DoEntryFalls(t: Topology, n: Net, a: Action, c: ClientId)
    requires Registered(t) && |n| == |t| && c < 64 && Enabled(n, a) && a.DoEntry?
    requires Falling(n[a.s].l, c) && Draining(n[a.s].l, n[a.s].events) && View(t, n, a.s).Released({c})
    ensures Falls(n[a.s].l, n[a.s].events, Entry, View(t, n, a.s), EffectOf(t, n, a), c)
  {
    EntryFalls(n[a.s].l, n[a.s].events, View(t, n, a.s), c, a.launch);
  }

  lemma DoMessageFalls(t: Topology, n: Net, a: Action, c: ClientId)
    requires Registered(t) && |n| == |t| && c < 64 && Enabled(n, a) && a.DoMessage?
    requires Falling(n[a.s].l, c) && Draining(n[a.s].l, n[a.s].events) && View(t, n, a.s).Released({c})
    requires StopMessage(n[a.s].queue[0], c)
    ensures Falls(n[a.s].l, n[a.s].events, Msg(n[a.s].queue[0]), View(t, n, a.s), EffectOf(t, n, a), c)
  {
    MessageFalls(n[a.s].l, n[a.s].events, View(t, n, a.s), c, n[a.s].queue[0]);
  }

  lemma DoEventFalls(t: Topology, n: Net, a: Action, c: ClientId)
    requires Registered(t) && |n| == |t| && c < 64 && Enabled(n, a) && a.DoEvent? && !a.aborting
    requires Falling(n[a.s].l, c) && Draining(n[a.s].l, n[a.s].events) && View(t, n, a.s).Released({c})
    requires IsLive(n[a.s].l, StoppingChildren) ==> !(t[a.s] <= Heard(n[a.s].l))
    ensures Falls(n[a.s].l, n[a.s].events, Ev(a.v), View(t, n, a.s), EffectOf(t, n, a), c)
  {
    assert View(t, n, a.s).children.Keys == t[a.s];
    EventFalls(n[a.s].l, n[a.s].events, View(t, n, a.s), c, a.v);
  }

  lemma CoroutineFalls(t: Topology, n: Net, a: Action, c: ClientId)
    requires Registered(t) && |n| == |t| && c < 64 && Enabled(n, a) && StopAction(n, a) && ByCoroutine(a)
    requires Falling(n[a.s].l, c) && Draining(n[a.s].l, n[a.s].events) && View(t, n, a.s).Released({c})
    requires a.DoMessage? ==> StopMessage(n[a.s].queue[0], c)
    requires IsLive(n[a.s].l, StoppingChildren) ==> !(t[a.s] <= Heard(n[a.s].l))
    ensures Falls(n[a.s].l, n[a.s].events, StartCascade.InputOf(n, a), View(t, n, a.s), EffectOf(t, n, a), c)
  {
    if a.DoEntry? {
      DoEntryFalls(t, n, a, c);
    } else if a.DoMessage? {
      DoMessageFalls(t, n, a, c);
    } else {
      DoEventFalls(t, n, a, c);
    }
  }

  lemma HeldServes(x: Sub, who: set<nat>, left: set<nat>, nb: Neighbours, c: ClientId, m: Message)
    requires Fine(x, who, left, c) && left != {} && who != {} && c < 64 && StopMessage(m, c)
    requires m.ChangeAdmin? && nb.ParentsOffline() ==> left == who - {c}
    ensures Serves(x, who, left, Msg(m), nb, TakeMessage(x.l, 0, nb, m), c)
  {
    HoldingHears(x.l, nb, c, m);
    HoldingSpeaks(x.l, nb, c, m);
  }

  /** What stays up can only take a message, and never loses all its clients by it. */
  lemma HoldingServes(t: Topology, n: Net, a: Action, w: Config, r: SubId, c: ClientId)
    requires Registered(t) && |n| == |w| == |t| && c < 64 && Inv(t, n, w, r, c)
    requires Enabled(n, a) && StopAction(n, a) && ByCoroutine(a) && Left(t, w, r, c, a.s) != {}
    ensures Serves(n[a.s], w[a.s], Left(t, w, r, c, a.s), StartCascade.InputOf(n, a), View(t, n, a.s), EffectOf(t, n, a), c)
  {
    assert Fine(n[a.s], w[a.s], Left(t, w, r, c, a.s), c);
    assert a.DoMessage? && a.k == 0;
    var m := n[a.s].queue[0];
    if m.ChangeAdmin? && View(t, n, a.s).ParentsOffline() {
      StartCascade.CommandedBy(n[a.s].queue, m);
      NobodyAbove(t, n, w, r, c, a.s);
    }
    HeldServes(n[a.s], w[a.s], Left(t, w, r, c, a.s), View(t, n, a.s), c, m);
  }

  /** No parent that stays up is admin Offline. */
  lemma NobodyAbove(t: Topology, n: Net, w: Config, r: SubId, c: ClientId, s: SubId)
    requires Registered(t) && |n| == |w| == |t| && s < |t| && Inv(t, n, w, r, c) && View(t, n, s).ParentsOffline()
    ensures forall p | s < p < |t| && s in t[p] :: Left(t, w, r, c, p) == {}
  {
    var nb := View(t, n, s);
    forall p | s < p < |t| && s in t[p] ensures Left(t, w, r, c, p) == {} {
      assert p in nb.parents && nb.parents[p] == GlimpseOf(n[p]);
      assert Fine(n[p], w[p], Left(t, w, r, c, p), c);
    }
  }

  lemma CoroutineServes(t: Topology, n: Net, a: Action, w: Config, r: SubId, c: ClientId)
    requires Registered(t) && |n| == |w| == |t| && c < 64 && Inv(t, n, w, r, c)
    requires Enabled(n, a) && StopAction(n, a) && ByCoroutine(a)
    ensures Serves(n[a.s], w[a.s], Left(t, w, r, c, a.s), StartCascade.InputOf(n, a), View(t, n, a.s), EffectOf(t, n, a), c)
  {
    assert Fine(n[a.s], w[a.s], Left(t, w, r, c, a.s), c);
    if Left(t, w, r, c, a.s) == {} {
      ViewReleased(t, n, a.s, w, r, c);
      CoroutineFalls(t, n, a, c);
      FallsServes(n[a.s], w[a.s], StartCascade.InputOf(n, a), View(t, n, a.s), EffectOf(t, n, a), c);
    } else {
      HoldingServes(t, n, a, w, r, c);
    }
  }

  lemma SameTold(t: Topology, n: Net, n': Net, w: Config, r: SubId, c: ClientId)
    requires Registered(t) && |n| == |n'| == |w| == |t| && Told(t, n, w, r, c)
    requires forall i | 0 <= i < |n| ::
        && n'[i].queue == n[i].queue && n'[i].l.oper == n[i].l.oper
        && n'[i].l.coros == n[i].l.coros && n'[i].l.admin == n[i].l.admin && n'[i].l.clients == n[i].l.clients
    ensures Told(t, n', w, r, c)
  {
    forall p, d | 0 <= p < |n'| && d in t[p] ensures WillHear(n', p, d) {
      assert WillHear(n, p, d);
    }
    forall d | 0 <= d < |n'| ensures WillBeTold(t, n', w, r, c, d) {
      assert WillBeTold(t, n, w, r, c, d);
    }
  }

  lemma ProcStopsDraining(x: Sub, p: ProcId, c: ClientId)
    requires Falling(x.l, c) && Draining(x.l, x.events) && p in x.l.stopRequested
    ensures var y := Surround(x, ProcStops(0, p));
            Draining(y.l, y.events) && StopRank(y.l) == StopRank(x.l)
  {
    var y := Surround(x, ProcStops(0, p));
    assert StopEvent(p) in y.events;
    assert y.l == x.l.(stopRequested := x.l.stopRequested - {p});
  }

  /** Every step of a stop keeps the invariant and lowers the measure. */
  lemma StopStep(t: Topology, n: Net, a: Action, w: Config, r: SubId, c: ClientId)
    requires Registered(t) && |n| == |w| == |t| && c < 64 && Inv(t, n, w, r, c)
    requires Enabled(n, a) && StopAction(n, a)
    ensures Inv(t, Apply(t, n, a), w, r, c)
    ensures Total(t, Apply(t, n, a), |t|, StopRank) < Total(t, n, |t|, StopRank)
  {
    var x := n[a.s];
    if ByCoroutine(a) {
      CoroutineServes(t, n, a, w, r, c);
      DeliverKeeps(t, n, a.s, StartCascade.InputOf(n, a), EffectOf(t, n, a),
        if a.DoMessage? then x.queue[1..] else x.queue,
        if a.DoEvent? then x.events - multiset{a.v} else x.events, w, r, c);
    } else {
      assert Fine(x, w[a.s], Left(t, w, r, c, a.s), c);
      ProcStopsDraining(x, a.p, c);
      AnswerOwed(x, a);
      AnswerLowers(t, n, a.s, Surround(x, a), StopRank);
      AnswerKeeps(t, n, a.s, Surround(x, a), w, r, c);
    }
  }

  lemma AnswerKeeps(t: Topology, n: Net, s: SubId, y: Sub, w: Config, r: SubId, c: ClientId)
    requires Registered(t) && |n| == |w| == |t| && s < |t| && Inv(t, n, w, r, c)
    requires y.queue == n[s].queue && Fine(y, w[s], Left(t, w, r, c, s), c)
    requires y.l.oper == n[s].l.oper && y.l.coros == n[s].l.coros && y.l.admin == n[s].l.admin
    requires y.l.clients == n[s].l.clients
    ensures Inv(t, n[s := y], w, r, c)
  {
    forall i | 0 <= i < |n| ensures Fine(n[s := y][i], w[i], Left(t, w, r, c, i), c) {
      assert Fine(n[i], w[i], Left(t, w, r, c, i), c);
    }
    SameTold(t, n, n[s := y], w, r, c);
  }

  // ---------------------------------------------------------------- where a stop ends

  /** No action of the stop is possible any more. */
  ghost predicate Stuck(n: Net) {
    forall a | Enabled(n, a) :: !StopAction(n, a)
  }

  lemma StuckIsQuiet(t: Topology, n: Net, w: Config, r: SubId, c: ClientId, i: SubId)
    requires Registered(t) && |n| == |w| == |t| && i < |t| && Inv(t, n, w, r, c) && Stuck(n)
    ensures IsLive(n[i].l, n[i].l.oper) && n[i].queue == [] && n[i].l.oper != StoppingProcesses
    ensures n[i].events == multiset{} && n[i].l.stopRequested == {}
  {
    var x := n[i];
    assert Fine(x, w[i], Left(t, w, r, c, i), c);
    assert !Enabled(n, DoEntry(i, 0, 0));
    assert !Enabled(n, DoMessage(i, 0));
    forall v ensures v !in x.events {
      assert !Enabled(n, DoEvent(i, 0, v, false));
    }
    forall p ensures p !in x.l.stopRequested {
      assert !Enabled(n, ProcStops(i, p));
    }
    assert x.l.oper == StoppingProcesses ==> x.l.AllStopped();
  }

  /** Everybody has let the client go whom the stop concerns and nobody above holds. */
  lemma {:induction false} LetsGo(t: Topology, n: Net, w: Config, r: SubId, c: ClientId, d: SubId)
    requires Registered(t) && |n| == |w| == |t| && d < |t| && Inv(t, n, w, r, c) && Stuck(n)
    ensures Left(t, w, r, c, d) == {} ==> n[d].l.oper != Online
    ensures Left(t, w, r, c, d) != {} ==> n[d].l.clients.members == Left(t, w, r, c, d)
    decreases |t| - d
  {
    StuckIsQuiet(t, n, w, r, c, d);
    assert Fine(n[d], w[d], Left(t, w, r, c, d), c);
    if Concerns(t, w, r, d) && forall p | d < p < |t| && d in t[p] :: Left(t, w, r, c, p) == {} {
      forall p | 0 <= p < |t| && d in t[p] ensures n[p].l.admin == AdminOffline && n[p].l.oper != StoppingProcesses {
        LetsGo(t, n, w, r, c, p);
        StuckIsQuiet(t, n, w, r, c, p);
        assert Fine(n[p], w[p], Left(t, w, r, c, p), c);
      }
      assert WillBeTold(t, n, w, r, c, d);
    }
  }

  /** The lowest subsystem waiting for its children would have heard them. */
  lemma {:induction false} NobodyWaits(t: Topology, n: Net, w: Config, r: SubId, c: ClientId, i: SubId)
    requires Registered(t) && |n| == |w| == |t| && i < |t| && Inv(t, n, w, r, c) && Stuck(n)
    ensures if Left(t, w, r, c, i) == {} then IsLive(n[i].l, Offline) && n[i].l.oper == Offline
            else IsLive(n[i].l, Online) && n[i].l.oper == Online
    decreases i
  {
    StuckIsQuiet(t, n, w, r, c, i);
    LetsGo(t, n, w, r, c, i);
    assert Fine(n[i], w[i], Left(t, w, r, c, i), c);
    forall d | d in t[i] && n[i].l.oper == StoppingChildren ensures d in Heard(n[i].l) {
      NobodyWaits(t, n, w, r, c, d);
      StuckIsQuiet(t, n, w, r, c, d);
      assert WillHear(n, i, d);
    }
  }

  /** At rest, but for umbilicals that somebody else may have left open. */
  predicate Calm(x: Sub, who: set<nat>) {
    && (if who == {} then
          && IsLive(x.l, Offline) && x.l.oper == Offline && x.l.admin == AdminOffline && x.l.coros[0].next == Offline
          && x.l.AllStopped() && Released(x.l)
          && x.l.connectors == {} && x.l.launched == {} && x.l.stopRequested == {}
        else Holding(x.l))
    && x.l.clients.members == who && Provided(x.l)
    && x.queue == [] && x.events == multiset{}
  }

  predicate AllCalm(n: Net, w: Config) {
    |n| == |w| && forall i | 0 <= i < |n| :: Calm(n[i], w[i])
  }

  /** With exact counts the umbilicals of what is down are closed, and nobody refers to them. */
  lemma CalmIsResting(n: Net, w: Config)
    requires AllCalm(n, w) && ReferenceCounts.AllAccounted(n)
    ensures AllResting(n, w)
    ensures forall i, k | 0 <= i < |n| && w[i] == {} && k in n[i].l.umbilicals ::
      n[i].l.umbilicals[k].dynamicRefs == 0 && n[i].l.umbilicals[k].state == LinkClosed
  {
    forall i, k | 0 <= i < |n| && w[i] == {} && k in n[i].l.umbilicals
      ensures n[i].l.umbilicals[k].dynamicRefs == 0 && n[i].l.umbilicals[k].state == LinkClosed
    {
      assert Calm(n[i], w[i]) && ReferenceCounts.Accounted(n[i].l);
      ReferenceCounts.NobodyConnected(n[i].l.procs, k);
    }
    forall i | 0 <= i < |n| ensures Resting(n[i], w[i]) {
      assert Calm(n[i], w[i]);
    }
  }

  /** All at rest, with the one command of the client to r on its way. */
  ghost predicate StopState(t: Topology, n: Net, w: Config, r: SubId, c: ClientId) {
    && |n| == |w| == |t| && r < |t| && n[r].queue == [ChangeAdmin(AdminOffline, c)]
    && AllResting(n[r := n[r].(queue := [])], w)
  }

  lemma StopStateInv(t: Topology, n: Net, w: Config, r: SubId, c: ClientId)
    requires Registered(t) && StopState(t, n, w, r, c)
    ensures Inv(t, n, w, r, c)
  {
    var m := n[r := n[r].(queue := [])];
    forall i | 0 <= i < |n|
      ensures Fine(n[i], w[i], Left(t, w, r, c, i), c) && IsLive(n[i].l, n[i].l.oper)
      ensures n[i].l.oper == (if w[i] == {} then Offline else Online) && n[i].l.clients.members == w[i]
      ensures n[i].l.admin == (if w[i] == {} then AdminOffline else AdminOnline) && (i != r ==> n[i].queue == [])
    {
      assert Resting(m[i], w[i]);
      assert n[i].l == m[i].l && n[i].events == m[i].events;
      RestingFine(t, n[i], w, r, c, i);
    }
    forall d | 0 <= d < |n| ensures WillBeTold(t, n, w, r, c, d) {
      if d == r {
        StartCascade.CommandedBy(n[r].queue, ChangeAdmin(AdminOffline, c));
      }
    }
  }

  lemma RestingFine(t: Topology, x: Sub, w: Config, r: SubId, c: ClientId, i: SubId)
    requires |w| == |t| && i < |t| && Resting(x.(queue := []), w[i])
    ensures Fine(x, w[i], Left(t, w, r, c, i), c)
  {
    var left := Left(t, w, r, c, i);
    assert left == w[i] || left == w[i] - {c};
    if left == {} && w[i] != {} {
      assert w[i] == {c};
    }
  }

  ghost predicate Holds(t: Topology, n: Net, w: Config, r: SubId, c: ClientId)
    requires Registered(t)
  {
    |n| == |w| == |t| && Inv(t, n, w, r, c)
  }

  function Size(t: Topology, n: Net): int {
    if |n| == |t| then Total(t, n, |t|, StopRank) else 0
  }

  lemma StopKeepsLower(t: Topology, n: Net, a: Action, n': Net, w: Config, r: SubId, c: ClientId)
    requires Registered(t) && Holds(t, n, w, r, c) && c < 64
    requires Enabled(n, a) && StopAction(n, a) && n' == Apply(t, n, a)
    ensures Holds(t, n', w, r, c) && Size(t, n') < Size(t, n)
  {
    StopStep(t, n, a, w, r, c);
  }

  /**
   The stop cascade terminates and drains: a run is never longer than the measure of its first state,
   and when nothing more can happen exactly what somebody still holds is up, and the rest is down.
   */
  lemma StopEnds(t: Topology, ns: seq<Net>, acts: seq<Action>, w: Config, r: SubId, c: ClientId)
    requires Registered(t) && Run(t, ns, acts) && StopState(t, ns[0], w, r, c) && c < 64
    requires forall k | 0 <= k < |acts| :: StopAction(ns[k], acts[k])
    ensures |acts| <= Total(t, ns[0], |t|, StopRank)
    ensures Stuck(ns[|acts|]) ==> AllCalm(ns[|acts|], AfterStop(t, w, r, c))
    ensures Stuck(ns[|acts|]) && ReferenceCounts.AllAccounted(ns[0]) ==> AllResting(ns[|acts|], AfterStop(t, w, r, c))
  {
    StopStateInv(t, ns[0], w, r, c);
    var good := iset n: Net | Holds(t, n, w, r, c);
    forall k {:trigger ns[k]} | 0 <= k < |acts|
      ensures ns[k] in good ==> ns[k+1] in good && Size(t, ns[k+1]) < Size(t, ns[k])
    {
      assert StopAction(ns[k], acts[k]);
      if ns[k] in good {
        StopKeepsLower(t, ns[k], acts[k], ns[k+1], w, r, c);
      }
    }
    Descends(ns, |acts|, good, n => Size(t, n));
    if Stuck(ns[|acts|]) {
      StuckIsDown(t, ns[|acts|], w, r, c);
      if ReferenceCounts.AllAccounted(ns[0]) {
        ReferenceCounts.ReferencesAlwaysExact(t, ns, acts, |acts|);
        CalmIsResting(ns[|acts|], AfterStop(t, w, r, c));
      }
    }
  }

  /** Nobody is left waiting, whoever shares what with whom. */
  lemma StuckIsDown(t: Topology, n: Net, w: Config, r: SubId, c: ClientId)
    requires Registered(t) && |n| == |w| == |t| && Inv(t, n, w, r, c) && Stuck(n)
    ensures AllCalm(n, AfterStop(t, w, r, c))
  {
    forall i | 0 <= i < |t| ensures Calm(n[i], AfterStop(t, w, r, c)[i]) {
      assert AfterStop(t, w, r, c)[i] == Left(t, w, r, c, i);
      NobodyWaits(t, n, w, r, c, i);
      LetsGo(t, n, w, r, c, i);
      StuckIsQuiet(t, n, w, r, c, i);
      assert Fine(n[i], w[i], Left(t, w, r, c, i), c);
    }
  }
}
