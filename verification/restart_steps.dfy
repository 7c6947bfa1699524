/**
 * The steps of a subsystem that restarts after the crash of one of its processes.  It sinks until nothing
 * of it runs; then it starts over, by itself when it has no parents and otherwise when a parent says so,
 * tells its children to start, and comes up once each of them is Online.
 */
module RestartSteps {
  import opened States
  import opened ClientBits
  import opened Umbilicals
  import opened SubsystemModel
  import opened Network
  import opened CascadeMeasure
  import opened Configs
  import opened Alone
  import StartCascade
  import Lone = LoneRestart
  import RestartLaws
  import CrashOutcomes
  import Conversations
  import Entries
  import StrayEvents

  // ---------------------------------------------------------------- what a step does for the others

  predicate IsScheduled(l: Local, o: OperState) {
    StartCascade.IsScheduled(l, o)
  }

  /** It waits for its children to come up. */
  predicate Awaits(l: Local) {
    IsLive(l, StartingChildren)
  }

  /** Nothing of it runs any more, and it waits for a parent to say go. */
  predicate Rests(l: Local) {
    IsLive(l, Restarting) && l.oper == Restarting && l.AllStopped()
  }

  /** The children it has heard of. */
  function Noted(l: Local): set<SubId> {
    if Awaits(l) then l.coros[0].notified else {}
  }

  function HeardNow(input: Input): set<SubId> {
    if input.Msg? && input.m.ReportOper? && input.m.oper == Online then {input.m.sender} else {}
  }

  /** States still ahead until nothing of it runs. */
  function DownRank(l: Local): nat {
    if IsLive(l, Online) then 10
    else if |l.coros| == 1 && l.coros[0].RestartWait? then 8
    else if IsScheduled(l, Restarting) then 6
    else if IsLive(l, Restarting) && !l.AllStopped() then 4
    else if IsLive(l, Restarting) then 2
    else 0
  }

  /** States still ahead until it is Online again. */
  function UpRank(l: Local): nat {
    if IsScheduled(l, Restarting) then 16
    else if IsLive(l, Restarting) then 14
    else if IsScheduled(l, StartingChildren) then 12
    else if IsLive(l, StartingChildren) then 11
    else if IsScheduled(l, Connecting) then 10
    else if IsLive(l, Connecting) then 8
    else if IsScheduled(l, StartingProcesses) then 6
    else if IsLive(l, StartingProcesses) then 4
    else if IsScheduled(l, Online) then 2
    else 0
  }

  /** One coroutine, serving client c, for the same clients as before. */
  predicate Keeps(l: Local, e: Effect, c: ClientId) {
    |e.l.coros| == 1 && e.l.coros[0].client == c && e.l.clients == l.clients && e.l.admin == l.admin
  }

  /** A step on the way down: nobody is told anything before nothing runs, and then the parents. */
  ghost predicate Sinks(l: Local, input: Input, e: Effect, c: ClientId) {
    && Keeps(l, e, c) && e.downs == [] && e.ups == (if Rests(e.l) then [Restarting] else [])
    && e.l.oper == (if e.l.coros[0].RestartWait? then Online else Restarting)
    && !Rests(l) && Economical(DownRank, l, input, e)
  }

  /** It starts over: the children are told to start. */
  ghost predicate StartsOver(l: Local, input: Input, e: Effect, c: ClientId) {
    && Keeps(l, e, c) && e.downs == [Down(AdminOnline, c)] && e.ups == []
    && IsScheduled(e.l, StartingChildren) && e.l.oper == StartingChildren && Economical(UpRank, l, input, e)
  }

  /** The states of the way up. */
  predicate Rising(l: Local) {
    || Rests(l) || l.oper == StartingChildren || l.oper == Connecting || l.oper == StartingProcesses || l.oper == Online
  }

  /** What a subsystem reports on the way up. */
  predicate OnTheWay(o: OperState) {
    o == Restarting || o == StartingChildren || o == Connecting || o == StartingProcesses || o == Online
  }

  /** What may be read on the way up. */
  predicate Hearable(l: Local, m: Message) {
    match m
    case ReportOper(_, o) => OnTheWay(o) && (o == Restarting ==> l.oper == Restarting || l.oper == StartingChildren)
    case ChangeAdmin(admin, _) => admin == AdminOnline && Rests(l)
    case _ => false
  }

  /** A step on the way up. */
  ghost predicate Comes(l: Local, input: Input, children: set<SubId>, e: Effect, c: ClientId) {
    && Keeps(l, e, c) && Economical(UpRank, l, input, e)
    && (e.downs == [] || e.downs == [Down(AdminOnline, c)])
    // It rests until it is told to start, and says so whenever it hears anything else.
    && Rising(e.l) && (Rests(e.l) ==> Rests(l) && e.downs == [])
    && (Rests(l) && !Rests(e.l) ==> e.downs == [Down(AdminOnline, c)] && e.l.oper == StartingChildren)
    && (Rests(l) ==> (Rests(e.l) <==> !(input.Msg? && input.m.ChangeAdmin?)))
    && (forall u | u in e.ups :: OnTheWay(u) && (u == Restarting ==> Rests(e.l)))
    // Once online it stays, and says so on arrival.
    && (Online in e.ups ==> e.l.oper == Online)
    && (l.oper == Online ==> e.l.oper == Online)
    && (IsLive(e.l, Online) ==> IsLive(l, Online) || Online in e.ups)
    // While it waits for its children it hears them all and forgets none.
    && (e.l.oper == StartingChildren ==> Rests(l) || l.oper == StartingChildren)
    && (e.l.oper == StartingChildren ==> Awaits(e.l) || IsScheduled(e.l, StartingChildren))
    && (IsScheduled(e.l, StartingChildren) ==> Rests(l))
    && (Awaits(e.l) ==>
          && l.oper == StartingChildren && Noted(e.l) == Noted(l) + HeardNow(input)
          && !(children <= Noted(e.l)))
    && (l.oper == StartingChildren && e.l.oper != StartingChildren ==> children <= Noted(l) + HeardNow(input))
  }

  // ---------------------------------------------------------------- steps

  /** What is left of a subsystem once it has run. */
  function After(x: Sub, nb: Neighbours, a: Action): Sub
    requires EnabledAt(x, a) && ByCoroutine(a)
  {
    Sub(Turn(x, nb, a).l, if a.DoMessage? then x.queue[1..] else x.queue, if a.DoEvent? then x.events - multiset{a.v} else x.events)
  }

  function InputOf(x: Sub, a: Action): Input
    requires EnabledAt(x, a) && ByCoroutine(a)
  {
    if a.DoMessage? then Msg(x.queue[0]) else if a.DoEvent? then Ev(a.v) else Entry
  }

  /** A coroutine of x runs, in a restart. */
  ghost predicate Runs(x: Sub, a: Action) {
    EnabledAt(x, a) && ByCoroutine(a) && Lone.RestartAction(x, a)
  }

  /** A subsystem whatever it has to read. */
  function Unread(x: Sub): Sub {
    x.(queue := [])
  }

  // ---------------------------------------------------------------- reports while it waits for its children

  /** What a report makes of the wait for the children. */
  ghost predicate Notes(l: Local, nb: Neighbours, sender: SubId, o: OperState, e: Effect)
    requires Awaits(l)
  {
    var t := l.coros[0];
    var heard := t.(notified := if o == Online then t.notified + {sender} else t.notified);
    && e.ups == [StartingChildren] && e.downs == []
    && e.l == if nb.children.Keys <= heard.notified && nb.ChildrenOnline()
              then l.(oper := Connecting, coros := [Scheduled(Connecting, t.client)]) else l.(coros := [heard])
  }

  lemma ReportNoted(l: Local, nb: Neighbours, d: SubId, o: OperState)
    requires Awaits(l) && l.oper == StartingChildren && l.coros[0].next == Connecting && l.admin == AdminOnline
    requires o != Broken
    ensures Notes(l, nb, d, o, TakeMessage(l, 0, nb, ReportOper(d, o)))
  {
    Conversations.StartingChildrenIsTold(l, 0, nb, d, o);
  }

  lemma NotedComes(l: Local, nb: Neighbours, d: SubId, o: OperState, e: Effect, c: ClientId)
    requires Awaits(l) && l.oper == StartingChildren && l.coros[0].client == c && Notes(l, nb, d, o, e)
    requires nb.children.Keys <= Noted(l) + HeardNow(Msg(ReportOper(d, o))) ==> nb.ChildrenOnline()
    ensures Comes(l, Msg(ReportOper(d, o)), nb.children.Keys, e, c)
  {
  }

  /** With children it waits for them; without any it goes on at once. */
  lemma EntryComes(l: Local, nb: Neighbours, launch: nat, c: ClientId)
    requires IsScheduled(l, StartingChildren) && l.oper == StartingChildren && l.coros[0].client == c
    ensures Comes(l, Entry, nb.children.Keys, RunEntry(l, 0, nb, launch), c)
  {
    Entries.StartingChildrenEntered(l, 0, nb, launch);
  }

  /** Told to start it starts over; whatever else it hears, it says again that it rests. */
  lemma RestComes(l: Local, nb: Neighbours, m: Message, c: ClientId)
    requires Rests(l) && l.oper == Restarting && l.coros[0].client == c && Hearable(l, m) && nb.parents.Keys != {}
    ensures Comes(l, Msg(m), nb.children.Keys, TakeMessage(l, 0, nb, m), c)
    ensures var r := TakeMessage(l, 0, nb, m).l;
      r == if m.ChangeAdmin? then l.(oper := StartingChildren, coros := [Scheduled(StartingChildren, c)]) else l
  {
    RestartLaws.MessageInRestarting(l, 0, nb, m);
  }

  // ---------------------------------------------------------------- once the children are up

  predicate In(l: Local, o: OperState) {
    IsLive(l, o) || IsScheduled(l, o)
  }

  /** A step from Connecting on. */
  ghost predicate GoesUp(l: Local, e: Effect, c: ClientId) {
    && Keeps(l, e, c) && (e.downs == [] || e.downs == [Down(AdminOnline, c)]) && |e.ups| <= 2
    && !e.l.coros[0].RestartWait? && !In(e.l, Restarting) && !In(e.l, StartingChildren)
    && (e.l.oper == Connecting || e.l.oper == StartingProcesses || e.l.oper == Online)
    && (forall u | u in e.ups :: OnTheWay(u) && u != Restarting) && (Online in e.ups ==> e.l.oper == Online)
    && (l.oper == Online ==> e.l.oper == Online)
    && (IsLive(e.l, Online) ==> e.l.coros[0].next == Online && (IsLive(l, Online) || Online in e.ups))
    && (UpRank(e.l) == UpRank(l) ==> e.ups == [] && e.downs == [])
  }

  lemma GoingUpComes(l: Local, input: Input, children: set<SubId>, e: Effect, c: ClientId)
    requires GoesUp(l, e, c) && Economical(UpRank, l, input, e) && |l.coros| == 1
    requires l.oper == Connecting || l.oper == StartingProcesses || l.oper == Online
    requires l.coros[0].Scheduled? || l.coros[0].Live? ==> l.coros[0].state == l.oper
    ensures Comes(l, input, children, e, c)
  {
  }

  /** A report that changes nothing may be passed on as the state it is heard in. */
  lemma LateComes(l: Local, m: Message, children: set<SubId>, e: Effect, c: ClientId)
    requires |l.coros| == 1 && l.coros[0].client == c && e.l == l && e.downs == [] && m.ReportOper?
    requires e.ups == [] || (l.oper == StartingProcesses && e.ups == [l.oper])
    requires IsLive(l, l.oper) && (l.oper == Connecting || l.oper == StartingProcesses || l.oper == Online)
    ensures Comes(l, Msg(m), children, e, c)
  {
  }

  // What the steps from Connecting on do.

  predicate Enters(l: Local, o: OperState, c: ClientId) {
    IsScheduled(l, o) && l.oper == o && l.coros[0].client == c && l.admin == AdminOnline
  }

  predicate Attends(l: Local, o: OperState, c: ClientId) {
    IsLive(l, o) && l.oper == o && l.coros[0].client == c && l.admin == AdminOnline
  }

  ghost predicate Up(l: Local, e: Effect, c: ClientId) {
    GoesUp(l, e, c) && e.l.numRestarts == l.numRestarts
  }

  lemma ConnectingUp(l: Local, nb: Neighbours, launch: nat, c: ClientId)
    requires Enters(l, Connecting, c)
    ensures Up(l, RunEntry(l, 0, nb, launch), c) && UpRank(RunEntry(l, 0, nb, launch).l) < UpRank(l)
  {
    Entries.ConnectingEntered(l, 0, nb, launch);
  }

  lemma ConnectedUp(l: Local, nb: Neighbours, k: ComputeId, c: ClientId)
    requires Attends(l, Connecting, c) && l.AllConnected()
    ensures Up(l, TakeEvent(l, 0, nb, ConnectEvent(k), false), c)
  {
    Entries.ConnectingSees(l, 0, nb, ConnectEvent(k), false);
  }

  lemma LaunchingUp(l: Local, nb: Neighbours, launch: nat, c: ClientId)
    requires Enters(l, StartingProcesses, c) && l.procs != [] && launch >= |l.procs|
    ensures Up(l, RunEntry(l, 0, nb, launch), c) && UpRank(RunEntry(l, 0, nb, launch).l) < UpRank(l)
  {
    Entries.AllLaunched(l, 0, nb, launch);
  }

  lemma StartedUp(l: Local, nb: Neighbours, v: Event, c: ClientId)
    requires Attends(l, StartingProcesses, c) && l.coros[0].next == Online
    requires v.ConnectEvent? || (v.StartEvent? && v.proc < |l.procs|)
    ensures Up(l, TakeEvent(l, 0, nb, v, false), c)
  {
    if v.StartEvent? {
      Entries.StartingProcessesSees(l, 0, nb, v.proc, false);
    } else {
      StrayEvents.StrayStartingProcesses(l, 0, nb, v, false);
    }
  }

  lemma OnlineUp(l: Local, nb: Neighbours, launch: nat, c: ClientId)
    requires Enters(l, Online, c)
    ensures Up(l, RunEntry(l, 0, nb, launch), c) && UpRank(RunEntry(l, 0, nb, launch).l) < UpRank(l)
  {
    Entries.Reached(l, 0, nb, launch, Online);
  }

  lemma OnlineUnmoved(l: Local, nb: Neighbours, v: Event, c: ClientId)
    requires Attends(l, Online, c) && l.coros[0].next == Online && v.ConnectEvent?
    ensures Up(l, TakeEvent(l, 0, nb, v, false), c)
  {
    Entries.Unmoved(l, 0, nb, v, false);
    assert TakeEvent(l, 0, nb, v, false).l == l;
  }
}
