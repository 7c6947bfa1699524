/**
 * What each serving state makes of the commands and reports it hears: where the subsystem goes, what it
 * tells its parents and its children, and when it goes on waiting.
 */
module Conversations {
  import opened States
  import opened ClientBits
  import opened Umbilicals
  import opened SubsystemModel
  import opened CrashOutcomes

  /** Serving state o. */
  predicate Serves(l: Local, k: nat, o: OperState) {
    k < |l.coros| && l.coros[k].Live? && l.coros[k].state == o
  }

  /** A command that asks for the state the subsystem is in is answered by a report of it. */
  function Answer(l: Local, asked: OperState): seq<OperState> {
    if asked == l.oper then [l.oper] else []
  }

  /** It goes on serving with coroutine c. */
  predicate Stays(l: Local, k: nat, r: Effect, c: Coro, ups: seq<OperState>, downs: seq<Down>)
    requires k < |l.coros|
  {
    && r.l == l.(admin := r.l.admin, clients := r.l.clients, coros := Followed(l, k, c))
    && r.ups == ups && r.downs == downs
  }

  /** It leaves for state o. */
  predicate Leaves(l: Local, k: nat, r: Effect, o: OperState, client: ClientId, ups: seq<OperState>, downs: seq<Down>)
    requires k < |l.coros|
  {
    && r.l == l.(admin := r.l.admin, clients := r.l.clients, oper := o, coros := Followed(l, k, Scheduled(o, client)))
    && r.ups == ups && r.downs == downs
  }

  /** Whether any client is left. */
  predicate Wanted(r: Effect) {
    r.l.clients.members != {}
  }

  // ---------------------------------------------------------------- Offline

  /** Only a start that gives it a client makes it leave, and then the children are told first. */
  lemma OfflineHears(l: Local, k: nat, nb: Neighbours, admin: AdminState, c: ClientId)
    requires Serves(l, k, Offline)
    ensures var r := TakeMessage(l, k, nb, ChangeAdmin(admin, c));
      if admin == AdminOnline && Wanted(r)
      then Leaves(l, k, r, StartingChildren, NO_CLIENT, Answer(l, StartingChildren), [Down(AdminOnline, c)])
           && r.l.admin == AdminOnline
      else Stays(l, k, r, l.coros[k], if admin == AdminOnline then Answer(l, Offline) else [l.oper], []) && r.l.admin == l.admin
  {
  }

  lemma OfflineIsTold(l: Local, k: nat, nb: Neighbours, d: SubId, o: OperState)
    requires Serves(l, k, Offline) && o != Restarting
    ensures var r := TakeMessage(l, k, nb, ReportOper(d, o));
      Stays(l, k, r, l.coros[k], [l.oper], []) && r.l.admin == l.admin && r.l.clients == l.clients
  {
  }

  // ---------------------------------------------------------------- StartingChildren

  /** All children have been heard of. */
  predicate AllHeard(t: Coro, nb: Neighbours)
    requires t.Live?
  {
    nb.children.Keys <= t.notified
  }

  /** What StartingChildren does once it has noted what it was told. */
  ghost predicate Settles(l: Local, k: nat, nb: Neighbours, t: Coro, r: Effect, ups: seq<OperState>, downs: seq<Down>)
    requires k < |l.coros| && t.Live?
  {
    && (!AllHeard(t, nb) ==> Stays(l, k, r, t, ups, downs))
    && (AllHeard(t, nb) && r.l.admin == AdminOffline ==> Leaves(l, k, r, Offline, t.client, ups, downs))
    && (AllHeard(t, nb) && r.l.admin == AdminOnline && t.next != Connecting ==>
          Leaves(l, k, r, t.next, t.client, ups, downs))
    && (AllHeard(t, nb) && r.l.admin == AdminOnline && t.next == Connecting ==>
          if forall d | d in nb.children :: nb.children[d].oper == Online
          then Leaves(l, k, r, Connecting, t.client, ups, downs)
          else Stays(l, k, r, t, ups, downs))
  }

  lemma CheckSettles(l: Local, k: nat, nb: Neighbours, e: Effect, t: Coro)
    requires k < |l.coros| && t.Live?
    requires e.l == l.(admin := e.l.admin, clients := e.l.clients, coros := l.coros[..k] + l.coros[k+1..])
    ensures var r := StartingChildrenCheck(e, t, nb);
      r.l.admin == e.l.admin && r.l.clients == e.l.clients && Settles(l, k, nb, t, r, e.ups, e.downs)
  {
    assert nb.ChildrenOnline() <==> forall d | d in nb.children :: nb.children[d].oper == Online;
  }

  /** A command is passed on; it turns the state around when nobody is left, and for good. */
  lemma StartingChildrenHears(l: Local, k: nat, nb: Neighbours, admin: AdminState, c: ClientId)
    requires Serves(l, k, StartingChildren)
    ensures var r := TakeMessage(l, k, nb, ChangeAdmin(admin, c));
      && r.l.admin == (if Wanted(r) then l.admin else AdminOffline)
      && Settles(l, k, nb, l.coros[k].(client := c, next := if Wanted(r) then Connecting else StoppingChildren), r,
                 Answer(l, if Wanted(r) then Connecting else StoppingChildren), [Down(admin, c)])
  {
    var t := l.coros[k];
    var e := Without(l, k);
    var e1 := Command(e, admin, c, Connecting, StoppingChildren).Send(admin, c);
    var nx := NextState(e1.l.clients, Connecting, StoppingChildren);
    CheckSettles(l, k, nb, if nx == StoppingChildren then e1.SetAdmin(AdminOffline) else e1, t.(client := c, next := nx));
  }

  /** A child counts as heard when it is Online, or Offline in a start that has been called off. */
  lemma StartingChildrenIsTold(l: Local, k: nat, nb: Neighbours, d: SubId, o: OperState)
    requires Serves(l, k, StartingChildren) && o != Broken
    ensures var t := l.coros[k];
      var heard := o == Online || (l.admin == AdminOffline && o == Offline);
      var r := TakeMessage(l, k, nb, ReportOper(d, o));
      && r.l.admin == l.admin && r.l.clients == l.clients
      && Settles(l, k, nb, if heard then t.(notified := t.notified + {d}) else t, r, [l.oper], [])
  {
  }

  // ---------------------------------------------------------------- Connecting

  /** A stop leads to StoppingProcesses, whoever is left; the client set is changed all the same. */
  lemma ConnectingHears(l: Local, k: nat, nb: Neighbours, admin: AdminState, c: ClientId)
    requires Serves(l, k, Connecting)
    ensures var r := TakeMessage(l, k, nb, ChangeAdmin(admin, c));
      && (admin == AdminOffline ==>
            Leaves(l, k, r, StoppingProcesses, c, Answer(l, StoppingProcesses), []) && r.l.admin == AdminOffline)
      && (admin == AdminOnline ==> r.l.admin == l.admin && r.l.clients == l.clients && GoesOn(l, k, r))
  {
  }

  /** The connection of every process has been made, and has its sockets. */
  predicate Linked(l: Local) {
    forall p | 0 <= p < |l.procs| ::
      var k := l.procs[p].compute;
      k in l.umbilicals && l.umbilicals[k].state == LinkConnected && l.umbilicals[k].alive
  }

  /** Once all processes are connected it goes on, and tells the children to start again. */
  predicate GoesOn(l: Local, k: nat, r: Effect)
    requires k < |l.coros| && l.coros[k].Live?
  {
    if Linked(l) then Leaves(l, k, r, StartingProcesses, l.coros[k].client, [], [Down(AdminOnline, l.coros[k].client)])
    else Stays(l, k, r, l.coros[k], [], [])
  }

  lemma ConnectingIsTold(l: Local, k: nat, nb: Neighbours, d: SubId, o: OperState)
    requires Serves(l, k, Connecting)
    ensures var r := TakeMessage(l, k, nb, ReportOper(d, o));
      GoesOn(l, k, r) && r.l.admin == l.admin && r.l.clients == l.clients
  {
  }

  // ---------------------------------------------------------------- StartingProcesses

  predicate Launched(l: Local, k: nat, t: Coro, r: Effect, ups: seq<OperState>, downs: seq<Down>)
    requires k < |l.coros| && t.Live?
  {
    if l.AllRunning() then Leaves(l, k, r, t.next, t.client, ups, downs) else Stays(l, k, r, t, ups, downs)
  }

  /** A command is passed on, and turns the state around when nobody is left. */
  lemma StartingProcessesHears(l: Local, k: nat, nb: Neighbours, admin: AdminState, c: ClientId)
    requires Serves(l, k, StartingProcesses)
    ensures var r := TakeMessage(l, k, nb, ChangeAdmin(admin, c));
      && r.l.admin == (if Wanted(r) then l.admin else AdminOffline)
      && Launched(l, k, l.coros[k].(client := c, next := if Wanted(r) then Online else StoppingProcesses), r,
                  Answer(l, if Wanted(r) then Online else StoppingProcesses), [Down(admin, c)])
  {
  }

  lemma StartingProcessesIsTold(l: Local, k: nat, nb: Neighbours, d: SubId, o: OperState)
    requires Serves(l, k, StartingProcesses)
    ensures var r := TakeMessage(l, k, nb, ReportOper(d, o));
      && r.l.admin == l.admin && r.l.clients == l.clients
      && Launched(l, k, l.coros[k], r, [l.oper], [])
  {
  }

  // ---------------------------------------------------------------- Online

  /** A stop is only heeded when no parent is admin Online; any command that keeps it Online is answered. */
  lemma OnlineHears(l: Local, k: nat, nb: Neighbours, admin: AdminState, c: ClientId)
    requires Serves(l, k, Online)
    ensures var r := TakeMessage(l, k, nb, ChangeAdmin(admin, c));
      var ignored := admin == AdminOffline && exists p :: p in nb.parents && nb.parents[p].admin == AdminOnline;
      && (ignored ==> Stays(l, k, r, l.coros[k], [l.oper], []) && r.l.admin == l.admin && r.l.clients == l.clients)
      && (!ignored && Wanted(r) ==>
            Stays(l, k, r, l.coros[k].(client := c, next := Online), Answer(l, Online), []) && r.l.admin == l.admin)
      && (!ignored && !Wanted(r) ==>
            Leaves(l, k, r, StoppingProcesses, c, Answer(l, StoppingProcesses), []) && r.l.admin == AdminOffline)
  {
    assert nb.ParentsOffline() <==> !exists p :: p in nb.parents && nb.parents[p].admin == AdminOnline;
  }

  // ---------------------------------------------------------------- StoppingProcesses

  predicate Drained(l: Local, k: nat, t: Coro, r: Effect, ups: seq<OperState>)
    requires k < |l.coros| && t.Live?
  {
    if l.AllStopped() then Leaves(l, k, r, t.next, t.client, ups, [Down(AdminOffline, t.client)])
    else Stays(l, k, r, t, ups, [])
  }

  /** A start with a client turns it back to Connecting, but the children are told to stop either way. */
  lemma StoppingProcessesHears(l: Local, k: nat, nb: Neighbours, admin: AdminState, c: ClientId)
    requires Serves(l, k, StoppingProcesses)
    ensures var r := TakeMessage(l, k, nb, ChangeAdmin(admin, c));
      && r.l.admin == l.admin
      && Drained(l, k, l.coros[k].(client := c, next := if Wanted(r) then Connecting else StoppingChildren), r,
                 Answer(l, if Wanted(r) then Connecting else StoppingChildren))
  {
  }

  lemma StoppingProcessesIsTold(l: Local, k: nat, nb: Neighbours, d: SubId, o: OperState)
    requires Serves(l, k, StoppingProcesses)
    ensures var r := TakeMessage(l, k, nb, ReportOper(d, o));
      r.l.admin == l.admin && r.l.clients == l.clients && Drained(l, k, l.coros[k], r, [l.oper])
  {
  }

  // ---------------------------------------------------------------- StoppingChildren

  /** Every child is wanted by somebody else, or has let all the stopping clients go. */
  predicate LetGo(nb: Neighbours, requests: set<ClientId>) {
    forall d, c | d in nb.children && c in requests ::
      nb.children[d].admin == AdminOnline || c !in nb.children[d].clients.members
  }

  ghost predicate Finishes(l: Local, k: nat, nb: Neighbours, t: Coro, r: Effect, ups: seq<OperState>)
    requires k < |l.coros| && t.Live?
  {
    && (!AllHeard(t, nb) ==> Stays(l, k, r, t, ups, []))
    && (AllHeard(t, nb) && t.next == StartingChildren ==> Leaves(l, k, r, StartingChildren, t.client, ups, []))
    && (AllHeard(t, nb) && t.next != StartingChildren ==>
          if LetGo(nb, t.requests) then Leaves(l, k, r, t.next, t.client, ups, [Down(AdminOffline, t.client)])
          else Stays(l, k, r, t, ups, []))
  }

  lemma CheckFinishes(l: Local, k: nat, nb: Neighbours, e: Effect, t: Coro)
    requires k < |l.coros| && t.Live? && e.downs == []
    requires e.l == l.(admin := e.l.admin, clients := e.l.clients, coros := l.coros[..k] + l.coros[k+1..])
    ensures var r := StoppingChildrenCheck(e, t, nb);
      r.l.admin == e.l.admin && r.l.clients == e.l.clients && Finishes(l, k, nb, t, r, e.ups)
  {
    assert LetGo(nb, t.requests) <==> nb.Released(t.requests);
  }

  /** Clients that stop are waited for, those that start again are not; any client left turns it around. */
  lemma StoppingChildrenHears(l: Local, k: nat, nb: Neighbours, admin: AdminState, c: ClientId)
    requires Serves(l, k, StoppingChildren)
    ensures var t := l.coros[k];
      var r := TakeMessage(l, k, nb, ChangeAdmin(admin, c));
      && r.l.admin == l.admin
      && Finishes(l, k, nb, t.(client := c, next := if Wanted(r) then StartingChildren else Offline,
                               requests := if admin == AdminOffline then t.requests + {c} else t.requests - {c}), r,
                  Answer(l, if Wanted(r) then StartingChildren else Offline))
  {
    var t := l.coros[k];
    var e1 := Command(Without(l, k), admin, c, StartingChildren, Offline);
    var requests := if admin == AdminOffline then t.requests + {c} else t.requests - {c};
    CheckFinishes(l, k, nb, e1, t.(client := c, next := NextState(e1.l.clients, StartingChildren, Offline), requests := requests));
  }

  lemma StoppingChildrenIsTold(l: Local, k: nat, nb: Neighbours, d: SubId, o: OperState)
    requires Serves(l, k, StoppingChildren)
    ensures var t := l.coros[k];
      var r := TakeMessage(l, k, nb, ReportOper(d, o));
      && r.l.admin == l.admin && r.l.clients == l.clients
      && Finishes(l, k, nb, if o == Online || o == Offline then t.(notified := t.notified + {d}) else t, r, [l.oper])
  {
    assert LetGo(nb, l.coros[k].requests) <==> nb.Released(l.coros[k].requests);
  }
}
