/**
 * What a subsystem does and says on entering each state, and what the events of StageZero make of it.
 */
module Entries {
  import opened States
  import opened ClientBits
  import opened Umbilicals
  import opened SubsystemModel
  import opened CrashOutcomes
  import RestartLaws
  import Conversations

  /** About to perform the entry actions of o, for the client the state was entered for. */
  predicate Enters(l: Local, k: nat, o: OperState) {
    k < |l.coros| && l.coros[k].Scheduled? && l.coros[k].state == o && l.oper == o
  }

  // ---------------------------------------------------------------- entries

  /** With children it waits for all of them and says so; without any it goes on in silence. */
  lemma StartingChildrenEntered(l: Local, k: nat, nb: Neighbours, launch: nat)
    requires Enters(l, k, StartingChildren)
    ensures var c := l.coros[k].client;
      RunEntry(l, k, nb, launch) ==
        if nb.children.Keys == {} then Effect(l.(oper := Connecting, coros := Followed(l, k, Scheduled(Connecting, c))), [], [])
        else Effect(l.(coros := Followed(l, k, Live(StartingChildren, c, Connecting, {}, {}, {}))), [StartingChildren], [])
  {
  }

  /** A process from i on still has to ask for the connection to compute j. */
  ghost predicate Asks(l: Local, j: ComputeId, i: ProcId) {
    exists p :: i <= p < |l.procs| && l.procs[p].compute == j && !l.procs[p].maybeConnected
  }

  /** What connecting from process i on makes of umbilical j. */
  ghost predicate AskedFor(l: Local, r: Local, j: ComputeId, i: ProcId) {
    && (j in r.umbilicals <==> j in l.umbilicals)
    && (j in l.umbilicals && !Asks(l, j, i) ==> r.umbilicals[j] == l.umbilicals[j])
    && (j in l.umbilicals && Asks(l, j, i) ==>
          r.umbilicals[j] == l.umbilicals[j].(state := LinkConnecting, dynamicRefs := r.umbilicals[j].dynamicRefs))
    && (j in r.connectors <==>
          j in l.connectors || (j in l.umbilicals && Asks(l, j, i) && l.umbilicals[j].state == LinkClosed))
  }

  /** Every process holds its connection now, and the umbilicals that were asked for are being connected. */
  ghost predicate AllConnect(l: Local, r: Local) {
    && r == l.(procs := r.procs, umbilicals := r.umbilicals, connectors := r.connectors) && |r.procs| == |l.procs|
    && (forall p | 0 <= p < |l.procs| :: r.procs[p] == l.procs[p].(maybeConnected := true))
    && forall j {:trigger AskedFor(l, r, j, 0)} :: AskedFor(l, r, j, 0)
  }

  lemma ProcsConnect(l: Local, i: ProcId)
    ensures var r := ConnectFrom(l, i);
      && r == l.(procs := r.procs, umbilicals := r.umbilicals, connectors := r.connectors) && |r.procs| == |l.procs|
      && forall p | 0 <= p < |l.procs| :: r.procs[p] == if p < i then l.procs[p] else l.procs[p].(maybeConnected := true)
    decreases |l.procs| - i
  {
    if i < |l.procs| {
      ProcsConnect(ConnectProcess(l, i), i + 1);
    }
  }

  lemma AsksNext(l: Local, j: ComputeId, i: ProcId)
    requires i < |l.procs|
    ensures Asks(l, j, i)
       <==> (l.procs[i].compute == j && !l.procs[i].maybeConnected) || Asks(ConnectProcess(l, i), j, i + 1)
  {
    var r := ConnectProcess(l, i);
    assert forall p | i < p < |l.procs| :: r.procs[p] == l.procs[p];
  }

  lemma {:induction false} LinkAskedFor(l: Local, j: ComputeId, i: ProcId)
    ensures AskedFor(l, ConnectFrom(l, i), j, i)
    decreases |l.procs| - i
  {
    if i < |l.procs| {
      AsksNext(l, j, i);
      LinkAskedFor(ConnectProcess(l, i), j, i + 1);
    }
  }

  lemma AllConnectFrom(l: Local)
    ensures AllConnect(l, ConnectFrom(l, 0))
  {
    ProcsConnect(l, 0);
    forall j {:trigger AskedFor(l, ConnectFrom(l, 0), j, 0)} ensures AskedFor(l, ConnectFrom(l, 0), j, 0) {
      LinkAskedFor(l, j, 0);
    }
  }

  /** Connecting does not depend on what the coroutines do. */
  lemma ConnectAlike(l: Local, m: Local, r: Local)
    requires m.procs == l.procs && m.umbilicals == l.umbilicals && m.connectors == l.connectors
    requires AllConnect(l, ConnectFrom(l, 0))
    requires var c := ConnectFrom(l, 0);
      r == m.(procs := c.procs, umbilicals := c.umbilicals, connectors := c.connectors)
    ensures AllConnect(m, r)
  {
    forall j {:trigger AskedFor(m, r, j, 0)} ensures AskedFor(m, r, j, 0) {
      assert AskedFor(l, ConnectFrom(l, 0), j, 0);
    }
  }

  lemma ConnectingEntered(l: Local, k: nat, nb: Neighbours, launch: nat)
    requires Enters(l, k, Connecting)
    ensures var c := l.coros[k].client;
      var r := RunEntry(l, k, nb, launch);
      && AllConnect(l.(oper := r.l.oper, coros := r.l.coros), r.l) && r.downs == []
      && (Conversations.Linked(r.l) ==>
            r.l.oper == StartingProcesses && r.l.coros == Followed(l, k, Scheduled(StartingProcesses, c)) && r.ups == [])
      && (!Conversations.Linked(r.l) ==>
            && r.l.oper == Connecting && r.l.coros == Followed(l, k, Serving(Connecting, c, Connecting))
            && r.ups == [Connecting])
  {
    var l0, l1 := Without(l, k).l.(oper := Connecting), RunEntry(l, k, nb, launch).l;
    AllConnectFrom(l0);
    ConnectAlike(l0, l.(oper := l1.oper, coros := l1.coros), l1);
  }

  /** A start that was called off, or has nothing to launch, is over at once, and the parents hear where it ended. */
  lemma NothingToLaunch(l: Local, k: nat, nb: Neighbours, launch: nat)
    requires Enters(l, k, StartingProcesses) && (l.admin == AdminOffline || l.procs == [])
    ensures var o := if l.admin == AdminOffline then Offline else Online;
      RunEntry(l, k, nb, launch)
        == Effect(l.(oper := o, coros := Followed(l, k, Scheduled(o, l.coros[k].client))), [o], [])
  {
  }

  /** Otherwise exactly the processes that do not run are launched, and it waits for all of them. */
  lemma AllLaunched(l: Local, k: nat, nb: Neighbours, launch: nat)
    requires Enters(l, k, StartingProcesses) && l.admin == AdminOnline && l.procs != [] && launch >= |l.procs|
    ensures var r := RunEntry(l, k, nb, launch);
      && r.l == l.(launched := r.l.launched,
                   coros := Followed(l, k, Serving(StartingProcesses, l.coros[k].client, Online)))
      && (forall p: ProcId :: p in r.l.launched <==> p in l.launched || (p < |l.procs| && !l.procs[p].running))
      && r.ups == [StartingProcesses] && r.downs == []
  {
  }

  /** Online, Broken and Degraded only say that they have been reached. */
  lemma Reached(l: Local, k: nat, nb: Neighbours, launch: nat, o: OperState)
    requires Enters(l, k, o) && (o == Online || o == Broken || o == Degraded)
    ensures RunEntry(l, k, nb, launch) == Effect(l.(coros := Followed(l, k, Serving(o, l.coros[k].client, o))), [o], [])
  {
  }

  /** With nothing running the children are told to stop at once; otherwise every running process is asked to. */
  lemma StoppingProcessesEntered(l: Local, k: nat, nb: Neighbours, launch: nat)
    requires Enters(l, k, StoppingProcesses)
    ensures var c := l.coros[k].client;
      var r := RunEntry(l, k, nb, launch);
      && (l.AllStopped() ==>
            r == Effect(l.(oper := StoppingChildren, coros := Followed(l, k, Scheduled(StoppingChildren, c))), [],
                        [Down(AdminOffline, c)]))
      && (!l.AllStopped() ==>
            && RestartLaws.AllAsked(l, r.l) && r.ups == [StoppingProcesses] && r.downs == []
            && r.l == l.(procs := r.l.procs, umbilicals := r.l.umbilicals, stopRequested := r.l.stopRequested,
                         coros := Followed(l, k, Serving(StoppingProcesses, c, StoppingChildren))))
  {
    RestartLaws.AllAskedFrom(Without(l, k).l, 0);
  }

  lemma StoppingChildrenEntered(l: Local, k: nat, nb: Neighbours, launch: nat)
    requires Enters(l, k, StoppingChildren)
    ensures var c := l.coros[k].client;
      RunEntry(l, k, nb, launch) ==
        if nb.children.Keys == {} then Effect(l.(oper := Offline, coros := Followed(l, k, Scheduled(Offline, c))), [], [])
        else Effect(l.(coros := Followed(l, k, Live(StoppingChildren, c, Offline, {}, {c}, {}))), [StoppingChildren], [])
  {
  }

  lemma OfflineEntered(l: Local, k: nat, nb: Neighbours, launch: nat)
    requires Enters(l, k, Offline)
    ensures var r := RunEntry(l, k, nb, launch);
      && r.l == l.(procs := r.l.procs, umbilicals := r.l.umbilicals, numRestarts := 0,
                   coros := Followed(l, k, Serving(Offline, l.coros[k].client, Offline)))
      && r.ups == [Offline] && r.downs == []
  {
    RestartLaws.AllReleased(Without(l, k).l.(numRestarts := 0), 0);
  }

  // ---------------------------------------------------------------- events

  /** A stop is ignored while children start; anything else makes it look at them again. */
  lemma StartingChildrenSees(l: Local, k: nat, nb: Neighbours, v: Event, aborting: bool)
    requires Conversations.Serves(l, k, StartingChildren) && !v.DisconnectEvent?
    ensures var r := TakeEvent(l, k, nb, v, aborting);
      && (v.StopEvent? ==> Conversations.Stays(l, k, r, l.coros[k], [], []))
      && (!v.StopEvent? ==> Conversations.Settles(l, k, nb, l.coros[k], r, [], []))
      && r.l.admin == l.admin && r.l.clients == l.clients
  {
  }

  lemma ConnectingSees(l: Local, k: nat, nb: Neighbours, v: Event, aborting: bool)
    requires Conversations.Serves(l, k, Connecting) && !v.DisconnectEvent?
    ensures var r := TakeEvent(l, k, nb, v, aborting);
      && (v.StopEvent? ==> Conversations.Stays(l, k, r, l.coros[k], [], []))
      && (!v.StopEvent? ==> Conversations.GoesOn(l, k, r))
      && r.l.admin == l.admin && r.l.clients == l.clients
  {
  }

  /** A start marks its process; it goes on when all run. */
  lemma StartingProcessesSees(l: Local, k: nat, nb: Neighbours, p: ProcId, aborting: bool)
    requires Conversations.Serves(l, k, StartingProcesses) && p < |l.procs|
    ensures var r := TakeEvent(l, k, nb, StartEvent(p), aborting);
      Conversations.Launched(l.(procs := l.procs[p := l.procs[p].(running := true)]), k, l.coros[k], r, [], [])
  {
    assert Without(l, k).l.SetRunning(p, true).procs == l.procs[p := l.procs[p].(running := true)];
  }

  /** A stop clears its process; it goes on when none runs. */
  lemma StoppingProcessesSees(l: Local, k: nat, nb: Neighbours, p: ProcId, aborting: bool)
    requires Conversations.Serves(l, k, StoppingProcesses) && p < |l.procs|
    ensures var r := TakeEvent(l, k, nb, StopEvent(p), aborting);
      Conversations.Drained(l.(procs := l.procs[p := l.procs[p].(running := false)]), k, l.coros[k], r, [])
  {
    assert Without(l, k).l.SetRunning(p, false).procs == l.procs[p := l.procs[p].(running := false)];
  }

  lemma StoppingChildrenSees(l: Local, k: nat, nb: Neighbours, v: Event, aborting: bool)
    requires Conversations.Serves(l, k, StoppingChildren) && !v.DisconnectEvent?
    ensures var r := TakeEvent(l, k, nb, v, aborting);
      Conversations.Finishes(l, k, nb, l.coros[k], r, []) && r.l.admin == l.admin && r.l.clients == l.clients
  {
    assert Conversations.LetGo(nb, l.coros[k].requests) <==> nb.Released(l.coros[k].requests);
  }

  /** Offline, Broken and Degraded take no notice of processes, and Online of none but stopped ones. */
  lemma Unmoved(l: Local, k: nat, nb: Neighbours, v: Event, aborting: bool)
    requires k < |l.coros| && l.coros[k].Live? && !v.DisconnectEvent?
    requires l.coros[k].state in {Offline, Broken, Degraded} || (l.coros[k].state == Online && !v.StopEvent?)
    ensures TakeEvent(l, k, nb, v, aborting) == Effect(l.(coros := Followed(l, k, l.coros[k])), [], [])
  {
  }
}
