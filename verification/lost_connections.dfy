/** Which processes and umbilicals a lost connection takes with it. */
module LostConnections {
  import opened States
  import opened ClientBits
  import opened Umbilicals
  import opened SubsystemModel
  import ReferenceCounts

  /** The processes on the compute drop their connections; the others are left alone. */
  ghost predicate Dropped(before: seq<Proc>, after: seq<Proc>, k: ComputeId) {
    && |after| == |before|
    && forall p | 0 <= p < |before| ::
         && (before[p].compute != k ==> after[p] == before[p])
         && (before[p].compute == k ==>
               after[p] == before[p].(maybeConnected := false, running := before[p].running && !before[p].maybeConnected))
  }

  /** All other umbilicals stay as they are. */
  predicate OnlyOwn(before: map<ComputeId, Umb>, after: map<ComputeId, Umb>, k: ComputeId) {
    before.Keys == after.Keys && forall j | j in before && j != k :: after[j] == before[j]
  }

  /** A process that holds its connection gives it back, and the last one closes the umbilical. */
  ghost predicate GivesBack(l: Local, r: Local, p: ProcId)
    requires p < |l.procs|
  {
    var k := l.procs[p].compute;
    if !l.procs[p].maybeConnected then r == l
    else
      && r == l.(procs := l.procs[p := l.procs[p].(maybeConnected := false, running := false)], umbilicals := r.umbilicals)
      && OnlyOwn(l.umbilicals, r.umbilicals, k)
      && (k in l.umbilicals ==>
            && r.umbilicals[k].dynamicRefs == l.umbilicals[k].dynamicRefs - 1
            && r.umbilicals[k].isStatic == l.umbilicals[k].isStatic
            && r.umbilicals[k].state == (if r.umbilicals[k].dynamicRefs > 0 then l.umbilicals[k].state else LinkClosed)
            && r.umbilicals[k].alive == (r.umbilicals[k].dynamicRefs > 0 && l.umbilicals[k].alive))
  }

  /** A process that does not hold its connection takes it, and a closed umbilical gets a connector. */
  ghost predicate Takes(l: Local, r: Local, p: ProcId)
    requires p < |l.procs|
  {
    var k := l.procs[p].compute;
    if l.procs[p].maybeConnected then r == l
    else
      && r == l.(procs := l.procs[p := l.procs[p].(maybeConnected := true)], umbilicals := r.umbilicals,
                 connectors := r.connectors)
      && OnlyOwn(l.umbilicals, r.umbilicals, k)
      && (k in l.umbilicals ==>
            r.umbilicals[k] == l.umbilicals[k].(state := LinkConnecting, dynamicRefs := l.umbilicals[k].dynamicRefs + 1))
      && r.connectors == l.connectors + if k in l.umbilicals && l.umbilicals[k].state == LinkClosed then {k} else {}
  }

  lemma ComputeDropped(l: Local, k: ComputeId, i: ProcId)
    ensures var r := DisconnectComputeFrom(l, k, i);
      && r == l.(procs := r.procs, umbilicals := r.umbilicals)
      && |r.procs| == |l.procs| && OnlyOwn(l.umbilicals, r.umbilicals, k)
      && forall p | 0 <= p < |l.procs| ::
           && (l.procs[p].compute != k || p < i ==> r.procs[p] == l.procs[p])
           && (l.procs[p].compute == k && p >= i ==>
                 r.procs[p] == l.procs[p].(maybeConnected := false,
                                           running := l.procs[p].running && !l.procs[p].maybeConnected))
    decreases |l.procs| - i
  {
    if i < |l.procs| {
      ComputeDropped(if l.procs[i].compute == k then DisconnectProcess(l, i) else l, k, i + 1);
    }
  }

  /** The connection is given up for good: nobody refers to it. */
  predicate GivenUp(umbilicals: map<ComputeId, Umb>, k: ComputeId) {
    k in umbilicals ==> umbilicals[k].dynamicRefs == 0 && umbilicals[k].state == LinkClosed && !umbilicals[k].IsConnected()
  }

  lemma OwnGivenUp(l: Local, r: Local, k: ComputeId)
    requires ReferenceCounts.Accounted(r) && Dropped(l.procs, r.procs, k)
    ensures GivenUp(r.umbilicals, k)
  {
    if k in r.umbilicals {
      NobodyUses(r.procs, k);
    }
  }

  lemma {:induction false} NobodyUses(procs: seq<Proc>, k: ComputeId)
    requires forall p | 0 <= p < |procs| :: !(procs[p].maybeConnected && procs[p].compute == k)
    ensures ReferenceCounts.Users(procs, k) == 0
  {
    if procs != [] {
      NobodyUses(procs[..|procs|-1], k);
    }
  }

  lemma LossDrops(l: Local, i: nat, k: ComputeId)
    requires i < |l.coros|
    ensures var e := Read(Without(l, i), DisconnectEvent(k));
      var r := DisconnectComputeFrom(e.l, k, 0);
      && r == Without(l, i).l.(procs := r.procs, umbilicals := r.umbilicals)
      && Dropped(l.procs, r.procs, k) && OnlyOwn(l.umbilicals, r.umbilicals, k)
  {
    ComputeDropped(Read(Without(l, i), DisconnectEvent(k)).l, k, 0);
  }

  /**
   * Online, a lost connection disconnects exactly the processes on its compute, gives it up when the
   * counts were exact, and restarts the subsystem; the other processes go on until they are stopped.
   */
  lemma LossOnline(l: Local, i: nat, nb: Neighbours, k: ComputeId, aborting: bool)
    requires i < |l.coros| && l.coros[i].Live? && l.coros[i].state == Online
    ensures var r := TakeEvent(l, i, nb, DisconnectEvent(k), aborting);
      && r.l == l.(procs := r.l.procs, umbilicals := r.l.umbilicals, oper := Restarting,
                   coros := l.coros[..i] + l.coros[i+1..] + [Scheduled(Restarting, NO_CLIENT)])
      && Dropped(l.procs, r.l.procs, k) && OnlyOwn(l.umbilicals, r.l.umbilicals, k)
      && (ReferenceCounts.Accounted(l) ==> GivenUp(r.l.umbilicals, k))
      && r.ups == [] && r.downs == []
  {
    LossDrops(l, i, k);
    if ReferenceCounts.Accounted(l) {
      ReferenceCounts.EventAccounted(l, i, nb, DisconnectEvent(k), aborting);
      OwnGivenUp(l, TakeEvent(l, i, nb, DisconnectEvent(k), aborting).l, k);
    }
  }

  /** The same while processes are being stopped, which ends when no other runs. */
  lemma LossStopping(l: Local, i: nat, nb: Neighbours, k: ComputeId, aborting: bool)
    requires i < |l.coros| && l.coros[i].Live? && l.coros[i].state == StoppingProcesses
    ensures var t := l.coros[i];
      var r := TakeEvent(l, i, nb, DisconnectEvent(k), aborting);
      var rest := l.coros[..i] + l.coros[i+1..];
      && Dropped(l.procs, r.l.procs, k) && OnlyOwn(l.umbilicals, r.l.umbilicals, k)
      && r.ups == []
      && (r.l.AllStopped() ==>
            && r.l == l.(procs := r.l.procs, umbilicals := r.l.umbilicals, oper := t.next,
                         coros := rest + [Scheduled(t.next, t.client)])
            && r.downs == [Down(AdminOffline, t.client)])
      && (!r.l.AllStopped() ==>
            && r.l == l.(procs := r.l.procs, umbilicals := r.l.umbilicals, coros := rest + [t]) && r.downs == [])
  {
    LossDrops(l, i, k);
  }

  lemma LossStoppingGivesUp(l: Local, i: nat, nb: Neighbours, k: ComputeId, aborting: bool)
    requires i < |l.coros| && l.coros[i].Live? && l.coros[i].state == StoppingProcesses && ReferenceCounts.Accounted(l)
    ensures GivenUp(TakeEvent(l, i, nb, DisconnectEvent(k), aborting).l.umbilicals, k)
  {
    LossStopping(l, i, nb, k, aborting);
    ReferenceCounts.EventAccounted(l, i, nb, DisconnectEvent(k), aborting);
    OwnGivenUp(l, TakeEvent(l, i, nb, DisconnectEvent(k), aborting).l, k);
  }

  /** Anywhere else only the client closes its sockets. */
  lemma LossElsewhere(l: Local, i: nat, nb: Neighbours, k: ComputeId, aborting: bool)
    requires i < |l.coros| && Serves(l.coros[i])
    requires l.coros[i].Live? ==> l.coros[i].state != Online && l.coros[i].state != StoppingProcesses
    ensures var r := TakeEvent(l, i, nb, DisconnectEvent(k), aborting).l;
      && r.procs == l.procs && OnlyOwn(l.umbilicals, r.umbilicals, k)
      && (k in l.umbilicals ==> r.umbilicals[k] == l.umbilicals[k].(alive := false))
  {
    var e := Read(Without(l, i), DisconnectEvent(k));
    ReferenceCounts.HandledEventStep(e, l.coros[i], nb, DisconnectEvent(k), aborting);
    UmbilicalsStay(e, l.coros[i], nb, k, aborting);
  }

  lemma UmbilicalsStay(e: Effect, t: Coro, nb: Neighbours, k: ComputeId, aborting: bool)
    requires Serves(t) && (t.Live? ==> t.state != Online && t.state != StoppingProcesses)
    ensures var r := HandleEvent(e, t, nb, DisconnectEvent(k), aborting).l;
      r.procs == e.l.procs && r.umbilicals == e.l.umbilicals
  {
  }
}
