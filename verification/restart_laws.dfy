/**
 * The steps of a restart: who is told to stop, when the subsystem starts over, and what its parents and
 * children are told.
 */
module RestartLaws {
  import opened States
  import opened ClientBits
  import opened Umbilicals
  import opened SubsystemModel
  import opened Network
  import opened CrashOutcomes

  /** The subsystem starts over: children first, and each of them is told to start. */
  predicate StartsOver(l: Local, k: nat, l1: Local, client: ClientId, r: Effect)
    requires k < |l.coros|
  {
    && r.l == l1.(oper := StartingChildren, coros := Followed(l, k, Scheduled(StartingChildren, client)))
    && r.downs == [Down(AdminOnline, client)]
  }

  // ---------------------------------------------------------------- Restarting

  /** A root all of whose processes have stopped starts over as soon as it enters Restarting. */
  lemma RootStartsOverAtOnce(l: Local, k: nat, nb: Neighbours, launch: nat)
    requires k < |l.coros| && l.coros[k].Scheduled? && l.coros[k].state == Restarting
    requires l.AllStopped() && nb.parents.Keys == {}
    ensures var r := RunEntry(l, k, nb, launch); StartsOver(l, k, l, l.coros[k].client, r) && r.ups == []
  {
  }

  /** Otherwise it waits, and it tells its parents if nothing runs. */
  lemma EntryWaits(l: Local, k: nat, nb: Neighbours, launch: nat)
    requires k < |l.coros| && l.coros[k].Scheduled? && l.coros[k].state == Restarting
    requires !l.AllStopped() || nb.parents.Keys != {}
    ensures var r := RunEntry(l, k, nb, launch);
      && r.l.oper == l.oper && r.downs == [] && r.ups == (if l.AllStopped() then [l.oper] else [])
      && r.l == l.(procs := r.l.procs, umbilicals := r.l.umbilicals, stopRequested := r.l.stopRequested,
                   coros := Followed(l, k, Serving(Restarting, l.coros[k].client, Restarting)))
      && AllAsked(l, r.l)
  {
    AllAskedFrom(Without(l, k).l, 0);
  }

  /** The last process of a root stops, and it starts over. */
  lemma RootStartsOver(l: Local, k: nat, nb: Neighbours, p: ProcId, aborting: bool)
    requires k < |l.coros| && l.coros[k].Live? && l.coros[k].state == Restarting && nb.parents.Keys == {}
    requires p < |l.procs| && forall q | 0 <= q < |l.procs| && q != p :: !l.procs[q].running
    ensures var r := TakeEvent(l, k, nb, StopEvent(p), aborting);
      StartsOver(l, k, l.(procs := l.procs[p := l.procs[p].(running := false)]), l.coros[k].client, r) && r.ups == []
  {
    assert Without(l, k).l.SetRunning(p, false).AllStopped();
  }

  /** With a parent it tells the parents that nothing runs any more, and goes on waiting. */
  lemma LastStopReported(l: Local, k: nat, nb: Neighbours, p: ProcId, aborting: bool)
    requires k < |l.coros| && l.coros[k].Live? && l.coros[k].state == Restarting && nb.parents.Keys != {}
    requires p < |l.procs| && forall q | 0 <= q < |l.procs| && q != p :: !l.procs[q].running
    ensures var r := TakeEvent(l, k, nb, StopEvent(p), aborting);
      && r.l == l.(procs := l.procs[p := l.procs[p].(running := false)], coros := Followed(l, k, l.coros[k]))
      && r.ups == [l.oper] && r.downs == []
  {
    assert Without(l, k).l.SetRunning(p, false).AllStopped();
  }

  /** As long as another process runs a stop changes its flag alone. */
  lemma OthersStillRun(l: Local, k: nat, nb: Neighbours, p: ProcId, q: ProcId, aborting: bool)
    requires k < |l.coros| && l.coros[k].Live? && l.coros[k].state == Restarting
    requires p < |l.procs| && q < |l.procs| && q != p && l.procs[q].running
    ensures TakeEvent(l, k, nb, StopEvent(p), aborting)
         == Effect(l.(procs := l.procs[p := l.procs[p].(running := false)], coros := Followed(l, k, l.coros[k])), [], [])
  {
    assert Without(l, k).l.SetRunning(p, false).procs[q].running;
  }

  /** A start makes it start over whatever still runs; any other command or report is met as a stop event is. */
  lemma MessageInRestarting(l: Local, k: nat, nb: Neighbours, m: Message)
    requires k < |l.coros| && l.coros[k].Live? && l.coros[k].state == Restarting && !m.Abort?
    ensures var t := l.coros[k];
      var r := TakeMessage(l, k, nb, m);
      var heard := if m.ChangeAdmin? then [l.oper] else [];
      var checks := (m.ChangeAdmin? && m.admin == AdminOffline) || m.ReportOper?;
      && (m.ChangeAdmin? && m.admin == AdminOnline ==> StartsOver(l, k, l, t.client, r) && r.ups == [])
      && (checks && l.AllStopped() && nb.parents.Keys == {} ==> StartsOver(l, k, l, t.client, r) && r.ups == heard)
      && (checks && l.AllStopped() && nb.parents.Keys != {} ==>
            r == Effect(l.(coros := Followed(l, k, t)), heard + [l.oper], []))
      && (checks && !l.AllStopped() ==> r == Effect(l.(coros := Followed(l, k, t)), heard, []))
      && (!m.ChangeAdmin? && !m.ReportOper? ==> r == Effect(l.(coros := Followed(l, k, t)), [], []))
  {
  }

  // ---------------------------------------------------------------- who is asked to stop

  /** Every running process is asked to stop and loses its count; every other one gives its connection back. */
  ghost predicate AllAsked(l: Local, r: Local) {
    && |r.procs| == |l.procs|
    && (forall p: ProcId :: p in r.stopRequested <==> p in l.stopRequested || (p < |l.procs| && l.procs[p].running))
    && forall p | 0 <= p < |l.procs| ::
         r.procs[p] == if l.procs[p].running then l.procs[p].(numRestarts := 0) else l.procs[p].(maybeConnected := false)
  }

  lemma AllAskedFrom(l: Local, i: ProcId)
    ensures var r := StopFrom(l, i);
      && r == l.(procs := r.procs, umbilicals := r.umbilicals, stopRequested := r.stopRequested)
      && |r.procs| == |l.procs|
      && (forall p: ProcId :: p in r.stopRequested <==>
            p in l.stopRequested || (i <= p < |l.procs| && l.procs[p].running))
      && forall p | 0 <= p < |l.procs| ::
           r.procs[p] == if p < i then l.procs[p]
                         else if l.procs[p].running then l.procs[p].(numRestarts := 0)
                         else l.procs[p].(maybeConnected := false)
    decreases |l.procs| - i
  {
    if i < |l.procs| {
      AllAskedFrom(StopProcess(l, i), i + 1);
    }
  }

  /** Exactly the listed processes that run are asked to stop, and nothing else of any process changes. */
  ghost predicate ListedAsked(l: Local, r: Local, ps: seq<ProcId>) {
    && |r.procs| == |l.procs|
    && (forall p: ProcId :: p in r.stopRequested <==>
          p in l.stopRequested || (p in ps && p < |l.procs| && l.procs[p].running))
    && forall p | 0 <= p < |l.procs| ::
         r.procs[p] == if p in ps && l.procs[p].running then l.procs[p].(numRestarts := 0) else l.procs[p]
  }

  lemma ListAsked(l: Local, ps: seq<ProcId>)
    ensures var r := StopListed(l, ps);
      r == l.(procs := r.procs, stopRequested := r.stopRequested) && ListedAsked(l, r, ps)
    decreases |ps|
  {
    if ps != [] {
      var l1 := if ps[0] < |l.procs| && l.procs[ps[0]].running then StopProcess(l, ps[0]) else l;
      ListAsked(l1, ps[1..]);
      assert forall p :: p in ps <==> p == ps[0] || p in ps[1..];
    }
  }

  /** A restart of processes, in Online: the listed ones, or all when none is listed. */
  lemma ProcessesRestarted(l: Local, k: nat, nb: Neighbours, c: ClientId, ps: seq<ProcId>)
    requires k < |l.coros| && l.coros[k].Live? && l.coros[k].state == Online
    ensures var r := TakeMessage(l, k, nb, RestartSome(c, ps));
      && r.ups == [] && r.downs == []
      && r.l == l.(procs := r.l.procs, umbilicals := r.l.umbilicals, stopRequested := r.l.stopRequested,
                   toRestart := r.l.toRestart, oper := RestartingProcesses,
                   coros := Followed(l, k, Scheduled(RestartingProcesses, c)))
      && (ps != [] ==> r.l.toRestart == ps && r.l.umbilicals == l.umbilicals && ListedAsked(l, r.l, ps))
      && (ps == [] ==>
            && AllAsked(l, r.l)
            && |r.l.toRestart| == |l.procs| && forall p | 0 <= p < |l.procs| :: r.l.toRestart[p] == p)
  {
    if ps == [] {
      AllAskedFrom(Without(l, k).l.(toRestart := seq(|l.procs|, p => p)), 0);
    } else {
      ListAsked(Without(l, k).l.(toRestart := ps), ps);
    }
  }

  // ---------------------------------------------------------------- RestartingProcesses

  /** The processes to restart have stopped. */
  predicate ListedStopped(l: Local) {
    forall p | p in l.toRestart && p < |l.procs| :: !l.procs[p].running
  }

  lemma ProcessesEntry(l: Local, k: nat, nb: Neighbours, launch: nat)
    requires k < |l.coros| && l.coros[k].Scheduled? && l.coros[k].state == RestartingProcesses
    ensures var c := l.coros[k].client;
      RunEntry(l, k, nb, launch) ==
        if ListedStopped(l) && nb.parents.Keys == {}
        then Effect(l.(oper := Connecting, coros := Followed(l, k, Scheduled(Connecting, c))), [], [])
        else Effect(l.(coros := Followed(l, k, Serving(RestartingProcesses, c, Connecting))),
                    if ListedStopped(l) then [l.oper] else [], [])
  {
  }

  /** They are connected again once they have stopped, or at once on a start. */
  lemma ProcessesMessage(l: Local, k: nat, nb: Neighbours, m: Message)
    requires k < |l.coros| && l.coros[k].Live? && l.coros[k].state == RestartingProcesses && !m.Abort?
    ensures var t := l.coros[k];
      var r := TakeMessage(l, k, nb, m);
      var starts := m.ChangeAdmin? && m.admin == AdminOnline;
      var checks := (m.ChangeAdmin? && m.admin == AdminOffline) || m.ReportOper? || m.RestartSome?;
      && r.ups == (if m.ChangeAdmin? && !starts then [l.oper] else []) && r.downs == []
      && r.l == if starts || (checks && ListedStopped(l))
                then l.(oper := Connecting, coros := Followed(l, k, Scheduled(Connecting, t.client)))
                else l.(coros := Followed(l, k, t))
  {
  }

  /** A start is remembered, so that the next stop of the process is taken for a crash. */
  lemma ProcessesStart(l: Local, k: nat, nb: Neighbours, p: ProcId, aborting: bool)
    requires k < |l.coros| && l.coros[k].Live? && l.coros[k].state == RestartingProcesses && p < |l.procs|
    ensures var t := l.coros[k];
      var l1 := l.(procs := l.procs[p := l.procs[p].(running := true)]);
      TakeEvent(l, k, nb, StartEvent(p), aborting) ==
        if ListedStopped(l1)
        then Effect(l1.(oper := Connecting, coros := Followed(l, k, Scheduled(Connecting, t.client))), [], [])
        else Effect(l1.(coros := Followed(l, k, t.(started := t.started + {p}))), [], [])
  {
    assert Without(l, k).l.SetRunning(p, true) == l.(coros := l.coros[..k] + l.coros[k+1..]).SetRunning(p, true);
  }

  lemma ProcessesStop(l: Local, k: nat, nb: Neighbours, p: ProcId, aborting: bool)
    requires k < |l.coros| && l.coros[k].Live? && l.coros[k].state == RestartingProcesses && p < |l.procs|
    requires p !in l.coros[k].started
    ensures var t := l.coros[k];
      var l1 := l.(procs := l.procs[p := l.procs[p].(running := false)]);
      TakeEvent(l, k, nb, StopEvent(p), aborting) ==
        if ListedStopped(l1)
        then Effect(l1.(oper := Connecting, coros := Followed(l, k, Scheduled(Connecting, t.client))), [], [])
        else Effect(l1.(coros := Followed(l, k, t)), [], [])
  {
    assert Without(l, k).l.SetRunning(p, false) == l.(coros := l.coros[..k] + l.coros[k+1..]).SetRunning(p, false);
  }

  // ---------------------------------------------------------------- restart commands elsewhere

  /** States that a restart of the subsystem takes to Restarting. */
  predicate HeedsRestart(state: OperState) {
    || state == StartingChildren || state == Connecting || state == StartingProcesses || state == Online
    || state == StoppingProcesses || state == StoppingChildren
  }

  lemma RestartHeard(l: Local, k: nat, nb: Neighbours, c: ClientId)
    requires k < |l.coros| && l.coros[k].Live? && l.coros[k].state != Broken && l.coros[k].state != Degraded
    ensures var t := l.coros[k];
      TakeMessage(l, k, nb, Restart(c)) ==
        if HeedsRestart(t.state)
        then Effect(l.(oper := Restarting, coros := Followed(l, k, Scheduled(Restarting, t.client))), [], [])
        else Effect(l.(coros := Followed(l, k, t)), [], [])
  {
  }

  /** A restart of processes while they are launched launches them again; a crashed one is taken up again where it can be. */
  lemma ProcessRestartHeard(l: Local, k: nat, nb: Neighbours, c: ClientId, ps: seq<ProcId>)
    requires k < |l.coros| && l.coros[k].Live? && l.coros[k].state != Broken && l.coros[k].state != Degraded
    ensures var t := l.coros[k];
      && (t.state == StartingProcesses ==>
            TakeMessage(l, k, nb, RestartSome(c, ps))
              == Effect(l.(oper := StartingProcesses, coros := Followed(l, k, Scheduled(StartingProcesses, c))), [], []))
      && (t.state != StartingProcesses && t.state != Online && t.state != RestartingProcesses ==>
            TakeMessage(l, k, nb, RestartSome(c, ps)) == Effect(l.(coros := Followed(l, k, t)), [], []))
  {
  }

  lemma CrashedRestartHeard(l: Local, k: nat, nb: Neighbours)
    requires k < |l.coros| && l.coros[k].Live?
    ensures var t := l.coros[k];
      var again := if t.state == Online then Connecting else StartingProcesses;
      TakeMessage(l, k, nb, RestartCrashed) ==
        if t.state == Online || t.state == StartingProcesses
        then Effect(l.(oper := again, coros := Followed(l, k, Scheduled(again, NO_CLIENT))), [], [])
        else Effect(l.(coros := Followed(l, k, t)), [], [])
  {
  }

  // ---------------------------------------------------------------- the wait before a restart

  lemma WaitEnds(l: Local, k: nat)
    requires k < |l.coros| && (l.coros[k].RestartWait? || l.coros[k].LaunchSleep?)
    ensures Expire(l, k)
         == Effect(l.(oper := Restarting, coros := Followed(l, k, Scheduled(Restarting, l.coros[k].client))), [], [])
  {
  }

  /** In the wait a start ends it, a stop event clears its flag, and anything but an abort changes nothing. */
  lemma WaitHears(l: Local, k: nat, nb: Neighbours, m: Message)
    requires k < |l.coros| && l.coros[k].RestartWait? && !m.Abort?
    ensures var t := l.coros[k];
      TakeMessage(l, k, nb, m) ==
        if m.ChangeAdmin? && m.admin == AdminOnline
        then Effect(l.(oper := Restarting, coros := Followed(l, k, Scheduled(Restarting, t.client))), [], [])
        else Effect(l.(coros := Followed(l, k, t)), [], [])
  {
  }

  lemma WaitSees(l: Local, k: nat, nb: Neighbours, v: Event, aborting: bool)
    requires k < |l.coros| && l.coros[k].RestartWait? && !v.DisconnectEvent?
    ensures var t := l.coros[k];
      TakeEvent(l, k, nb, v, aborting) ==
        if v.StopEvent? && v.proc < |l.procs|
        then Effect(l.(procs := l.procs[v.proc := l.procs[v.proc].(running := false)], coros := Followed(l, k, t)), [], [])
        else Effect(l.(coros := Followed(l, k, t)), [], [])
  {
  }

  // ---------------------------------------------------------------- fresh counts

  /** Going offline gives the subsystem and every process its restarts back, and takes every connection. */
  lemma OfflineResets(l: Local, k: nat, nb: Neighbours, launch: nat)
    requires k < |l.coros| && l.coros[k].Scheduled? && l.coros[k].state == Offline
    ensures var r := RunEntry(l, k, nb, launch);
      && r.l.numRestarts == 0 && r.l.restartDelay == l.restartDelay && |r.l.procs| == |l.procs|
      && forall p | 0 <= p < |l.procs| ::
           r.l.procs[p] == l.procs[p].(maybeConnected := false, numRestarts := 0,
                                       running := l.procs[p].running && !l.procs[p].maybeConnected)
  {
    AllReleased(Without(l, k).l.(numRestarts := 0), 0);
  }

  lemma AllReleased(l: Local, i: ProcId)
    ensures var r := DisconnectFrom(l, i);
      && r == l.(procs := r.procs, umbilicals := r.umbilicals) && |r.procs| == |l.procs|
      && forall p | 0 <= p < |l.procs| ::
           r.procs[p] == if p < i then l.procs[p]
                         else l.procs[p].(maybeConnected := false, running := l.procs[p].running && !l.procs[p].maybeConnected)
    decreases |l.procs| - i
  {
    if i < |l.procs| {
      AllReleased(DisconnectProcess(l, i), i + 1);
    }
  }
}
