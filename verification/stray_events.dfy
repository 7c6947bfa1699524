/**
 * Events that are no business of the state that reads them: they make it look again at what it waits for,
 * and change nothing themselves.
 */
module StrayEvents {
  import opened States
  import opened ClientBits
  import opened Umbilicals
  import opened SubsystemModel
  import opened CrashOutcomes
  import Conversations

  /** Neither a loss nor news of one of the processes. */
  predicate Stray(l: Local, v: Event) {
    || v.ConnectEvent? || v.OtherEvent?
    || ((v.StartEvent? || v.StopEvent?) && v.proc >= |l.procs|)
  }

  lemma StrayStartingProcesses(l: Local, k: nat, nb: Neighbours, v: Event, aborting: bool)
    requires Conversations.Serves(l, k, StartingProcesses) && Stray(l, v) && !v.StopEvent?
    ensures var r := TakeEvent(l, k, nb, v, aborting);
      Conversations.Launched(l, k, l.coros[k], r, [], []) && r.l.admin == l.admin && r.l.clients == l.clients
  {
  }

  /** While processes are stopped a start is no news either: it is not marked. */
  lemma StrayStoppingProcesses(l: Local, k: nat, nb: Neighbours, v: Event, aborting: bool)
    requires Conversations.Serves(l, k, StoppingProcesses) && (Stray(l, v) || v.StartEvent?)
    ensures var r := TakeEvent(l, k, nb, v, aborting);
      Conversations.Drained(l, k, l.coros[k], r, []) && r.l.admin == l.admin && r.l.clients == l.clients
  {
  }

  /** In a restart it is met as a report is. */
  lemma StrayRestarting(l: Local, k: nat, nb: Neighbours, v: Event, aborting: bool, d: SubId, o: OperState)
    requires k < |l.coros| && l.coros[k].Live? && l.coros[k].state == Restarting && (Stray(l, v) || v.StartEvent?)
    ensures TakeEvent(l, k, nb, v, aborting) == TakeMessage(l, k, nb, ReportOper(d, o))
  {
  }

  lemma StrayRestartingProcesses(l: Local, k: nat, nb: Neighbours, v: Event, aborting: bool, d: SubId, o: OperState)
    requires k < |l.coros| && l.coros[k].Live? && l.coros[k].state == RestartingProcesses
    requires Stray(l, v) && (v.StopEvent? ==> v.proc !in l.coros[k].started)
    ensures TakeEvent(l, k, nb, v, aborting) == TakeMessage(l, k, nb, ReportOper(d, o))
  {
  }

  /** The stop of a process is no crash in a critical subsystem, in an abort of all, or of a process it does not have. */
  lemma StopIgnored(l: Local, k: nat, nb: Neighbours, p: ProcId, aborting: bool)
    requires k < |l.coros| && l.coros[k].Live? && (aborting || l.critical || p >= |l.procs|)
    requires l.coros[k].state == Online || (l.coros[k].state == RestartingProcesses && p in l.coros[k].started)
          || (l.coros[k].state == StartingProcesses && !aborting)
    ensures TakeEvent(l, k, nb, StopEvent(p), aborting)
         == Effect(l.(coros := Followed(l, k, Goes(l.coros[k], p))), [], [])
  {
  }

  /** Aborting while processes start, a stop only makes it look at them. */
  lemma StopInAbort(l: Local, k: nat, nb: Neighbours, p: ProcId)
    requires Conversations.Serves(l, k, StartingProcesses)
    ensures var r := TakeEvent(l, k, nb, StopEvent(p), true);
      Conversations.Launched(l, k, l.coros[k], r, [], []) && r.l.admin == l.admin && r.l.clients == l.clients
  {
  }

  /** Where a loss disconnects nobody it is any other event, once the client has closed its sockets. */
  lemma LossIsStray(l: Local, k: nat, nb: Neighbours, c: ComputeId, aborting: bool)
    requires k < |l.coros| && Serves(l.coros[k])
    requires l.coros[k].Live? ==> l.coros[k].state != Online && l.coros[k].state != StoppingProcesses
    ensures var closed := if c in l.umbilicals then l.(umbilicals := l.umbilicals[c := l.umbilicals[c].(alive := false)]) else l;
      TakeEvent(l, k, nb, DisconnectEvent(c), aborting) == TakeEvent(closed, k, nb, OtherEvent, aborting)
  {
    var closed := if c in l.umbilicals then l.(umbilicals := l.umbilicals[c := l.umbilicals[c].(alive := false)]) else l;
    assert Read(Without(l, k), DisconnectEvent(c)) == Without(closed, k);
  }

  /** An abort in the wait before a restart: the subsystem goes down, but the restart is scheduled all the same. */
  lemma AbortInWait(l: Local, k: nat, nb: Neighbours, emergency: bool)
    requires k < |l.coros| && l.coros[k].RestartWait?
    ensures var r := TakeMessage(l, k, nb, Abort(emergency));
      && r.ups == [] && r.downs == []
      && (l.critical && !emergency ==> r.l == l.(coros := Followed(l, k, l.coros[k])))
      && (emergency || !l.critical ==>
            && r.l == l.(admin := AdminOffline, oper := Restarting, clients := r.l.clients, procs := r.l.procs,
                         coros := Followed(l, k, Scheduled(Offline, NO_CLIENT)) + [Scheduled(Restarting, l.coros[k].client)])
            && r.l.clients.IsEmpty() && |r.l.procs| == |l.procs|
            && forall p | 0 <= p < |l.procs| :: r.l.procs[p] == l.procs[p].(running := false))
  {
  }
}
