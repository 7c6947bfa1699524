/**
 * What becomes of a subsystem when something fails: a process, a launch, a connection, a child, or
 * everything at once by an abort.
 */
module CrashOutcomes {
  import opened States
  import opened ClientBits
  import opened Umbilicals
  import opened SubsystemModel

  /** The coroutines but k, and then c. */
  function Followed(l: Local, k: nat, c: Coro): seq<Coro>
    requires k < |l.coros|
  {
    l.coros[..k] + l.coros[k+1..] + [c]
  }

  function Doubled(delay: nat): nat {
    if 2 * delay < MAX_RESTART_DELAY then 2 * delay else MAX_RESTART_DELAY
  }

  // ---------------------------------------------------------------- a crashed process

  /** Where the stop of a process counts as a crash of it. */
  predicate IsCrash(l: Local, t: Coro, p: ProcId) {
    && t.Live? && p < |l.procs| && l.oper == t.state && !l.critical
    && (t.state == Online || t.state == StartingProcesses || (t.state == RestartingProcesses && p in t.started))
  }

  /** Whether the process is restarted alone, or its subsystem with it. */
  predicate ByProcess(l: Local) {
    l.policy == ProcessOnly || l.oper == RestartingProcesses
  }

  /** The subsystem as it was but that process p no longer runs. */
  function Down(l: Local, p: ProcId): Local
    requires p < |l.procs|
  {
    l.(procs := l.procs[p := l.procs[p].(running := false)])
  }

  /** What the coroutine goes on with: it has taken the stop of a process that had come up again. */
  function Goes(t: Coro, p: ProcId): Coro
    requires t.Live?
  {
    if t.state == RestartingProcesses then t.(started := t.started - {p}) else t
  }

  ghost predicate CrashSpec(l: Local, k: nat, p: ProcId, r: Effect)
    requires k < |l.coros| && IsCrash(l, l.coros[k], p)
  {
    var t := l.coros[k];
    && r.ups == [] && r.downs == []
    // The budget of the subsystem is used up.
    && (!ByProcess(l) && l.policy == Automatic && l.numRestarts == l.maxRestarts ==>
          r.l == Down(l, p).(oper := Broken, coros := Followed(l, k, Scheduled(Broken, t.client))))
    // Somebody has to decide, or the budget of the process is used up.
    && ((!ByProcess(l) && l.policy == Manual) || (ByProcess(l) && l.procs[p].numRestarts == l.procs[p].maxRestarts) ==>
          r.l == Down(l, p).(oper := Degraded, coros := Followed(l, k, Scheduled(Degraded, t.client))))
    // The subsystem will restart as a whole.
    && (!ByProcess(l) && l.policy == Automatic && l.numRestarts != l.maxRestarts ==>
          r.l == Down(l, p).(coros := Followed(l, k, RestartWait(t.client)), numRestarts := l.numRestarts + 1,
                             restartDelay := Doubled(l.restartDelay)))
    // The process will restart alone.
    && (ByProcess(l) && l.procs[p].numRestarts != l.procs[p].maxRestarts ==>
          && r.l == Down(l, p).(coros := Followed(l, k, Goes(t, p)), delayed := l.delayed + 1, procs := r.l.procs)
          && r.l.procs == l.procs[p := l.procs[p].(running := false, numRestarts := l.procs[p].numRestarts + 1,
                                                   restartDelay := Doubled(l.procs[p].restartDelay))])
  }

  /** The four outcomes of a crash, in every state that acts on one. */
  lemma CrashOutcome(l: Local, k: nat, nb: Neighbours, p: ProcId)
    requires k < |l.coros| && IsCrash(l, l.coros[k], p)
    ensures CrashSpec(l, k, p, TakeEvent(l, k, nb, StopEvent(p), false))
  {
    var e := Without(l, k);
    assert e.l.SetRunning(p, false) == Down(e.l, p);
  }

  /** Broken, Degraded, a wait or a restart of the process: which of them, and that it is one of them. */
  lemma CrashLeadsTo(l: Local, k: nat, nb: Neighbours, p: ProcId)
    requires k < |l.coros| && IsCrash(l, l.coros[k], p)
    ensures var r := TakeEvent(l, k, nb, StopEvent(p), false).l;
      && (r.oper == Broken <==> l.policy == Automatic && l.oper != RestartingProcesses && l.numRestarts == l.maxRestarts)
      && (r.oper == Degraded <==>
            if l.policy == ProcessOnly || l.oper == RestartingProcesses
            then l.procs[p].numRestarts == l.procs[p].maxRestarts else l.policy == Manual)
      && (r.oper == Broken || r.oper == Degraded || r.oper == l.oper)
      && !r.procs[p].running && r.clients == l.clients && r.admin == l.admin
  {
    CrashOutcome(l, k, nb, p);
  }

  // ---------------------------------------------------------------- a launch that fails

  lemma FailedLaunch(l: Local, k: nat, nb: Neighbours, launch: nat)
    requires k < |l.coros| && l.coros[k].Scheduled? && l.coros[k].state == StartingProcesses
    requires l.admin == AdminOnline && launch < |l.procs|
    ensures var r := RunEntry(l, k, nb, launch);
      && r.ups == [] && r.downs == []
      && (forall p: ProcId :: p in r.l.launched <==> p in l.launched || (p < launch && !l.procs[p].running))
      && r.l == if l.numRestarts == l.maxRestarts
                then l.(oper := Broken, launched := r.l.launched,
                        coros := Followed(l, k, Scheduled(Broken, l.coros[k].client)))
                else l.(oper := StartingProcesses, launched := r.l.launched,
                        coros := Followed(l, k, LaunchSleep(l.coros[k].client)),
                        numRestarts := l.numRestarts + 1, restartDelay := Doubled(l.restartDelay))
  {
  }

  // ---------------------------------------------------------------- a child that fails

  /** The state a subsystem follows its child into. */
  predicate Follows(state: OperState, o: OperState) {
    || (o == Restarting && (state == Offline || state == Online))
    || (o == Broken && (state == StartingChildren || state == Online))
  }

  /** The report of a failed child is followed at once, with the client the state is served for. */
  lemma ReportFollowed(l: Local, k: nat, nb: Neighbours, d: SubId, o: OperState)
    requires k < |l.coros| && l.coros[k].Live? && Follows(l.coros[k].state, o)
    ensures TakeMessage(l, k, nb, ReportOper(d, o))
         == Effect(l.(oper := o, coros := Followed(l, k, Scheduled(o, l.coros[k].client))), [], [])
  {
  }

  /** Online, no other report is followed: not one of a Degraded child. */
  lemma NotFollowedOnline(l: Local, k: nat, nb: Neighbours, d: SubId, o: OperState)
    requires k < |l.coros| && l.coros[k].Live? && l.coros[k].state == Online && !Follows(Online, o)
    ensures TakeMessage(l, k, nb, ReportOper(d, o)) == Effect(l.(coros := Followed(l, k, l.coros[k])), [], [])
  {
  }

  // ---------------------------------------------------------------- aborts

  /** An abort in a serving state: an Offline subsystem ignores it, and a critical one unless it is an emergency. */
  lemma AbortOutcome(l: Local, k: nat, nb: Neighbours, emergency: bool)
    requires k < |l.coros| && l.coros[k].Live?
    ensures var r := TakeMessage(l, k, nb, Abort(emergency));
      && r.ups == [] && r.downs == []
      && (l.coros[k].state == Offline || (l.critical && !emergency) ==>
            r.l == l.(coros := Followed(l, k, l.coros[k])))
      && (l.coros[k].state != Offline && (emergency || !l.critical) ==>
            && r.l == l.(admin := AdminOffline, oper := Offline, clients := r.l.clients, procs := r.l.procs,
                         coros := Followed(l, k, Scheduled(Offline, NO_CLIENT)))
            && r.l.clients.IsEmpty() && |r.l.procs| == |l.procs|
            && forall p | 0 <= p < |l.procs| :: r.l.procs[p] == l.procs[p].(running := false))
  {
  }
}
