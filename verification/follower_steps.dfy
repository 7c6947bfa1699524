/** The steps of a subsystem that restarts because a child of it does: it keeps all its connections. */
module FollowerSteps {
  import opened States
  import opened ClientBits
  import opened Umbilicals
  import opened SubsystemModel
  import opened Network
  import opened CascadeMeasure
  import opened Configs
  import opened OwedEvents
  import opened RestartSteps
  import Lone = LoneRestart
  import RestartLaws
  import CrashOutcomes
  import Conversations
  import Entries

  predicate Quiet(x: Sub) {
    x.l.launched == {} && x.l.stopRequested == {} && x.events == multiset{}
  }

  /** Every process holds its connection, and it is made. */
  predicate Whole(l: Local) {
    l.connectors == {} && Lone.AllHeld(l) && l.AllConnected()
  }

  /** The processes are being stopped. */
  predicate Stops(x: Sub) {
    && StopsOwed(x.l, x.events) && !x.l.AllStopped() && (forall v | v in x.events :: v.StopEvent?)
    && forall q | 0 <= q < |x.l.procs| && x.l.procs[q].running :: q in x.l.stopRequested || StopEvent(q) in x.events
  }

  /** The processes are being started. */
  predicate Starts(x: Sub) {
    && StartsOwed(x.l, x.events) && !x.l.AllRunning() && (forall v | v in x.events :: v.StartEvent?)
    && forall q | 0 <= q < |x.l.procs| && !x.l.procs[q].running :: q in x.l.launched || StartEvent(q) in x.events
  }

  /** From Online through a restart to Online. */
  predicate Following(x: Sub, c: ClientId) {
    var l := x.l;
    && |l.coros| == 1 && l.coros[0].client == c && (l.coros[0].Live? || l.coros[0].Scheduled?)
    && l.coros[0].state == l.oper && l.admin == AdminOnline && Whole(l)
    && (match l.oper
        case Online => l.AllRunning() && Quiet(x) && (IsLive(l, Online) ==> l.coros[0].next == Online)
        case Restarting =>
          if IsScheduled(l, Restarting) then l.AllRunning() && Quiet(x) else if l.AllStopped() then Quiet(x) else Stops(x)
        case StartingChildren => l.AllStopped() && Quiet(x) && (Awaits(l) ==> l.coros[0].next == Connecting)
        case Connecting => IsScheduled(l, Connecting) && l.AllStopped() && Quiet(x)
        case StartingProcesses =>
          if IsScheduled(l, StartingProcesses) then l.AllStopped() && Quiet(x) else l.coros[0].next == Online && Starts(x)
        case _ => false)
  }

  // ---------------------------------------------------------------- the way down

  ghost predicate Sinks1(x: Sub, a: Action, c: ClientId) {
    && Following(x, c) && Runs(x, a)
    && if a.DoMessage? then IsLive(x.l, Online) && x.queue[0].ReportOper? && x.queue[0].oper == Restarting
       else x.l.oper == Restarting && !Rests(x.l)
  }

  /** It goes on sinking, or starts over. */
  ghost predicate Sunk(x: Sub, nb: Neighbours, a: Action, c: ClientId)
    requires EnabledAt(x, a) && ByCoroutine(a)
  {
    var e := Turn(x, nb, a);
    && Following(After(x, nb, a), c) && |e.l.procs| == |x.l.procs|
    && if e.l.oper == StartingChildren then nb.parents.Keys == {} && StartsOver(x.l, InputOf(x, a), e, c)
       else e.l.oper == Restarting && (Rests(e.l) ==> nb.parents.Keys != {}) && Sinks(x.l, InputOf(x, a), e, c)
  }

  /** The report of its child is followed. */
  lemma ReportSinks(x: Sub, nb: Neighbours, a: Action, c: ClientId)
    requires Sinks1(x, a, c) && a.DoMessage?
    ensures Sunk(x, nb, a, c)
  {
    CrashOutcomes.ReportFollowed(x.l, 0, nb, x.queue[0].sender, Restarting);
  }

  lemma EntryOver(x: Sub, nb: Neighbours, a: Action, c: ClientId)
    requires Sinks1(x, a, c) && IsScheduled(x.l, Restarting) && x.l.procs == [] && nb.parents.Keys == {}
    ensures Sunk(x, nb, a, c)
  {
    RestartLaws.RootStartsOverAtOnce(x.l, 0, nb, a.launch);
  }

  lemma EntryRests(x: Sub, nb: Neighbours, a: Action, c: ClientId)
    requires Sinks1(x, a, c) && IsScheduled(x.l, Restarting) && x.l.procs == [] && nb.parents.Keys != {}
    ensures Sunk(x, nb, a, c)
  {
    RestartLaws.EntryWaits(x.l, 0, nb, a.launch);
    assert StopFrom(Without(x.l, 0).l, 0) == Without(x.l, 0).l;
    EntryRested(x, After(x, nb, a), c);
  }

  lemma EntryRested(x: Sub, y: Sub, c: ClientId)
    requires Following(x, c) && IsScheduled(x.l, Restarting) && x.l.procs == [] && y.events == x.events
    requires y.l == x.l.(coros := [Serving(Restarting, c, Restarting)])
    ensures Following(y, c) && Rests(y.l)
  {
  }

  lemma EntryAsks(x: Sub, nb: Neighbours, a: Action, c: ClientId)
    requires Sinks1(x, a, c) && IsScheduled(x.l, Restarting) && x.l.procs != []
    ensures Sunk(x, nb, a, c)
  {
    assert x.l.procs[0].running;
    AskedTurn(x.l, nb, a.launch);
    AskedStops(x, After(x, nb, a), c);
    AskedSinks(x.l, Turn(x, nb, a), c);
  }

  lemma AskedTurn(l: Local, nb: Neighbours, launch: nat)
    requires IsScheduled(l, Restarting) && l.oper == Restarting && l.AllRunning() && l.procs != []
    ensures var e := RunEntry(l, 0, nb, launch);
      && e.ups == [] && e.downs == [] && RestartLaws.AllAsked(l, e.l)
      && e.l == l.(procs := e.l.procs, stopRequested := e.l.stopRequested,
                   coros := [Serving(Restarting, l.coros[0].client, Restarting)])
  {
    assert l.procs[0].running;
    RestartLaws.EntryWaits(l, 0, nb, launch);
    RunningAsked(Without(l, 0).l, 0);
  }

  lemma AskedSinks(l: Local, e: Effect, c: ClientId)
    requires IsScheduled(l, Restarting) && l.oper == Restarting && l.coros[0].client == c && e.ups == [] && e.downs == []
    requires e.l == l.(procs := e.l.procs, stopRequested := e.l.stopRequested, coros := [Serving(Restarting, c, Restarting)])
    requires |e.l.procs| == |l.procs| && !e.l.AllStopped() && |e.l.stopRequested| <= |e.l.procs|
    ensures Sinks(l, Entry, e, c)
  {
  }

  lemma AskedStops(x: Sub, y: Sub, c: ClientId)
    requires Following(x, c) && IsScheduled(x.l, Restarting) && x.l.procs != [] && RestartLaws.AllAsked(x.l, y.l)
    requires y == Sub(x.l.(procs := y.l.procs, stopRequested := y.l.stopRequested,
                           coros := [Serving(Restarting, c, Restarting)]), x.queue, x.events)
    ensures Following(y, c) && !y.l.AllStopped() && |y.l.stopRequested| <= |y.l.procs|
  {
    assert forall q | 0 <= q < |x.l.procs| :: y.l.procs[q] == x.l.procs[q].(numRestarts := 0) && y.l.procs[q].running;
    assert y.l.procs[0].running;
    Lone.FewProcesses(y.l.stopRequested, |y.l.procs|);
  }

  /** Asking running processes to stop touches no connection. */
  lemma RunningAsked(l: Local, i: ProcId)
    requires l.AllRunning()
    ensures StopFrom(l, i).umbilicals == l.umbilicals
    decreases |l.procs| - i
  {
    if i < |l.procs| {
      RunningAsked(StopProcess(l, i), i + 1);
    }
  }

  /** The subsystem once the stop of process q has been taken. */
  function Stopped(x: Sub, q: ProcId): Sub
    requires q < |x.l.procs|
  {
    Sub(x.l.(procs := x.l.procs[q := x.l.procs[q].(running := false)]), x.queue, x.events - multiset{StopEvent(q)})
  }

  lemma OtherStops(x: Sub, nb: Neighbours, a: Action, c: ClientId, s: ProcId)
    requires Sinks1(x, a, c) && IsLive(x.l, Restarting) && a.DoEvent? && a.k == 0 && a.v.StopEvent?
    requires a.v.proc < |x.l.procs|
    requires s < |x.l.procs| && s != a.v.proc && x.l.procs[s].running && Whole(Stopped(x, a.v.proc).l)
    requires !Stopped(x, a.v.proc).l.AllStopped() ==> Stops(Stopped(x, a.v.proc))
    ensures Sunk(x, nb, a, c)
  {
    RestartLaws.OthersStillRun(x.l, 0, nb, a.v.proc, s, a.aborting);
    var y := Stopped(x, a.v.proc);
    assert y.l.procs[s].running;
    StopsOn(x, y, c);
    assert After(x, nb, a) == y && Turn(x, nb, a) == Effect(y.l, [], []);
    StopsOnSinks(x.l, Ev(a.v), y.l, c);
  }

  lemma StopsOn(x: Sub, y: Sub, c: ClientId)
    requires Following(x, c) && IsLive(x.l, Restarting) && y.l == x.l.(procs := y.l.procs) && !y.l.AllStopped()
    requires Whole(y.l) && Stops(y)
    ensures Following(y, c)
  {
  }

  lemma StopsOnSinks(l: Local, input: Input, r: Local, c: ClientId)
    requires IsLive(l, Restarting) && !l.AllStopped() && l.coros[0].client == c && r == l.(procs := r.procs)
    requires !r.AllStopped()
    requires input.Ev? && |r.procs| == |l.procs| && l.oper == Restarting
    ensures Sinks(l, input, Effect(r, [], []), c)
  {
  }

  lemma LastStops(x: Sub, nb: Neighbours, a: Action, c: ClientId)
    requires Sinks1(x, a, c) && IsLive(x.l, Restarting) && a.DoEvent? && a.k == 0 && a.v.StopEvent?
    requires a.v.proc < |x.l.procs|
    requires forall s: ProcId | s < |x.l.procs| && s != a.v.proc :: !x.l.procs[s].running
    requires Whole(Stopped(x, a.v.proc).l) && Quiet(Stopped(x, a.v.proc))
    ensures Sunk(x, nb, a, c)
  {
    if nb.parents.Keys == {} {
      RestartLaws.RootStartsOver(x.l, 0, nb, a.v.proc, a.aborting);
    } else {
      RestartLaws.LastStopReported(x.l, 0, nb, a.v.proc, a.aborting);
    }
    assert Stopped(x, a.v.proc).l.AllStopped();
  }

  lemma StopSinks(x: Sub, nb: Neighbours, a: Action, c: ClientId)
    requires Sinks1(x, a, c) && IsLive(x.l, Restarting)
    ensures Sunk(x, nb, a, c)
  {
    assert a.DoEvent? && a.k == 0 && a.v.StopEvent? && a.v.proc < |x.l.procs|;
    var z := Stopped(x, a.v.proc);
    StopMarked(x, a.v.proc, z);
    if s: ProcId :| s < |x.l.procs| && s != a.v.proc && x.l.procs[s].running {
      assert z.l.procs[s].running;
      OtherStops(x, nb, a, c, s);
    } else {
      assert z.l.AllStopped();
      LastStops(x, nb, a, c);
    }
  }

  lemma StopMarked(x: Sub, q: ProcId, z: Sub)
    requires Stops(x) && Whole(x.l) && q < |x.l.procs| && StopEvent(q) in x.events && z == Stopped(x, q)
    ensures Whole(z.l) && |z.events| == |x.events| - 1
    ensures if z.l.AllStopped() then Quiet(z) else Stops(z)
  {
    StopsStillOwed(x, q, z);
    if z.l.AllStopped() {
      assert z.l.stopRequested == {} && z.events == multiset{};
    }
  }

  /** Whatever stop is still owed is that of a process that still runs. */
  lemma StopsStillOwed(x: Sub, q: ProcId, z: Sub)
    requires Stops(x) && q < |x.l.procs| && StopEvent(q) in x.events && z == Stopped(x, q)
    ensures StopsOwed(z.l, z.events)
    ensures forall s | s in z.l.stopRequested :: s < |z.l.procs| && z.l.procs[s].running
    ensures forall v | v in z.events :: v.StopEvent? && v.proc < |z.l.procs| && z.l.procs[v.proc].running
    ensures forall s | 0 <= s < |x.l.procs| && s != q :: z.l.procs[s] == x.l.procs[s]
  {
    forall v | v in z.events ensures v in x.events && v != StopEvent(q) {
    }
  }

  /** Every step of the way down. */
  lemma FollowerSinks(x: Sub, nb: Neighbours, a: Action, c: ClientId)
    requires Sinks1(x, a, c)
    ensures Sunk(x, nb, a, c)
  {
    if a.DoMessage? {
      ReportSinks(x, nb, a, c);
    } else if IsLive(x.l, Restarting) {
      StopSinks(x, nb, a, c);
    } else {
      assert a.DoEntry? && a.k == 0;
      if x.l.procs != [] {
        EntryAsks(x, nb, a, c);
      } else if nb.parents.Keys == {} {
        EntryOver(x, nb, a, c);
      } else {
        EntryRests(x, nb, a, c);
      }
    }
  }

  // ---------------------------------------------------------------- the way up

  /** A step of a subsystem on its way up. */
  ghost predicate Rises1(x: Sub, nb: Neighbours, a: Action, c: ClientId) {
    && Following(x, c) && Rising(x.l) && Runs(x, a) && (Rests(x.l) ==> nb.parents.Keys != {})
    && (a.DoMessage? ==> Hearable(x.l, x.queue[0]))
    && (nb.children.Keys <= Noted(x.l) + HeardNow(InputOf(x, a)) ==> nb.ChildrenOnline())
  }

  ghost predicate Risen(x: Sub, nb: Neighbours, a: Action, c: ClientId)
    requires EnabledAt(x, a) && ByCoroutine(a)
  {
    && Following(After(x, nb, a), c) && |Turn(x, nb, a).l.procs| == |x.l.procs|
    && (Turn(x, nb, a).downs != [] ==> Rests(x.l))
    && Comes(x.l, InputOf(x, a), nb.children.Keys, Turn(x, nb, a), c)
  }

  lemma RestRises(x: Sub, nb: Neighbours, a: Action, c: ClientId)
    requires Rises1(x, nb, a, c) && Rests(x.l)
    ensures Risen(x, nb, a, c)
  {
    assert a.DoMessage? && a.k == 0;
    RestComes(x.l, nb, x.queue[0], c);
  }

  lemma ChildrenEntered(x: Sub, nb: Neighbours, a: Action, c: ClientId)
    requires Rises1(x, nb, a, c) && IsScheduled(x.l, StartingChildren)
    ensures Risen(x, nb, a, c)
  {
    assert a.DoEntry? && a.k == 0;
    EntryComes(x.l, nb, a.launch, c);
    Entries.StartingChildrenEntered(x.l, 0, nb, a.launch);
  }

  lemma ChildHeard(x: Sub, nb: Neighbours, a: Action, c: ClientId)
    requires Rises1(x, nb, a, c) && Awaits(x.l)
    ensures Risen(x, nb, a, c)
  {
    assert a.DoMessage? && a.k == 0 && x.queue[0].ReportOper?;
    var d, o := x.queue[0].sender, x.queue[0].oper;
    ReportNoted(x.l, nb, d, o);
    NotedComes(x.l, nb, d, o, Turn(x, nb, a), c);
  }

  /** All connections are there: Connecting is left at once, and the children are not told again. */
  lemma ConnectingRises(x: Sub, nb: Neighbours, a: Action, c: ClientId)
    requires Rises1(x, nb, a, c) && IsScheduled(x.l, Connecting)
    ensures Risen(x, nb, a, c)
  {
    assert a.DoEntry? && a.k == 0;
    Lone.HeldStays(Without(x.l, 0).l.(oper := Connecting), 0);
    assert Turn(x, nb, a)
        == Effect(x.l.(oper := StartingProcesses, coros := [Scheduled(StartingProcesses, c)]), [], []);
  }

  lemma LaunchingRises(x: Sub, nb: Neighbours, a: Action, c: ClientId)
    requires Rises1(x, nb, a, c) && IsScheduled(x.l, StartingProcesses)
    ensures Risen(x, nb, a, c)
  {
    assert a.DoEntry? && a.k == 0;
    if x.l.procs == [] {
      NothingLaunchedComes(x.l, nb, a.launch, c);
      NothingLaunched(x, After(x, nb, a), c);
    } else {
      LaunchComes(x.l, nb, a.launch, c);
      LaunchedStarts(x, After(x, nb, a), c);
    }
  }

  lemma NothingLaunchedComes(l: Local, nb: Neighbours, launch: nat, c: ClientId)
    requires IsScheduled(l, StartingProcesses) && l.oper == StartingProcesses && l.coros[0].client == c
    requires l.admin == AdminOnline && l.procs == []
    ensures var e := RunEntry(l, 0, nb, launch);
      Comes(l, Entry, nb.children.Keys, e, c) && e.l == l.(oper := Online, coros := [Scheduled(Online, c)])
  {
    Entries.NothingToLaunch(l, 0, nb, launch);
    GoingUpComes(l, Entry, nb.children.Keys, RunEntry(l, 0, nb, launch), c);
  }

  lemma LaunchComes(l: Local, nb: Neighbours, launch: nat, c: ClientId)
    requires IsScheduled(l, StartingProcesses) && l.oper == StartingProcesses && l.coros[0].client == c
    requires l.admin == AdminOnline && l.procs != [] && l.AllStopped() && l.launched == {} && launch >= |l.procs|
    ensures var e := RunEntry(l, 0, nb, launch);
      && Comes(l, Entry, nb.children.Keys, e, c) && (forall q: ProcId :: q in e.l.launched <==> q < |l.procs|)
      && e.l == l.(launched := e.l.launched, coros := [Serving(StartingProcesses, c, Online)])
  {
    Entries.AllLaunched(l, 0, nb, launch);
    var e := RunEntry(l, 0, nb, launch);
    Lone.FewProcesses(e.l.launched, |l.procs|);
    GoingUpComes(l, Entry, nb.children.Keys, e, c);
  }

  lemma NothingLaunched(x: Sub, y: Sub, c: ClientId)
    requires Following(x, c) && IsScheduled(x.l, StartingProcesses) && x.l.procs == [] && y.events == x.events
    requires y.l == x.l.(oper := Online, coros := [Scheduled(Online, c)])
    ensures Following(y, c)
  {
  }

  lemma LaunchedStarts(x: Sub, y: Sub, c: ClientId)
    requires Following(x, c) && IsScheduled(x.l, StartingProcesses) && x.l.procs != [] && y.events == x.events
    requires y.l == x.l.(launched := y.l.launched, coros := [Serving(StartingProcesses, c, Online)])
    requires forall q: ProcId :: q in y.l.launched <==> q < |x.l.procs|
    ensures Following(y, c) && |y.l.launched| <= |y.l.procs|
  {
    assert !y.l.procs[0].running;
    Lone.FewProcesses(y.l.launched, |y.l.procs|);
  }

  /** The subsystem once the start of process q has been taken. */
  function Started(x: Sub, q: ProcId): Sub
    requires q < |x.l.procs|
  {
    Sub(x.l.(procs := x.l.procs[q := x.l.procs[q].(running := true)]), x.queue, x.events - multiset{StartEvent(q)})
  }

  lemma StartMarked(x: Sub, q: ProcId, z: Sub)
    requires Starts(x) && Whole(x.l) && q < |x.l.procs| && StartEvent(q) in x.events && z == Started(x, q)
    ensures Whole(z.l) && |z.events| == |x.events| - 1
    ensures if z.l.AllRunning() then Quiet(z) else Starts(z)
  {
    StartsStillOwed(x, q, z);
    if z.l.AllRunning() {
      assert z.l.launched == {} && z.events == multiset{};
    }
  }

  /** Whatever start is still owed is that of a process that does not run yet. */
  lemma StartsStillOwed(x: Sub, q: ProcId, z: Sub)
    requires Starts(x) && q < |x.l.procs| && StartEvent(q) in x.events && z == Started(x, q)
    ensures StartsOwed(z.l, z.events)
    ensures forall s | s in z.l.launched :: s < |z.l.procs| && !z.l.procs[s].running
    ensures forall v | v in z.events :: v.StartEvent? && v.proc < |z.l.procs| && !z.l.procs[v.proc].running
    ensures forall s | 0 <= s < |x.l.procs| && s != q :: z.l.procs[s] == x.l.procs[s]
  {
    forall v | v in z.events ensures v in x.events && v != StartEvent(q) {
    }
  }

  lemma StartRises(x: Sub, nb: Neighbours, a: Action, c: ClientId)
    requires Rises1(x, nb, a, c) && IsLive(x.l, StartingProcesses) && a.DoEvent?
    ensures Risen(x, nb, a, c)
  {
    assert a.k == 0 && a.v.StartEvent? && a.v.proc < |x.l.procs|;
    var z := Started(x, a.v.proc);
    StartMarked(x, a.v.proc, z);
    assert Turn(x, nb, a) == TakeEvent(x.l, 0, nb, StartEvent(a.v.proc), false);
    StartComes(x.l, nb, a.v.proc, z.l, c);
    StartedFollows(x, z, After(x, nb, a), c);
  }

  lemma StartComes(l: Local, nb: Neighbours, q: ProcId, r: Local, c: ClientId)
    requires IsLive(l, StartingProcesses) && l.oper == StartingProcesses && l.coros[0].client == c
    requires l.coros[0].next == Online
    requires q < |l.procs| && r == l.(procs := l.procs[q := l.procs[q].(running := true)])
    ensures var e := TakeEvent(l, 0, nb, StartEvent(q), false);
      && Comes(l, Ev(StartEvent(q)), nb.children.Keys, e, c)
      && e.l == if r.AllRunning() then r.(oper := Online, coros := [Scheduled(Online, c)]) else r
  {
    Entries.StartingProcessesSees(l, 0, nb, q, false);
    GoingUpComes(l, Ev(StartEvent(q)), nb.children.Keys, TakeEvent(l, 0, nb, StartEvent(q), false), c);
  }

  lemma StartedFollows(x: Sub, z: Sub, y: Sub, c: ClientId)
    requires Following(x, c) && IsLive(x.l, StartingProcesses) && z.l == x.l.(procs := z.l.procs) && Whole(z.l)
    requires if z.l.AllRunning() then Quiet(z) else Starts(z)
    requires y.l == (if z.l.AllRunning() then z.l.(oper := Online, coros := [Scheduled(Online, c)]) else z.l)
    requires y.events == z.events
    ensures Following(y, c)
  {
  }

  lemma Ignored(x: Sub, nb: Neighbours, a: Action, c: ClientId)
    requires Rises1(x, nb, a, c) && a.DoMessage? && !Rests(x.l) && !Awaits(x.l)
    ensures Risen(x, nb, a, c)
  {
    var m := x.queue[0];
    assert a.k == 0 && m.ReportOper? && IsLive(x.l, x.l.oper);
    if x.l.oper == Online {
      CrashOutcomes.NotFollowedOnline(x.l, 0, nb, m.sender, m.oper);
    } else {
      assert x.l.oper == StartingProcesses && !x.l.AllRunning();
      Conversations.StartingProcessesIsTold(x.l, 0, nb, m.sender, m.oper);
    }
    LateComes(x.l, m, nb.children.Keys, Turn(x, nb, a), c);
    FollowingStill(x, After(x, nb, a), c);
  }

  lemma FollowingStill(x: Sub, y: Sub, c: ClientId)
    requires Following(x, c) && y.l == x.l && y.events == x.events
    ensures Following(y, c)
  {
  }

  lemma OnlineRises(x: Sub, nb: Neighbours, a: Action, c: ClientId)
    requires Rises1(x, nb, a, c) && IsScheduled(x.l, Online)
    ensures Risen(x, nb, a, c)
  {
    Entries.Reached(x.l, 0, nb, a.launch, Online);
  }

  /** Every step of the way up. */
  lemma FollowerRises(x: Sub, nb: Neighbours, a: Action, c: ClientId)
    requires Rises1(x, nb, a, c)
    ensures Risen(x, nb, a, c)
  {
    if Rests(x.l) {
      RestRises(x, nb, a, c);
    } else if Awaits(x.l) {
      ChildHeard(x, nb, a, c);
    } else if a.DoMessage? {
      Ignored(x, nb, a, c);
    } else {
      match x.l.oper {
        case StartingChildren => ChildrenEntered(x, nb, a, c);
        case Connecting => ConnectingRises(x, nb, a, c);
        case StartingProcesses =>
          if a.DoEvent? { StartRises(x, nb, a, c); } else { LaunchingRises(x, nb, a, c); }
        case Online => OnlineRises(x, nb, a, c);
      }
    }
  }

  // ---------------------------------------------------------------- answers of StageZero

  lemma FollowerAnswered(x: Sub, a: Action, c: ClientId)
    requires Following(x, c) && EnabledAt(x, a) && Lone.RestartAction(x, a) && !ByCoroutine(a)
    ensures Following(Surround(x, a), c)
  {
    if a.ProcStops? {
      StopAnswered(x, a, c);
    } else {
      StartAnswered(x, a, c);
    }
  }

  lemma StopAnswered(x: Sub, a: Action, c: ClientId)
    requires Following(x, c) && EnabledAt(x, a) && a.ProcStops?
    ensures Following(Surround(x, a), c)
  {
    assert IsLive(x.l, Restarting) && !x.l.AllStopped();
    assert Stops(Surround(x, a));
  }

  lemma StartAnswered(x: Sub, a: Action, c: ClientId)
    requires Following(x, c) && EnabledAt(x, a) && a.ProcStarts?
    ensures Following(Surround(x, a), c)
  {
    assert IsLive(x.l, StartingProcesses);
    assert Starts(Surround(x, a));
  }
}
