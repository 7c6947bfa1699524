/** The steps of the crashed subsystem itself: what it does by itself is what a restart by itself does. */
module StruckSteps {
  import opened States
  import opened ClientBits
  import opened Umbilicals
  import opened SubsystemModel
  import opened Network
  import opened CascadeMeasure
  import opened Configs
  import opened Alone
  import opened RestartSteps
  import Lone = LoneRestart
  import RestartLaws
  import CrashOutcomes
  import Conversations
  import Entries
  import ReferenceCounts
  import StrayEvents

  /** From the crash of process p on; m is the count of restarts before it. */
  ghost predicate Struck(x: Sub, p: ProcId, c: ClientId, m: int) {
    var l := x.l;
    && |l.coros| == 1 && l.coros[0].client == c && !l.critical && l.admin == AdminOnline
    && p < |l.procs| && Lone.OthersLinked(l, p)
    && (if l.coros[0].RestartWait? then l.oper == Online else !l.coros[0].LaunchSleep? && l.coros[0].state == l.oper)
    && if Awaits(l) || Rests(l) then
         (Awaits(l) ==> l.coros[0].next == Connecting) && l.numRestarts == m + 1 && Lone.Stopped(Unread(x), p)
       else
         && Lone.Restarts(Unread(x), p)
         && if l.numRestarts == m then IsLive(l, Online) && Lone.Crashing(Unread(x), p)
            else l.numRestarts == m + 1 && (IsLive(l, Online) ==> l.coros[0].next == Online && Lone.Recovered(Unread(x), p))
  }

  /** Something of it may still run. */
  predicate Sinking(l: Local, m: int) {
    l.numRestarts == m || (|l.coros| == 1 && l.coros[0].RestartWait?) || (l.oper == Restarting && !Rests(l))
  }

  lemma StruckUnread(x: Sub, y: Sub, p: ProcId, c: ClientId, m: int)
    requires Struck(x, p, c, m) && y.l == x.l && y.events == x.events
    ensures Struck(y, p, c, m)
  {
    assert Unread(y) == Unread(x);
  }

  // ---------------------------------------------------------------- as by itself

  /** Outside the waits it does what it would do without parents and children. */
  lemma AloneAlike(x: Sub, nb: Neighbours, a: Action)
    requires EnabledAt(x, a) && ByCoroutine(a) && !a.DoMessage? && |x.l.coros| == 1
    requires !In(x.l, StartingChildren) && !In(x.l, StoppingChildren)
    requires nb.parents.Keys == {} || (!In(x.l, Restarting) && !In(x.l, RestartingProcesses))
    ensures Turn(x, nb, a).l == Turn(Unread(x), NOBODY, a).l
  {
  }

  /** It also does so in Restarting with parents, as long as something runs. */
  lemma AlikeWhileRunning(x: Sub, nb: Neighbours, a: Action)
    requires EnabledAt(x, a) && ByCoroutine(a) && !a.DoMessage?
    requires (IsScheduled(x.l, Restarting) && !x.l.AllStopped()) || (IsLive(x.l, Restarting) && !Turn(x, nb, a).l.AllStopped())
    ensures Turn(x, nb, a).l == Turn(Unread(x), NOBODY, a).l
  {
  }

  ghost predicate Alike(x: Sub, nb: Neighbours, a: Action, p: ProcId, c: ClientId, m: int) {
    && Struck(x, p, c, m) && !Awaits(x.l) && !Rests(x.l) && Runs(x, a) && !a.DoMessage?
    && Turn(x, nb, a).l == Turn(Unread(x), NOBODY, a).l
  }

  lemma AlikeAdvances(x: Sub, nb: Neighbours, a: Action, p: ProcId, c: ClientId, m: int)
    requires Alike(x, nb, a, p, c, m)
    ensures Lone.Advances(Unread(x), Unread(After(x, nb, a)), p)
  {
    Lone.StepAdvances(Unread(x), a, p);
  }

  // ---------------------------------------------------------------- the way down

  /** A step of a sinking subsystem. */
  ghost predicate Sinks1(x: Sub, a: Action, p: ProcId, c: ClientId, m: int) {
    Struck(x, p, c, m) && Sinking(x.l, m) && Runs(x, a) && !a.DoMessage?
  }

  /** It goes on sinking, or starts over, and is struck still. */
  ghost predicate Sunk(x: Sub, nb: Neighbours, a: Action, p: ProcId, c: ClientId, m: int)
    requires EnabledAt(x, a) && ByCoroutine(a)
  {
    var e := Turn(x, nb, a);
    && Struck(After(x, nb, a), p, c, m) && e.l.numRestarts == m + 1 && Lone.SameComputes(x.l, e.l)
    && if e.l.oper == StartingChildren then nb.parents.Keys == {} && StartsOver(x.l, InputOf(x, a), e, c)
       else (Sinking(e.l, m) || Rests(e.l)) && (Rests(e.l) ==> nb.parents.Keys != {}) && Sinks(x.l, InputOf(x, a), e, c)
  }

  /** What a step on the way down does that leaves something running. */
  ghost predicate GoesOn(l: Local, e: Effect, c: ClientId, m: int) {
    && Keeps(l, e, c) && e.l.numRestarts == m + 1 && e.downs == [] && e.ups == []
    && (e.l.coros[0].RestartWait? || IsScheduled(e.l, Restarting) || (IsLive(e.l, Restarting) && !e.l.AllStopped()))
    && e.l.oper == (if e.l.coros[0].RestartWait? then Online else Restarting)
    && (DownRank(e.l) < DownRank(l) || (DownRank(e.l) == DownRank(l) && IsLive(l, Restarting)))
  }

  lemma GoingOnSinks(x: Sub, nb: Neighbours, a: Action, p: ProcId, c: ClientId, m: int)
    requires Sinks1(x, a, p, c, m) && Lone.Advances(Unread(x), Unread(After(x, nb, a)), p)
    requires GoesOn(x.l, Turn(x, nb, a), c, m)
    ensures Sunk(x, nb, a, p, c, m)
  {
    GoingOnStruck(x, nb, a, p, c, m);
    GoingOnPays(x, nb, a, p, c, m);
  }

  lemma GoingOnStruck(x: Sub, nb: Neighbours, a: Action, p: ProcId, c: ClientId, m: int)
    requires Sinks1(x, a, p, c, m) && Lone.Advances(Unread(x), Unread(After(x, nb, a)), p)
    requires GoesOn(x.l, Turn(x, nb, a), c, m)
    ensures Struck(After(x, nb, a), p, c, m)
  {
  }

  lemma GoingOnPays(x: Sub, nb: Neighbours, a: Action, p: ProcId, c: ClientId, m: int)
    requires Sinks1(x, a, p, c, m) && Lone.Advances(Unread(x), Unread(After(x, nb, a)), p)
    requires GoesOn(x.l, Turn(x, nb, a), c, m)
    ensures Economical(DownRank, x.l, InputOf(x, a), Turn(x, nb, a))
  {
    var x0, y0 := Unread(x), Unread(After(x, nb, a));
    assert Lone.Pending(y0) <= 2 * |y0.l.procs| + 2 && |y0.l.procs| == |x0.l.procs|;
    if DownRank(y0.l) == DownRank(x0.l) {
      StopRead(x, a, p, c, m);
      assert Lone.Stage(x0) == 3 && Lone.Stage(y0) == 3;
    }
  }

  /** What the step does with which it starts over. */
  ghost predicate Over(l: Local, e: Effect, c: ClientId, m: int) {
    && Keeps(l, e, c) && e.l.numRestarts == m + 1 && e.downs == [Down(AdminOnline, c)] && e.ups == []
    && IsScheduled(e.l, StartingChildren) && e.l.oper == StartingChildren
  }

  lemma OverSinks(x: Sub, nb: Neighbours, a: Action, p: ProcId, c: ClientId, m: int)
    requires Sinks1(x, a, p, c, m) && Lone.Advances(Unread(x), Unread(After(x, nb, a)), p)
    requires Over(x.l, Turn(x, nb, a), c, m) && nb.parents.Keys == {} && x.l.oper == Restarting
    ensures Sunk(x, nb, a, p, c, m)
  {
    var e, y := Turn(x, nb, a), After(x, nb, a);
    assert Struck(y, p, c, m);
    assert Economical(UpRank, x.l, InputOf(x, a), e);
  }

  lemma CrashSinks(x: Sub, nb: Neighbours, a: Action, p: ProcId, c: ClientId, m: int)
    requires Sinks1(x, a, p, c, m) && x.l.numRestarts == m
    ensures Sunk(x, nb, a, p, c, m)
  {
    CrashRead(x, a, p, c, m);
    CrashOutcomes.CrashOutcome(x.l, 0, nb, p);
    AloneAlike(x, nb, a);
    AlikeAdvances(x, nb, a, p, c, m);
    GoingOnSinks(x, nb, a, p, c, m);
  }

  lemma CrashRead(x: Sub, a: Action, p: ProcId, c: ClientId, m: int)
    requires Sinks1(x, a, p, c, m) && x.l.numRestarts == m
    ensures a == DoEvent(a.s, 0, StopEvent(p), false) && CrashOutcomes.IsCrash(x.l, x.l.coros[0], p)
    ensures x.l.policy == Automatic && x.l.numRestarts != x.l.maxRestarts
  {
    assert a.DoEvent? && a.v == StopEvent(p) && a.k == 0;
  }

  lemma WaitSinks(x: Sub, nb: Neighbours, a: Action, p: ProcId, c: ClientId, m: int)
    requires Sinks1(x, a, p, c, m) && x.l.coros[0].RestartWait?
    ensures Sunk(x, nb, a, p, c, m)
  {
    assert a.DoExpire? && a.k == 0;
    RestartLaws.WaitEnds(x.l, 0);
    AloneAlike(x, nb, a);
    AlikeAdvances(x, nb, a, p, c, m);
    GoingOnSinks(x, nb, a, p, c, m);
  }

  lemma EntrySinks(x: Sub, nb: Neighbours, a: Action, p: ProcId, c: ClientId, m: int)
    requires Sinks1(x, a, p, c, m) && IsScheduled(x.l, Restarting) && !x.l.AllStopped()
    ensures Sunk(x, nb, a, p, c, m)
  {
    EntryGoesOn(x.l, nb, a.launch, c);
    AlikeWhileRunning(x, nb, a);
    AlikeAdvances(x, nb, a, p, c, m);
    GoingOnSinks(x, nb, a, p, c, m);
  }

  lemma EntryGoesOn(l: Local, nb: Neighbours, launch: nat, c: ClientId)
    requires IsScheduled(l, Restarting) && l.oper == Restarting && l.coros[0].client == c && !l.AllStopped()
    ensures GoesOn(l, RunEntry(l, 0, nb, launch), c, l.numRestarts - 1)
  {
    RestartLaws.EntryWaits(l, 0, nb, launch);
    var r := RunEntry(l, 0, nb, launch).l;
    assert forall q | 0 <= q < |l.procs| :: r.procs[q].running == l.procs[q].running;
  }

  lemma EntryStartsOver(x: Sub, nb: Neighbours, a: Action, p: ProcId, c: ClientId, m: int)
    requires Sinks1(x, a, p, c, m) && IsScheduled(x.l, Restarting) && x.l.AllStopped() && nb.parents.Keys == {}
    ensures Sunk(x, nb, a, p, c, m)
  {
    RestartLaws.RootStartsOverAtOnce(x.l, 0, nb, a.launch);
    AloneAlike(x, nb, a);
    AlikeAdvances(x, nb, a, p, c, m);
    OverSinks(x, nb, a, p, c, m);
  }

  /** It rests, with nothing on its way. */
  lemma RestingSinks(x: Sub, nb: Neighbours, a: Action, p: ProcId, c: ClientId, m: int)
    requires Sinks1(x, a, p, c, m) && x.l.oper == Restarting && nb.parents.Keys != {}
    requires var e := Turn(x, nb, a);
      && Keeps(x.l, e, c) && e.l.numRestarts == m + 1 && e.downs == [] && e.ups == [Restarting] && Rests(e.l)
      && e.l.oper == Restarting && !e.l.critical && Lone.SameComputes(x.l, e.l) && Lone.OthersLinked(e.l, p)
      && Lone.Stopped(Unread(After(x, nb, a)), p)
    ensures Sunk(x, nb, a, p, c, m)
  {
    RestingStruck(x, After(x, nb, a), p, c, m);
    RestingPays(x.l, InputOf(x, a), Turn(x, nb, a));
  }

  lemma RestingPays(l: Local, input: Input, e: Effect)
    requires Rests(e.l) && !Rests(l) && l.oper == Restarting && (IsScheduled(l, Restarting) || IsLive(l, Restarting))
    requires |e.l.procs| == |l.procs|
    requires e.downs == [] && e.ups == [Restarting]
    requires e.l.launched == {} && e.l.stopRequested == {} && e.l.connectors == {}
    ensures Economical(DownRank, l, input, e)
  {
  }

  lemma RestingStruck(x: Sub, y: Sub, p: ProcId, c: ClientId, m: int)
    requires Struck(x, p, c, m) && Rests(y.l) && y.l.coros[0].client == c && y.l.admin == AdminOnline && !y.l.critical
    requires y.l.oper == Restarting && y.l.numRestarts == m + 1
    requires Lone.SameComputes(x.l, y.l) && Lone.OthersLinked(y.l, p) && Lone.Stopped(Unread(y), p)
    ensures Struck(y, p, c, m)
  {
  }

  /** With parents and nothing running it gives all connections back at once, that of the crashed process alone. */
  lemma EntryRests(x: Sub, nb: Neighbours, a: Action, p: ProcId, c: ClientId, m: int)
    requires Sinks1(x, a, p, c, m) && IsScheduled(x.l, Restarting) && x.l.AllStopped() && nb.parents.Keys != {}
    ensures Sunk(x, nb, a, p, c, m)
  {
    RestartLaws.EntryWaits(x.l, 0, nb, a.launch);
    var l, r := Without(x.l, 0).l, Turn(x, nb, a).l;
    assert r == StopFrom(l, 0).(coros := [Serving(Restarting, c, Restarting)]);
    EntryUnlinks(l, r, p, c);
    RestingSinks(x, nb, a, p, c, m);
  }

  lemma EntryUnlinks(l: Local, r: Local, p: ProcId, c: ClientId)
    requires p < |l.procs| && Lone.OthersLinked(l, p) && Lone.Linked(l, p) && ReferenceCounts.Accounted(l)
    requires forall q | 0 <= q < |l.procs| :: l.procs[q].running <==> q != p
    requires r == StopFrom(l, 0).(coros := [Serving(Restarting, c, Restarting)])
    ensures Lone.SameComputes(l, r) && Lone.OthersLinked(r, p) && Lone.Unlinked(r, p)
    ensures l.AllStopped() && l.stopRequested == {} ==> r.AllStopped() && r.stopRequested == {} && r.connectors == l.connectors
  {
    Lone.StopsOthers(l, p, 0);
    Lone.OthersStopped(l, StopFrom(l, 0), p);
    Lone.SharedAlike(StopFrom(l, 0), r, p);
    RestartLaws.AllAskedFrom(l, 0);
  }

  lemma StopSinks(x: Sub, nb: Neighbours, a: Action, p: ProcId, c: ClientId, m: int)
    requires Sinks1(x, a, p, c, m) && IsLive(x.l, Restarting) && !Turn(x, nb, a).l.AllStopped()
    ensures Sunk(x, nb, a, p, c, m)
  {
    StopRead(x, a, p, c, m);
    StopGoesOn(x.l, nb, a.v.proc, c);
    AlikeWhileRunning(x, nb, a);
    AlikeAdvances(x, nb, a, p, c, m);
    GoingOnSinks(x, nb, a, p, c, m);
  }

  lemma StopRead(x: Sub, a: Action, p: ProcId, c: ClientId, m: int)
    requires Sinks1(x, a, p, c, m) && IsLive(x.l, Restarting)
    ensures a.DoEvent? && a.v.StopEvent? && a.k == 0 && !a.aborting && a.v.proc < |x.l.procs| && x.l.oper == Restarting
    ensures x.l.numRestarts == m + 1 && Lone.Restarts(Unread(x), p) && Lone.Stops(Unread(x), p)
  {
  }

  lemma StopGoesOn(l: Local, nb: Neighbours, q: ProcId, c: ClientId)
    requires IsLive(l, Restarting) && l.oper == Restarting && l.coros[0].client == c && q < |l.procs| && !l.AllStopped()
    ensures var e := TakeEvent(l, 0, nb, StopEvent(q), false);
      !e.l.AllStopped() ==> GoesOn(l, e, c, l.numRestarts - 1)
  {
    var r := TakeEvent(l, 0, nb, StopEvent(q), false).l;
    if s: ProcId :| s < |l.procs| && s != q && l.procs[s].running {
      RestartLaws.OthersStillRun(l, 0, nb, q, s, false);
    } else if nb.parents.Keys == {} {
      RestartLaws.RootStartsOver(l, 0, nb, q, false);
    } else {
      RestartLaws.LastStopReported(l, 0, nb, q, false);
    }
  }

  lemma LastStopStartsOver(x: Sub, nb: Neighbours, a: Action, p: ProcId, c: ClientId, m: int)
    requires Sinks1(x, a, p, c, m) && IsLive(x.l, Restarting) && Turn(x, nb, a).l.AllStopped() && nb.parents.Keys == {}
    ensures Sunk(x, nb, a, p, c, m)
  {
    StopRead(x, a, p, c, m);
    OnlyThisRuns(x, nb, a);
    RestartLaws.RootStartsOver(x.l, 0, nb, a.v.proc, a.aborting);
    AloneAlike(x, nb, a);
    AlikeAdvances(x, nb, a, p, c, m);
    OverSinks(x, nb, a, p, c, m);
  }

  lemma OnlyThisRuns(x: Sub, nb: Neighbours, a: Action)
    requires EnabledAt(x, a) && a.DoEvent? && a.v.StopEvent? && a.k == 0 && IsLive(x.l, Restarting)
    requires Turn(x, nb, a).l.AllStopped()
    ensures forall q | 0 <= q < |x.l.procs| && q != a.v.proc :: !x.l.procs[q].running
  {
    var r := Turn(x, nb, a).l;
    assert forall q | 0 <= q < |x.l.procs| && q != a.v.proc :: r.procs[q] == x.l.procs[q];
  }

  lemma LastStopRests(x: Sub, nb: Neighbours, a: Action, p: ProcId, c: ClientId, m: int)
    requires Sinks1(x, a, p, c, m) && IsLive(x.l, Restarting) && Turn(x, nb, a).l.AllStopped() && nb.parents.Keys != {}
    ensures Sunk(x, nb, a, p, c, m)
  {
    StopRead(x, a, p, c, m);
    OnlyThisRuns(x, nb, a);
    var q := a.v.proc;
    RestartLaws.LastStopReported(x.l, 0, nb, q, a.aborting);
    var z := Sub(x.l.SetRunning(q, false), [], x.events - multiset{a.v});
    Lone.StopMarked(Unread(x), q, p, z);
    Lone.LastStopped(Unread(x), q, p, z);
    assert Unread(After(x, nb, a)) == z;
    RestingSinks(x, nb, a, p, c, m);
  }

  /** Every step of the way down. */
  lemma StruckSinks(x: Sub, nb: Neighbours, a: Action, p: ProcId, c: ClientId, m: int)
    requires Sinks1(x, a, p, c, m)
    ensures Sunk(x, nb, a, p, c, m)
  {
    if x.l.numRestarts == m {
      CrashSinks(x, nb, a, p, c, m);
    } else if x.l.coros[0].RestartWait? {
      WaitSinks(x, nb, a, p, c, m);
    } else if x.l.coros[0].Scheduled? {
      if !x.l.AllStopped() {
        EntrySinks(x, nb, a, p, c, m);
      } else if nb.parents.Keys == {} {
        EntryStartsOver(x, nb, a, p, c, m);
      } else {
        EntryRests(x, nb, a, p, c, m);
      }
    } else {
      if !Turn(x, nb, a).l.AllStopped() {
        StopSinks(x, nb, a, p, c, m);
      } else if nb.parents.Keys == {} {
        LastStopStartsOver(x, nb, a, p, c, m);
      } else {
        LastStopRests(x, nb, a, p, c, m);
      }
    }
  }

  // ---------------------------------------------------------------- the way up

  /** A step of a subsystem on its way up. */
  ghost predicate Rises1(x: Sub, nb: Neighbours, a: Action, p: ProcId, c: ClientId, m: int) {
    && Struck(x, p, c, m) && !Sinking(x.l, m) && Runs(x, a) && (Rests(x.l) ==> nb.parents.Keys != {})
    && (a.DoMessage? ==> Hearable(x.l, x.queue[0]))
    && (nb.children.Keys <= Noted(x.l) + HeardNow(InputOf(x, a)) ==> nb.ChildrenOnline())
  }

  ghost predicate Risen(x: Sub, nb: Neighbours, a: Action, p: ProcId, c: ClientId, m: int)
    requires EnabledAt(x, a) && ByCoroutine(a)
  {
    var e := Turn(x, nb, a);
    && Struck(After(x, nb, a), p, c, m) && !Sinking(e.l, m) && Lone.SameComputes(x.l, e.l)
    && Comes(x.l, InputOf(x, a), nb.children.Keys, e, c)
  }

  /** Told to start it starts over; whatever else it hears, it says again that it rests. */
  lemma RestRises(x: Sub, nb: Neighbours, a: Action, p: ProcId, c: ClientId, m: int)
    requires Rises1(x, nb, a, p, c, m) && Rests(x.l)
    ensures Risen(x, nb, a, p, c, m)
  {
    assert a.DoMessage? && a.k == 0;
    RestartLaws.MessageInRestarting(x.l, 0, nb, x.queue[0]);
    var y := After(x, nb, a);
    if x.queue[0].ChangeAdmin? {
      StoppedStarts(x, y, p);
    } else {
      StruckUnread(x, y, p, c, m);
    }
  }

  /** Stopped, it is ready for the next state of the way up. */
  lemma StoppedStarts(x: Sub, y: Sub, p: ProcId)
    requires p < |x.l.procs| && Lone.OthersLinked(x.l, p) && Lone.Stopped(Unread(x), p) && !x.l.critical
    requires x.l.admin == AdminOnline && y.events == x.events
    requires y.l == x.l.(oper := y.l.oper, coros := y.l.coros) && IsScheduled(y.l, y.l.oper)
    requires y.l.oper == StartingChildren || y.l.oper == Connecting
    ensures Lone.SameComputes(x.l, y.l) && Lone.Restarts(Unread(y), p)
  {
    Lone.SharedAlike(x.l, y.l, p);
    assert Lone.Stopped(Unread(y), p);
  }

  /** Stopped, it can wait for its children. */
  lemma StoppedAwaits(x: Sub, y: Sub, p: ProcId)
    requires p < |x.l.procs| && Lone.OthersLinked(x.l, p) && Lone.Stopped(Unread(x), p) && y.events == x.events
    requires y.l == x.l.(oper := y.l.oper, coros := y.l.coros)
    ensures Lone.SameComputes(x.l, y.l) && Lone.Stopped(Unread(y), p)
  {
    Lone.SharedAlike(x.l, y.l, p);
  }

  /** With children it waits for them; without any it goes on at once. */
  lemma ChildrenEntered(x: Sub, nb: Neighbours, a: Action, p: ProcId, c: ClientId, m: int)
    requires Rises1(x, nb, a, p, c, m) && IsScheduled(x.l, StartingChildren)
    ensures Risen(x, nb, a, p, c, m)
  {
    assert a.DoEntry? && a.k == 0;
    Entries.StartingChildrenEntered(x.l, 0, nb, a.launch);
    var y := After(x, nb, a);
    if nb.children.Keys == {} {
      StoppedStarts(x, y, p);
    } else {
      StoppedAwaits(x, y, p);
    }
  }

  /** A report of a child is noted if it says Online; the last one ends the wait. */
  lemma ChildHeard(x: Sub, nb: Neighbours, a: Action, p: ProcId, c: ClientId, m: int)
    requires Rises1(x, nb, a, p, c, m) && Awaits(x.l)
    ensures Risen(x, nb, a, p, c, m)
  {
    assert a.DoMessage? && a.k == 0 && x.queue[0].ReportOper?;
    var d, o := x.queue[0].sender, x.queue[0].oper;
    ReportNoted(x.l, nb, d, o);
    NotedComes(x.l, nb, d, o, Turn(x, nb, a), c);
    NotedStruck(x, After(x, nb, a), p, c, m);
  }

  lemma NotedStruck(x: Sub, y: Sub, p: ProcId, c: ClientId, m: int)
    requires Struck(x, p, c, m) && Awaits(x.l) && y.events == x.events
    requires y.l == x.l.(oper := y.l.oper, coros := y.l.coros)
    requires || (Awaits(y.l) && y.l.oper == StartingChildren && y.l.coros[0].next == Connecting)
             || (IsScheduled(y.l, Connecting) && y.l.oper == Connecting)
    requires y.l.coros[0].client == c
    ensures Struck(y, p, c, m) && !Sinking(y.l, m) && Lone.SameComputes(x.l, y.l)
  {
    if Awaits(y.l) {
      StoppedAwaits(x, y, p);
    } else {
      StoppedStarts(x, y, p);
    }
  }

  // What it does by itself.

  ghost predicate ByItself(x: Sub, nb: Neighbours, a: Action, p: ProcId, c: ClientId, m: int) {
    && Rises1(x, nb, a, p, c, m) && !a.DoMessage?
    && (x.l.oper == Connecting || x.l.oper == StartingProcesses || x.l.oper == Online)
  }

  lemma ByItselfRises(x: Sub, nb: Neighbours, a: Action, p: ProcId, c: ClientId, m: int)
    requires ByItself(x, nb, a, p, c, m) && GoesUp(x.l, Turn(x, nb, a), c) && Turn(x, nb, a).l.numRestarts == m + 1
    requires x.l.coros[0].Scheduled? ==> UpRank(Turn(x, nb, a).l) < UpRank(x.l)
    ensures Risen(x, nb, a, p, c, m)
  {
    AloneAlike(x, nb, a);
    AlikeAdvances(x, nb, a, p, c, m);
    GoingUpStruck(x, nb, a, p, c, m);
    GoingUpPays(x, nb, a, p, c, m);
    GoingUpComes(x.l, InputOf(x, a), nb.children.Keys, Turn(x, nb, a), c);
  }

  lemma GoingUpStruck(x: Sub, nb: Neighbours, a: Action, p: ProcId, c: ClientId, m: int)
    requires ByItself(x, nb, a, p, c, m) && Lone.Advances(Unread(x), Unread(After(x, nb, a)), p)
    requires GoesUp(x.l, Turn(x, nb, a), c) && Turn(x, nb, a).l.numRestarts == m + 1
    ensures Struck(After(x, nb, a), p, c, m) && !Sinking(Turn(x, nb, a).l, m)
  {
    var y := After(x, nb, a);
    NotAgain(Unread(x), Unread(y), p);
  }

  /** A subsystem that is back online is not back before the crash. */
  lemma NotAgain(x: Sub, y: Sub, p: ProcId)
    requires Lone.Restarts(x, p) && Lone.Advances(x, y, p)
    requires IsLive(x.l, Online) ==> Lone.Recovered(x, p)
    ensures IsLive(y.l, Online) ==> Lone.Recovered(y, p)
  {
  }

  lemma GoingUpPays(x: Sub, nb: Neighbours, a: Action, p: ProcId, c: ClientId, m: int)
    requires ByItself(x, nb, a, p, c, m) && Lone.Advances(Unread(x), Unread(After(x, nb, a)), p)
    requires GoesUp(x.l, Turn(x, nb, a), c) && Struck(After(x, nb, a), p, c, m) && !Sinking(After(x, nb, a).l, m)
    requires x.l.coros[0].Scheduled? ==> UpRank(Turn(x, nb, a).l) < UpRank(x.l)
    ensures Economical(UpRank, x.l, InputOf(x, a), Turn(x, nb, a))
  {
    if x.l.coros[0].Live? {
      OnEvent(x, nb, a, p, c, m);
    }
    PaysBetween(x, After(x, nb, a), InputOf(x, a), Turn(x, nb, a), p, c, m);
  }

  lemma PaysBetween(x: Sub, y: Sub, input: Input, e: Effect, p: ProcId, c: ClientId, m: int)
    requires Struck(x, p, c, m) && Struck(y, p, c, m) && !Sinking(x.l, m) && !Sinking(y.l, m) && e.l == y.l
    requires x.l.oper == Connecting || x.l.oper == StartingProcesses || x.l.oper == Online
    requires Lone.Advances(Unread(x), Unread(y), p) && GoesUp(x.l, e, c)
    requires if x.l.coros[0].Live? then input.Ev? && |y.events| == |x.events| - 1 else UpRank(y.l) < UpRank(x.l)
    ensures Economical(UpRank, x.l, input, e)
  {
    RanksAre(x, y, p, c, m);
    NearerPays(Unread(x), Unread(y), p, input, e);
  }

  lemma RanksAre(x: Sub, y: Sub, p: ProcId, c: ClientId, m: int)
    requires Struck(x, p, c, m) && Struck(y, p, c, m) && !Sinking(x.l, m) && !Sinking(y.l, m)
    requires !In(x.l, StartingChildren) && !In(y.l, StartingChildren) && !Rests(x.l) && !Rests(y.l)
    requires x.l.oper == Connecting || x.l.oper == StartingProcesses || x.l.oper == Online
    requires y.l.oper == Connecting || y.l.oper == StartingProcesses || y.l.oper == Online
    ensures UpRank(x.l) == 2 * (10 - Lone.Stage(Unread(x))) && UpRank(y.l) == 2 * (10 - Lone.Stage(Unread(y)))
  {
    StageOfRank(Unread(x), p);
    StageOfRank(Unread(y), p);
  }

  lemma NearerPays(x: Sub, y: Sub, p: ProcId, input: Input, e: Effect)
    requires Lone.Restarts(x, p) && Lone.Advances(x, y, p) && e.l == y.l && |e.ups| <= 2 && |e.downs| <= 1
    requires UpRank(x.l) == 2 * (10 - Lone.Stage(x)) && UpRank(y.l) == 2 * (10 - Lone.Stage(y))
    requires UpRank(y.l) == UpRank(x.l) ==> input.Ev? && e.ups == [] && e.downs == [] && |y.events| == |x.events| - 1
    ensures Economical(UpRank, x.l, input, e)
  {
    assert Lone.Pending(y) <= 2 * |y.l.procs| + 2;
  }

  lemma StageOfRank(x: Sub, p: ProcId)
    requires Lone.Restarts(x, p) && (IsLive(x.l, Online) ==> Lone.Recovered(x, p))
    requires x.l.oper == Connecting || x.l.oper == StartingProcesses || x.l.oper == Online
    requires !x.l.coros[0].RestartWait?
    ensures UpRank(x.l) == 2 * (10 - Lone.Stage(x))
  {
  }

  /** What it has to do by itself, and what it has to do it with. */
  lemma OnEntry(x: Sub, nb: Neighbours, a: Action, p: ProcId, c: ClientId, m: int)
    requires ByItself(x, nb, a, p, c, m) && x.l.coros[0].Scheduled?
    ensures a.DoEntry? && a.k == 0 && Enters(x.l, x.l.oper, c) && x.l.procs != [] && a.launch >= |x.l.procs|
    ensures x.l.numRestarts == m + 1
  {
  }

  lemma OnEvent(x: Sub, nb: Neighbours, a: Action, p: ProcId, c: ClientId, m: int)
    requires ByItself(x, nb, a, p, c, m) && x.l.coros[0].Live?
    ensures a.DoEvent? && a.k == 0 && !a.aborting && Attends(x.l, x.l.oper, c) && x.l.numRestarts == m + 1
    ensures a.v.ConnectEvent? || (x.l.oper == StartingProcesses && a.v.StartEvent? && a.v.proc < |x.l.procs|)
    ensures x.l.oper == Connecting ==> x.l.AllConnected()
    ensures x.l.oper != Connecting ==> x.l.coros[0].next == Online
  {
  }

  // What it makes of a report that comes late.

  ghost predicate Late(x: Sub, nb: Neighbours, a: Action, p: ProcId, c: ClientId, m: int) {
    && Rises1(x, nb, a, p, c, m) && a.DoMessage?
    && (x.l.oper == Connecting || x.l.oper == StartingProcesses || x.l.oper == Online)
  }

  lemma LateUnchanged(x: Sub, nb: Neighbours, a: Action, p: ProcId, c: ClientId, m: int)
    requires Late(x, nb, a, p, c, m)
    requires var e := Turn(x, nb, a); e.l == x.l && e.downs == [] && (e.ups == [] || (x.l.oper == StartingProcesses && e.ups == [x.l.oper]))
    ensures Risen(x, nb, a, p, c, m)
  {
    assert a.k == 0 && IsLive(x.l, x.l.oper);
    LateComes(x.l, x.queue[0], nb.children.Keys, Turn(x, nb, a), c);
    StruckUnread(x, After(x, nb, a), p, c, m);
  }

  lemma ConnectingReads(x: Sub, nb: Neighbours, a: Action, p: ProcId, c: ClientId, m: int)
    requires Late(x, nb, a, p, c, m) && x.l.oper == Connecting
    ensures Risen(x, nb, a, p, c, m)
  {
    assert a.k == 0 && IsLive(x.l, Connecting);
    Conversations.ConnectingIsTold(x.l, 0, nb, x.queue[0].sender, x.queue[0].oper);
    if Conversations.Linked(x.l) {
      ConnectedStruck(x, After(x, nb, a), p, c, m);
      assert Turn(x, nb, a).l.launched == {};
    } else {
      LateUnchanged(x, nb, a, p, c, m);
    }
  }

  /** The connection was made just before; the news of it comes later. */
  lemma ConnectedStruck(x: Sub, y: Sub, p: ProcId, c: ClientId, m: int)
    requires Struck(x, p, c, m) && IsLive(x.l, Connecting) && Conversations.Linked(x.l) && y.events == x.events
    requires y.l == x.l.(oper := StartingProcesses, coros := [Scheduled(StartingProcesses, c)])
    ensures Struck(y, p, c, m) && Lone.SameComputes(x.l, y.l)
  {
    Lone.SharedAlike(x.l, y.l, p);
    assert Lone.Connects(Unread(x), p) && Lone.Own(x.l, p).IsConnected();
    assert Lone.Connected(Unread(y), p);
  }

  lemma StartingReads(x: Sub, nb: Neighbours, a: Action, p: ProcId, c: ClientId, m: int)
    requires Late(x, nb, a, p, c, m) && x.l.oper == StartingProcesses
    ensures Risen(x, nb, a, p, c, m)
  {
    assert a.k == 0 && IsLive(x.l, StartingProcesses) && !x.l.AllRunning();
    Conversations.StartingProcessesIsTold(x.l, 0, nb, x.queue[0].sender, x.queue[0].oper);
    LateUnchanged(x, nb, a, p, c, m);
  }

  lemma OnlineReads(x: Sub, nb: Neighbours, a: Action, p: ProcId, c: ClientId, m: int)
    requires Late(x, nb, a, p, c, m) && x.l.oper == Online
    ensures Risen(x, nb, a, p, c, m)
  {
    assert a.k == 0 && IsLive(x.l, Online);
    CrashOutcomes.NotFollowedOnline(x.l, 0, nb, x.queue[0].sender, x.queue[0].oper);
    LateUnchanged(x, nb, a, p, c, m);
  }

  /** Every step of the way up. */
  lemma StruckRises(x: Sub, nb: Neighbours, a: Action, p: ProcId, c: ClientId, m: int)
    requires Rises1(x, nb, a, p, c, m)
    ensures Risen(x, nb, a, p, c, m)
  {
    if Rests(x.l) {
      RestRises(x, nb, a, p, c, m);
    } else if Awaits(x.l) {
      ChildHeard(x, nb, a, p, c, m);
    } else if x.l.oper == StartingChildren {
      ChildrenEntered(x, nb, a, p, c, m);
    } else if a.DoMessage? {
      match x.l.oper {
        case Connecting => ConnectingReads(x, nb, a, p, c, m);
        case StartingProcesses => StartingReads(x, nb, a, p, c, m);
        case Online => OnlineReads(x, nb, a, p, c, m);
      }
    } else {
      ByItselfGoesUp(x, nb, a, p, c, m);
      ByItselfRises(x, nb, a, p, c, m);
    }
  }

  lemma ByItselfGoesUp(x: Sub, nb: Neighbours, a: Action, p: ProcId, c: ClientId, m: int)
    requires ByItself(x, nb, a, p, c, m)
    ensures x.l.coros[0].Scheduled? ==> UpRank(Turn(x, nb, a).l) < UpRank(x.l)
    ensures GoesUp(x.l, Turn(x, nb, a), c) && Turn(x, nb, a).l.numRestarts == m + 1
  {
    if x.l.coros[0].Scheduled? {
      OnEntry(x, nb, a, p, c, m);
      match x.l.oper {
        case Connecting => ConnectingUp(x.l, nb, a.launch, c);
        case StartingProcesses => LaunchingUp(x.l, nb, a.launch, c);
        case Online => OnlineUp(x.l, nb, a.launch, c);
      }
    } else {
      OnEvent(x, nb, a, p, c, m);
      match x.l.oper {
        case Connecting => ConnectedUp(x.l, nb, a.v.compute, c);
        case StartingProcesses => StartedUp(x.l, nb, a.v, c);
        case Online => OnlineUnmoved(x.l, nb, a.v, c);
      }
    }
  }

  // ---------------------------------------------------------------- answers of StageZero

  lemma AnswerSame(x: Sub, a: Action)
    requires EnabledAt(x, a) && Lone.RestartAction(x, a) && !ByCoroutine(a)
    ensures var y := Surround(x, a);
      && y.queue == x.queue && y.l.coros == x.l.coros && y.l.oper == x.l.oper && y.l.clients == x.l.clients
      && y.l.admin == x.l.admin && y.l.numRestarts == x.l.numRestarts && y.l.critical == x.l.critical
      && Unread(y) == Lone.Next(Unread(x), a) && |y.l.procs| == |x.l.procs|
      && forall q | 0 <= q < |x.l.procs| :: y.l.procs[q] == x.l.procs[q]
  {
  }

  lemma NoAnswerOwed(x: Sub, a: Action, p: ProcId, c: ClientId, m: int)
    requires Struck(x, p, c, m) && EnabledAt(x, a) && Lone.RestartAction(x, a) && !ByCoroutine(a)
    ensures !Awaits(x.l) && !Rests(x.l) && !IsLive(x.l, Online)
  {
  }

  lemma StruckAnswered(x: Sub, a: Action, p: ProcId, c: ClientId, m: int)
    requires Struck(x, p, c, m) && EnabledAt(x, a) && Lone.RestartAction(x, a) && !ByCoroutine(a)
    ensures Struck(Surround(x, a), p, c, m) && Lone.SameComputes(x.l, Surround(x, a).l)
  {
    AnswerSame(x, a);
    NoAnswerOwed(x, a, p, c, m);
    Lone.StepAdvances(Unread(x), a, p);
    NotAgain(Unread(x), Unread(Surround(x, a)), p);
  }
}
