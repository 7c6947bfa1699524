/**
 * Why a restart spreads safely only along single parents: subsystem 0 crashes, 1 depends on it, and 2 depends
 * on both.  Subsystem 2 is told of the restart as soon as 1 is, and may be ready to start over first;
 * its start overtakes the stop of 1, whose process dies without its flag being cleared.
 */
module TwoParents {
  import opened States
  import opened ClientBits
  import opened Umbilicals
  import opened SubsystemModel
  import opened Network
  import opened CascadeMeasure
  import opened Configs
  import opened RestartSteps
  import opened RestartLinks
  import StruckSteps
  import LiveProcesses
  import Lone = LoneRestart
  import RestartLaws
  import CrashOutcomes
  import Conversations
  import Entries

  const DIAMOND: Topology := [{}, {0}, {0, 1}]

  // ---------------------------------------------------------------- runs of a restart

  /** A run of a restart from n0, with only the process of subsystem 1 alive, leads to n with these alive. */
  ghost predicate Leads(n0: Net, n: Net, alive: seq<set<ProcId>>) {
    exists ns, acts :: Leading(n0, n, alive, ns, acts)
  }

  ghost predicate Leading(n0: Net, n: Net, alive: seq<set<ProcId>>, ns: seq<Net>, acts: seq<Action>) {
    && RestartRun(ns, acts) && ns[0] == n0 && ns[|acts|] == n
    && LiveProcesses.AliveAt([{}, {0}, {}], acts, |acts|) == alive
  }

  lemma LeadsFurther(n0: Net, n: Net, alive: seq<set<ProcId>>, a: Action, n': Net)
    requires |n| == 3 && Leads(n0, n, alive) && Enabled(n, a) && Lone.RestartAction(n[a.s], a)
    requires n' == Apply(DIAMOND, n, a)
    ensures Leads(n0, n', LiveProcesses.AllAliveAfter(alive, a))
  {
    var ns, acts :| Leading(n0, n, alive, ns, acts);
    RunFurther(ns, acts, a, n');
    AliveAlike(acts, a, |acts|);
    assert (acts + [a])[|acts|] == a;
    assert Leading(n0, n', LiveProcesses.AllAliveAfter(alive, a), ns + [n'], acts + [a]);
  }

  ghost predicate RestartRun(ns: seq<Net>, acts: seq<Action>) {
    && Run(DIAMOND, ns, acts)
    && forall i {:trigger acts[i]} | 0 <= i < |acts| :: Lone.RestartAction(ns[i][acts[i].s], acts[i])
  }

  lemma RunFurther(ns: seq<Net>, acts: seq<Action>, a: Action, n': Net)
    requires RestartRun(ns, acts) && Enabled(ns[|acts|], a) && Lone.RestartAction(ns[|acts|][a.s], a)
    requires n' == Apply(DIAMOND, ns[|acts|], a)
    ensures RestartRun(ns + [n'], acts + [a])
  {
    var ns', acts' := ns + [n'], acts + [a];
    forall i {:trigger acts'[i]} | 0 <= i < |acts'|
      ensures Enabled(ns'[i], acts'[i]) && ns'[i+1] == Apply(DIAMOND, ns'[i], acts'[i])
      ensures Lone.RestartAction(ns'[i][acts'[i].s], acts'[i])
    {
      if i < |acts| {
        assert acts'[i] == acts[i] && ns'[i] == ns[i] && ns'[i+1] == ns[i+1];
      }
    }
  }

  lemma {:induction false} AliveAlike(acts: seq<Action>, a: Action, k: nat)
    requires k <= |acts|
    ensures LiveProcesses.AliveAt([{}, {0}, {}], acts + [a], k) == LiveProcesses.AliveAt([{}, {0}, {}], acts, k)
  {
    if k > 0 {
      AliveAlike(acts, a, k - 1);
    }
  }

  // ---------------------------------------------------------------- one step

  lemma InDiamond()
    ensures Registered(DIAMOND)
    ensures Parents(DIAMOND, 0) == {1, 2} && Parents(DIAMOND, 1) == {2} && Parents(DIAMOND, 2) == {}
  {
  }

  /** What subsystem i gets when s has sent e. */
  function Got(s: SubId, i: SubId, e: Effect): seq<Message>
    requires s < 3 && i < 3
  {
    if i in DIAMOND[s] then Commands(e.downs) else if s in DIAMOND[i] then Reports(s, e.ups) else []
  }

  lemma Acts(n0: Net, n: Net, alive: seq<set<ProcId>>, a: Action, e: Effect)
    requires |n| == 3 && Leads(n0, n, alive) && Enabled(n, a) && Lone.RestartAction(n[a.s], a) && ByCoroutine(a)
    requires Registered(DIAMOND) && e == EffectOf(DIAMOND, n, a)
    ensures var n' := Apply(DIAMOND, n, a);
      && Leads(n0, n', alive) && |n'| == 3
      && n'[a.s] == Sub(e.l, if a.DoMessage? then n[a.s].queue[1..] else n[a.s].queue,
                        if a.DoEvent? then n[a.s].events - multiset{a.v} else n[a.s].events)
      && forall i | 0 <= i < 3 && i != a.s :: n'[i] == n[i].(queue := n[i].queue + Got(a.s, i, e))
  {
    LeadsFurther(n0, n, alive, a, Apply(DIAMOND, n, a));
    assert LiveProcesses.AllAliveAfter(alive, a) == alive;
    forall i | 0 <= i < 3 && i != a.s ensures Apply(DIAMOND, n, a)[i] == n[i].(queue := n[i].queue + Got(a.s, i, e)) {
      assert n[i].queue + [] == n[i].queue;
    }
  }

  // ---------------------------------------------------------------- the run

  const R: Message := ReportOper(0, Restarting)

  const ALIVE: seq<set<ProcId>> := [{}, {0}, {}]

  predicate Idle(x: Sub) {
    Holding(x.l) && x.queue == [] && x.events == multiset{}
  }

  /** Each but subsystem 2 has one process, and that of subsystem 0 has just crashed. */
  ghost predicate Crashed(n: Net) {
    && |n| == 3 && Lone.JustCrashed(n[0], 0) && |n[0].l.procs| == 1
    && Idle(n[1]) && |n[1].l.procs| == 1 && Idle(n[2]) && n[2].l.procs == []
  }

  lemma CrashRead(n0: Net, n: Net) returns (n': Net)
    requires Crashed(n) && Leads(n0, n, ALIVE)
    ensures |n'| == 3 && Leads(n0, n', ALIVE) && n'[1] == n[1] && n'[2] == n[2]
    ensures |n'[0].l.coros| == 1 && n'[0].l.coros[0].RestartWait? && n'[0].l.AllStopped()
  {
    InDiamond();
    var a := DoEvent(0, 0, StopEvent(0), false);
    CrashOutcomes.CrashOutcome(n[0].l, 0, View(DIAMOND, n, 0), 0);
    Acts(n0, n, ALIVE, a, EffectOf(DIAMOND, n, a));
    n' := Apply(DIAMOND, n, a);
    assert n[1].queue + [] == n[1].queue && n[2].queue + [] == n[2].queue;
  }

  lemma CrashReported(n0: Net, n: Net) returns (n': Net)
    requires |n| == 3 && Leads(n0, n, ALIVE) && |n[0].l.coros| == 1 && n[0].l.coros[0].RestartWait?
    requires n[0].l.AllStopped()
    ensures |n'| == 3 && Leads(n0, n', ALIVE)
    ensures n'[1] == n[1].(queue := n[1].queue + [R]) && n'[2] == n[2].(queue := n[2].queue + [R])
  {
    InDiamond();
    var a, b := DoExpire(0, 0), DoEntry(0, 0, |n[0].l.procs|);
    RestartLaws.WaitEnds(n[0].l, 0);
    Acts(n0, n, ALIVE, a, EffectOf(DIAMOND, n, a));
    var m := Apply(DIAMOND, n, a);
    assert m[1] == n[1] && m[2] == n[2] by {
      assert n[1].queue + [] == n[1].queue && n[2].queue + [] == n[2].queue;
    }
    RestartLaws.EntryWaits(m[0].l, 0, View(DIAMOND, m, 0), |m[0].l.procs|);
    Acts(n0, m, ALIVE, b, EffectOf(DIAMOND, m, b));
    n' := Apply(DIAMOND, m, b);
    assert Reports(0, [Restarting]) == [R];
  }

  /** Subsystem 2 has no process of its own: it starts over at once, and tells both its children. */
  lemma TopStartsOver(n0: Net, n: Net) returns (n': Net)
    requires |n| == 3 && Leads(n0, n, ALIVE) && Holding(n[2].l) && n[2].queue == [R] && n[2].l.procs == []
    ensures |n'| == 3 && Leads(n0, n', ALIVE) && n'[1] == n[1].(queue := n[1].queue + [Start(n[2].l.coros[0].client)])
  {
    InDiamond();
    var a, b := DoMessage(2, 0), DoEntry(2, 0, 0);
    CrashOutcomes.ReportFollowed(n[2].l, 0, View(DIAMOND, n, 2), 0, Restarting);
    Acts(n0, n, ALIVE, a, EffectOf(DIAMOND, n, a));
    var m := Apply(DIAMOND, n, a);
    assert m[1] == n[1] by {
      assert n[1].queue + [] == n[1].queue;
    }
    RestartLaws.RootStartsOverAtOnce(m[2].l, 0, View(DIAMOND, m, 2), 0);
    Acts(n0, m, ALIVE, b, EffectOf(DIAMOND, m, b));
    n' := Apply(DIAMOND, m, b);
    StartSent(EffectOf(DIAMOND, m, b).downs, n[2].l.coros[0].client);
  }

  lemma FollowsReport(n0: Net, n: Net, c: ClientId) returns (n': Net)
    requires |n| == 3 && Leads(n0, n, ALIVE) && Holding(n[1].l) && n[1].queue == [R, Start(c)]
    ensures |n'| == 3 && Leads(n0, n', ALIVE) && n'[1].queue == [Start(c)] && n'[1].events == n[1].events
    ensures |n'[1].l.coros| == 1
    ensures n'[1].l == n[1].l.(oper := Restarting, coros := [Scheduled(Restarting, n'[1].l.coros[0].client)])
  {
    InDiamond();
    var a := DoMessage(1, 0);
    CrashOutcomes.ReportFollowed(n[1].l, 0, View(DIAMOND, n, 1), 0, Restarting);
    Acts(n0, n, ALIVE, a, EffectOf(DIAMOND, n, a));
    n' := Apply(DIAMOND, n, a);
  }

  lemma Asked(l: Local, nb: Neighbours)
    requires |l.coros| == 1 && l.oper == Restarting && l.coros[0].Scheduled? && l.coros[0].state == Restarting
    requires |l.procs| == 1 && l.procs[0].running && l.stopRequested == {}
    ensures var r := RunEntry(l, 0, nb, 1).l;
      && IsLive(r, Restarting) && r.oper == Restarting
      && |r.procs| == 1 && r.procs[0].running && r.stopRequested == {0}
  {
    RestartLaws.EntryWaits(l, 0, nb, 1);
  }

  /** Subsystem 1 asks its process to stop. */
  lemma AsksToStop(n0: Net, n: Net) returns (n': Net)
    requires |n| == 3 && Leads(n0, n, ALIVE) && |n[1].l.coros| == 1 && n[1].l.oper == Restarting
    requires n[1].l.coros[0].Scheduled? && n[1].l.coros[0].state == Restarting
    requires |n[1].l.procs| == 1 && n[1].l.procs[0].running && n[1].l.stopRequested == {}
    ensures |n'| == 3 && Leads(n0, n', ALIVE) && n'[1].queue == n[1].queue && n'[1].events == n[1].events
    ensures IsLive(n'[1].l, Restarting) && n'[1].l.oper == Restarting
    ensures |n'[1].l.procs| == 1 && n'[1].l.procs[0].running && n'[1].l.stopRequested == {0}
  {
    InDiamond();
    Asked(n[1].l, View(DIAMOND, n, 1));
    var b := DoEntry(1, 0, 1);
    Acts(n0, n, ALIVE, b, EffectOf(DIAMOND, n, b));
    n' := Apply(DIAMOND, n, b);
  }

  /** The start overtakes the stop: it starts over with its process still flagged as running. */
  lemma StartOvertakes(n0: Net, n: Net, c: ClientId) returns (n': Net)
    requires |n| == 3 && Leads(n0, n, ALIVE) && IsLive(n[1].l, Restarting) && n[1].queue == [Start(c)]
    ensures |n'| == 3 && Leads(n0, n', ALIVE) && n'[1].queue == [] && n'[1].events == n[1].events
    ensures IsLive(n'[1].l, StartingChildren) && n'[1].l.procs == n[1].l.procs
    ensures n'[1].l.stopRequested == n[1].l.stopRequested && n'[1].l.oper == StartingChildren
  {
    InDiamond();
    var a, b := DoMessage(1, 0), DoEntry(1, 0, |n[1].l.procs|);
    RestartLaws.MessageInRestarting(n[1].l, 0, View(DIAMOND, n, 1), Start(c));
    Acts(n0, n, ALIVE, a, EffectOf(DIAMOND, n, a));
    var m := Apply(DIAMOND, n, a);
    Entries.StartingChildrenEntered(m[1].l, 0, View(DIAMOND, m, 1), |n[1].l.procs|);
    Acts(n0, m, ALIVE, b, EffectOf(DIAMOND, m, b));
    n' := Apply(DIAMOND, m, b);
    assert View(DIAMOND, m, 1).children.Keys == {0};
  }

  lemma Stops(n0: Net, n: Net) returns (n': Net)
    requires |n| == 3 && Leads(n0, n, ALIVE) && |n[1].l.procs| == 1 && n[1].l.stopRequested == {0}
    requires n[1].events == multiset{}
    ensures |n'| == 3 && Leads(n0, n', [{}, {}, {}])
    ensures n'[1] == n[1].(l := n[1].l.(stopRequested := {}), events := multiset{StopEvent(0)})
  {
    InDiamond();
    var a := ProcStops(1, 0);
    LeadsFurther(n0, n, ALIVE, a, Apply(DIAMOND, n, a));
    assert {0} - {0} == {};
    assert LiveProcesses.AllAliveAfter(ALIVE, a) == [{}, {}, {}];
    n' := Apply(DIAMOND, n, a);
    assert n'[1].l.stopRequested == {} && n'[1].events == multiset{StopEvent(0)};
  }

  lemma NotTaken(l: Local, nb: Neighbours)
    requires IsLive(l, StartingChildren) && l.oper == StartingChildren
    ensures TakeEvent(l, 0, nb, StopEvent(0), false).l == l
  {
    Entries.StartingChildrenSees(l, 0, nb, StopEvent(0), false);
    assert TakeEvent(l, 0, nb, StopEvent(0), false).l.coros == l.coros;
  }

  /** The process stops, and nobody takes notice. */
  lemma StopIgnored(n0: Net, n: Net) returns (n': Net)
    requires |n| == 3 && Leads(n0, n, [{}, {}, {}]) && IsLive(n[1].l, StartingChildren)
    requires n[1].l.oper == StartingChildren
    requires n[1].events == multiset{StopEvent(0)}
    ensures |n'| == 3 && Leads(n0, n', [{}, {}, {}]) && n'[1].l == n[1].l && n'[1].events == multiset{}
  {
    InDiamond();
    NotTaken(n[1].l, View(DIAMOND, n, 1));
    var b := DoEvent(1, 0, StopEvent(0), false);
    Acts(n0, n, [{}, {}, {}], b, EffectOf(DIAMOND, n, b));
    n' := Apply(DIAMOND, n, b);
  }

  /** The report and then the start are what subsystem 1 has to read. */
  lemma BothArrive(n0: Net) returns (n: Net, c: ClientId)
    requires Crashed(n0)
    ensures |n| == 3 && Leads(n0, n, ALIVE) && n[1] == n0[1].(queue := [R, Start(c)])
  {
    LeadsNowhere(n0);
    var n1 := CrashRead(n0, n0);
    var n2 := CrashReported(n0, n1);
    assert [] + [R] == [R];
    n := TopStartsOver(n0, n2);
    c := n2[2].l.coros[0].client;
    assert [R] + [Start(c)] == [R, Start(c)];
  }

  /**
   * From every such crash a restart can lead to subsystem 1 starting its children, with its process dead but
   * flagged as running, and neither a stop of it requested nor one on its way.
   */
  lemma StopOvertaken(n0: Net) returns (n: Net)
    requires Crashed(n0)
    ensures Leads(n0, n, [{}, {}, {}]) && |n| == 3 && n[1].l.oper == StartingChildren
    ensures |n[1].l.procs| == 1 && n[1].l.procs[0].running && n[1].l.stopRequested == {} && n[1].events == multiset{}
  {
    var n3, c := BothArrive(n0);
    var n4 := FollowsReport(n0, n3, c);
    var n5 := AsksToStop(n0, n4);
    var n6 := StartOvertakes(n0, n5, c);
    var n7 := Stops(n0, n6);
    n := StopIgnored(n0, n7);
  }

  lemma LeadsNowhere(n: Net)
    requires |n| == 3
    ensures Leads(n, n, ALIVE)
  {
    assert Leading(n, n, ALIVE, [n], []);
  }
}
