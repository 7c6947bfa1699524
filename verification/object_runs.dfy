/**
 * What the theorems about whole runs say of the objects themselves: the objects that module
 * SubsystemNetwork lets a run be played on.
 */
module ObjectRuns {
  import opened States
  import opened ClientBits
  import opened Umbilicals
  import opened SubsystemModel
  import opened Network
  import opened SubsystemNetwork
  import CommandSteps
  import DependencySafety
  import LiveProcesses
  import OnlineAlive
  import ControlToken
  import ControlRuns
  import ReferenceCounts
  import Configs
  import StartCascade
  import StopCascade
  import LoneRestart
  import RestartSpread
  import SpreadRuns

  /** After any run every object's umbilicals count exactly its processes that hold them. */
  lemma ObjectsCountExactly(t: Topology, subs: seq<Subsystem>, events: seq<multiset<Event>>, ns: seq<Net>,
                            acts: seq<Action>)
    requires Registered(t) && Run(t, ns, acts) && ReferenceCounts.AllAccounted(ns[0])
    requires Represents(t, subs, events, ns[|acts|])
    ensures forall x, k :: x in subs && k in x.umbilicals ==>
      && x.umbilicals[k].dynamicRefs == ReferenceCounts.Users(x.processes, k)
      && (x.umbilicals[k].dynamicRefs == 0 ==> x.umbilicals[k].state == LinkClosed)
  {
    ReferenceCounts.ReferencesAlwaysExact(t, ns, acts, |acts|);
    forall x, k | x in subs && k in x.umbilicals
      ensures x.umbilicals[k].dynamicRefs == ReferenceCounts.Users(x.processes, k)
      ensures x.umbilicals[k].dynamicRefs == 0 ==> x.umbilicals[k].state == LinkClosed
    {
      var i := IndexOf(t, subs, events, ns[|acts|], x);
      assert ReferenceCounts.Accounted(ns[|acts|][i].l);
    }
  }

  lemma IndexOf(t: Topology, subs: seq<Subsystem>, events: seq<multiset<Event>>, n: Net, x: Subsystem) returns (i: nat)
    requires Represents(t, subs, events, n) && x in subs
    ensures i < |t| && subs[i] == x && x.id == i && Shows(x, events[i], n[i])
  {
    i :| 0 <= i < |subs| && subs[i] == x;
    assert WiredAt(t, subs, i) && Shows(subs[i], events[i], n[i]);
  }

  /** After a run that spares waiting subsystems every object has one state coroutine, and it fits the oper state. */
  lemma ObjectsHaveOneCoroutine(t: Topology, subs: seq<Subsystem>, events: seq<multiset<Event>>, ns: seq<Net>,
                                acts: seq<Action>)
    requires Registered(t) && Run(t, ns, acts) && ControlRuns.Fresh(t, ns[0])
    requires ControlRuns.SparedRun(t, ns, acts, |acts|)
    requires Represents(t, subs, events, ns[|acts|])
    ensures forall x {:trigger x.Value()} :: x in subs ==> ControlToken.Sound(x.Value())
  {
    ControlRuns.SoundAlways(t, ns, acts, |acts|);
    forall x {:trigger x.Value()} | x in subs ensures ControlToken.Sound(x.Value()) {
      var i := IndexOf(t, subs, events, ns[|acts|], x);
      assert ControlToken.Sound(ns[|acts|][i].l);
    }
  }

  /** After a run of commands an object that relies on its children finds each of them online. */
  lemma ObjectsFindChildrenOnline(t: Topology, subs: seq<Subsystem>, events: seq<multiset<Event>>,
                                  ns: seq<Net>, acts: seq<Action>)
    requires Registered(t) && Run(t, ns, acts) && DependencySafety.Fresh(t, ns[0])
    requires forall j | 0 <= j < |acts| :: DependencySafety.Commanded(ns[j], acts[j])
    requires Represents(t, subs, events, ns[|acts|])
    ensures forall x, d :: x in subs && d in x.children && x.adminState == AdminOnline && CommandSteps.Relying(x.operState) ==>
      d.operState == Online
  {
    DependencySafety.ChildrenServeAlways(t, ns, acts, |acts|);
    forall x, d | x in subs && d in x.children && x.adminState == AdminOnline && CommandSteps.Relying(x.operState)
      ensures d.operState == Online
    {
      var i := IndexOf(t, subs, events, ns[|acts|], x);
      assert WiredAt(t, subs, i);
      assert subs[d.id] == d;
      var j := IndexOf(t, subs, events, ns[|acts|], d);
    }
  }

  /** After a run of commands all processes of an Online object are alive, and none of an Offline one. */
  lemma ObjectsOnlineAlive(t: Topology, subs: seq<Subsystem>, events: seq<multiset<Event>>, ns: seq<Net>,
                           acts: seq<Action>)
    requires Registered(t) && Run(t, ns, acts) && DependencySafety.Fresh(t, ns[0])
    requires forall j | 0 <= j < |acts| :: DependencySafety.Commanded(ns[j], acts[j])
    requires Represents(t, subs, events, ns[|acts|])
    ensures var alive := LiveProcesses.AliveAt(OnlineAlive.NothingAlive(t), acts, |acts|);
      forall x :: x in subs ==>
        && x.id < |alive|
        && (x.operState == Online ==> forall p: ProcId :: p in alive[x.id] <==> p < |x.processes|)
        && (x.operState == Offline ==> alive[x.id] == {})
  {
    var alive := LiveProcesses.AliveAt(OnlineAlive.NothingAlive(t), acts, |acts|);
    forall x | x in subs
      ensures x.id < |alive|
      ensures x.operState == Online ==> forall p: ProcId :: p in alive[x.id] <==> p < |x.processes|
      ensures x.operState == Offline ==> alive[x.id] == {}
    {
      var i := IndexOf(t, subs, events, ns[|acts|], x);
      OnlineAlive.OnlineMeansAlive(t, ns, acts, |acts|, i);
    }
  }

  /** The clients an object has, and what it does, in configuration w. */
  ghost predicate HeldBy(x: Subsystem, w: Configs.Config)
    reads x, x.pipe
  {
    && x.id < |w| && x.activeClients.members == w[x.id] && x.pipe.queue == []
    && if w[x.id] == {} then x.operState == Offline && x.adminState == AdminOffline && x.Value().AllStopped()
       else x.operState == Online && x.adminState == AdminOnline && x.Value().AllRunning()
  }

  /** A session that has run its course left every object to exactly the clients that then hold it. */
  lemma ObjectsSettled(t: Topology, subs: seq<Subsystem>, events: seq<multiset<Event>>, n: Net, w: Configs.Config)
    requires Registered(t) && |n| == |t| && Represents(t, subs, events, n) && Configs.AllResting(n, w)
    ensures forall x :: x in subs ==> HeldBy(x, w)
  {
    forall x | x in subs ensures HeldBy(x, w) {
      var i := IndexOf(t, subs, events, n, x);
      assert Configs.Resting(n[i], w[i]);
    }
  }

  /** A start that has run its course, whatever other clients had up. */
  lemma ObjectsStarted(t: Topology, subs: seq<Subsystem>, events: seq<multiset<Event>>, ns: seq<Net>, acts: seq<Action>,
                       w: Configs.Config, r: SubId, c: ClientId)
    requires Registered(t) && Run(t, ns, acts) && StartCascade.StartState(t, ns[0], w, r, c) && c < 64
    requires forall k | 0 <= k < |acts| :: StartCascade.StartAction(ns[k], acts[k])
    requires StartCascade.Stuck(ns[|acts|])
    requires Represents(t, subs, events, ns[|acts|])
    ensures forall x :: x in subs ==> HeldBy(x, StartCascade.AfterStart(t, w, r, c))
  {
    StartCascade.StartEnds(t, ns, acts, w, r, c);
    ObjectsSettled(t, subs, events, ns[|acts|], StartCascade.AfterStart(t, w, r, c));
  }

  /** The same of a stop. */
  lemma ObjectsStopped(t: Topology, subs: seq<Subsystem>, events: seq<multiset<Event>>, ns: seq<Net>, acts: seq<Action>,
                       w: Configs.Config, r: SubId, c: ClientId)
    requires Registered(t) && Run(t, ns, acts) && StopCascade.StopState(t, ns[0], w, r, c) && c < 64
    requires forall k | 0 <= k < |acts| :: StopCascade.StopAction(ns[k], acts[k])
    requires StopCascade.Stuck(ns[|acts|]) && ReferenceCounts.AllAccounted(ns[0])
    requires Represents(t, subs, events, ns[|acts|])
    ensures forall x :: x in subs ==> HeldBy(x, StopCascade.AfterStop(t, w, r, c))
  {
    StopCascade.StopEnds(t, ns, acts, w, r, c);
    ObjectsSettled(t, subs, events, ns[|acts|], StopCascade.AfterStop(t, w, r, c));
  }

  /** A restart that has spread and run its course left every object to its clients again. */
  lemma ObjectsRestarted(z: RestartSpread.Case, subs: seq<Subsystem>, events: seq<multiset<Event>>, ns: seq<Net>,
                         acts: seq<Action>)
    requires z.Valid() && Run(z.t, ns, acts) && SpreadRuns.JustCrashed(z, ns[0]) && !z.shared
    requires forall i {:trigger acts[i]} | 0 <= i < |acts| :: LoneRestart.RestartAction(ns[i][acts[i].s], acts[i])
    requires SpreadRuns.Stuck(ns[|acts|])
    requires Represents(z.t, subs, events, ns[|acts|])
    ensures forall x :: x in subs ==> HeldBy(x, SpreadRuns.AfterSpread(z))
  {
    SpreadRuns.SpreadEnds(z, ns, acts);
    ObjectsSettled(z.t, subs, events, ns[|acts|], SpreadRuns.AfterSpread(z));
  }
}
