/**
 * A subsystem as an object: its fields are changed in place, its messages go into the pipes of its
 * neighbours, and every method is proved against the functions of module SubsystemModel.
 */
module Subsystems {
  import opened States
  import opened ClientBits
  import opened Umbilicals
  import Model = SubsystemModel
  import opened Network
  import opened ClientCommands
  import opened RestartLaws
  import opened LostConnections

  type SubId = Model.SubId
  type Message = Model.Message

  class MessagePipe {
    var queue: seq<Message>

    constructor ()
      ensures queue == []
    {
      queue := [];
    }

    method Write(m: Message)
      modifies this
      ensures queue == old(queue) + [m]
    {
      queue := queue + [m];
    }
  }

  /** What a step must leave as it is. */
  datatype Surroundings = Surroundings(
    parents: seq<Subsystem>, children: seq<Subsystem>, base: map<MessagePipe, seq<Message>>, near: Model.Neighbours)

  /** The neighbours' states by their numbers. */
  ghost function Looks(ss: seq<Subsystem>): map<SubId, Model.Glimpse>
    reads ss
  {
    if ss == [] then map[] else Looks(ss[..|ss|-1])[ss[|ss|-1].id := ss[|ss|-1].Look()]
  }

  ghost predicate DistinctIds(ss: seq<Subsystem>) {
    forall i, j :: 0 <= i < j < |ss| ==> ss[i].id != ss[j].id && ss[i].pipe != ss[j].pipe
  }

  /** Neighbours are other subsystems, each once, with pipes of their own. */
  ghost predicate Apart(x: Subsystem, parents: seq<Subsystem>, children: seq<Subsystem>) {
    && x !in parents && x !in children
    && (forall p :: p in parents ==> p.pipe != x.pipe)
    && (forall d :: d in children ==> d.pipe != x.pipe)
    && DistinctIds(parents) && DistinctIds(children)
    && forall p, d :: p in parents && d in children ==> p.pipe != d.pipe
  }

  class Subsystem {
    const id: SubId
    const pipe: MessagePipe
    var parents: seq<Subsystem>
    var children: seq<Subsystem>
    var adminState: AdminState
    var operState: OperState
    var activeClients: Bits
    var coroutines: seq<Model.Coro>
    var processes: seq<Model.Proc>
    var umbilicals: map<Model.ComputeId, Umb>
    var processesToRestart: seq<Model.ProcId>
    var numRestarts: int
    var maxRestarts: int
    var restartDelay: nat
    var restartPolicy: RestartPolicy
    var critical: bool
    var connectors: set<Model.ComputeId>
    var launched: set<Model.ProcId>
    var stopRequested: set<Model.ProcId>
    var delayed: nat

    /** What the step under way has sent so far, and the pipes as they were when it began. */
    ghost var ups: seq<OperState>
    ghost var downs: seq<Model.Down>
    ghost var base: map<MessagePipe, seq<Message>>

    constructor (id: SubId, processes: seq<Model.Proc>, umbilicals: map<Model.ComputeId, Umb>,
                 maxRestarts: int, policy: RestartPolicy, critical: bool)
      ensures Valid() && fresh(pipe) && this.id == id
      ensures parents == [] && children == [] && pipe.queue == []
      ensures Value() == Model.Local(AdminOffline, Offline, EMPTY_BITS, [], processes, umbilicals, [], 0, maxRestarts, 1,
                                     policy, critical, {}, {}, {}, 0)
    {
      this.id := id;
      pipe := new MessagePipe();
      parents, children := [], [];
      adminState, operState, activeClients := AdminOffline, Offline, EMPTY_BITS;
      coroutines, this.processes, this.umbilicals, processesToRestart := [], processes, umbilicals, [];
      numRestarts, this.maxRestarts, restartDelay := 0, maxRestarts, 1;
      restartPolicy, this.critical := policy, critical;
      connectors, launched, stopRequested, delayed := {}, {}, {}, 0;
      ups, downs, base := [], [], map[];
    }

    // -------------------------------------------------------------- views

    function Value(): Model.Local
      reads this
    {
      Model.Local(adminState, operState, activeClients, coroutines, processes, umbilicals, processesToRestart,
                  numRestarts, maxRestarts, restartDelay, restartPolicy, critical,
                  connectors, launched, stopRequested, delayed)
    }

    ghost function Eff(): Model.Effect
      reads this
    {
      Model.Effect(Value(), ups, downs)
    }

    function Look(): Model.Glimpse
      reads this
    {
      Model.Glimpse(adminState, operState, activeClients)
    }

    ghost function Near(): Model.Neighbours
      reads this, parents, children
    {
      Model.Neighbours(Looks(parents), Looks(children))
    }

    ghost function Around(): Surroundings
      reads this, parents, children
    {
      Surroundings(parents, children, base, Near())
    }

    ghost function Pipes(): set<MessagePipe>
      reads this
    {
      (set p | p in parents :: p.pipe) + (set d | d in children :: d.pipe)
    }

    /** What the neighbours' pipes hold. */
    ghost function Held(): map<MessagePipe, seq<Message>>
      reads this, Pipes()
    {
      map p | p in Pipes() :: p.queue
    }

    ghost predicate IsApart()
      reads this
    {
      Apart(this, parents, children)
    }

    /** Every parent has got the reports of this step, every child its commands. */
    ghost predicate IsDelivered()
      reads this, Pipes()
    {
      && (forall p {:trigger p.pipe} :: p in parents ==> p.pipe in base && p.pipe.queue == base[p.pipe] + Reports(id, ups))
      && (forall d {:trigger d.pipe} :: d in children ==> d.pipe in base && d.pipe.queue == base[d.pipe] + Commands(downs))
    }

    ghost predicate Valid()
      reads this, Pipes()
    {
      IsApart() && IsDelivered()
    }

    // -------------------------------------------------------------- coming into being

    method AddChild(child: Subsystem)
      modifies this`children
      ensures children == old(children) + [child]
    {
      children := children + [child];
    }

    method AddParent(parent: Subsystem)
      modifies this`parents
      ensures parents == old(parents) + [parent]
    {
      parents := parents + [parent];
    }

    /** A new subsystem is offline, and a coroutine is scheduled for that state. */
    method Run()
      requires IsApart()
      modifies this
      ensures IsApart() && parents == old(parents) && children == old(children)
      ensures Value() == old(Value()).(admin := AdminOffline, oper := Offline,
                                       coros := old(coroutines) + [Model.Scheduled(Offline, NO_CLIENT)])
    {
      BeginSending();
      SetAdmin(AdminOffline);
      EnterState(Offline, NO_CLIENT);
    }

    // -------------------------------------------------------------- sending

    /** Parents hear the state the subsystem is in, whether or not it changed. */
    method NotifyParents()
      requires Valid()
      modifies this`ups, Pipes()
      ensures Valid() && Around() == old(Around())
      ensures Eff() == old(Eff()).Notify()
    {
      SendAll(parents, Model.ReportOper(id, operState));
      ReportsMore(id, ups, operState);
      ups := ups + [operState];
    }

    method SendToChildren(admin: AdminState, client: ClientId)
      requires Valid()
      modifies this`downs, Pipes()
      ensures Valid() && Around() == old(Around())
      ensures Eff() == old(Eff()).Send(admin, client)
    {
      SendAll(children, Model.ChangeAdmin(admin, client));
      CommandsMore(downs, Model.Down(admin, client));
      downs := downs + [Model.Down(admin, client)];
    }

    // -------------------------------------------------------------- own fields

    /** The state changes at once; its coroutine only gets scheduled. */
    method EnterState(state: OperState, client: ClientId)
      requires Valid()
      modifies this
      ensures Valid() && Around() == old(Around())
      ensures Eff() == old(Eff()).Enter(state, client)
    {
      operState := state;
      coroutines := coroutines + [Model.Scheduled(state, client)];
    }

    /** The coroutine goes on serving. */
    method Stay(t: Model.Coro)
      requires Valid()
      modifies this
      ensures Valid() && Around() == old(Around())
      ensures Eff() == old(Eff()).Stay(t)
    {
      coroutines := coroutines + [t];
    }

    method SetAdmin(admin: AdminState)
      requires Valid()
      modifies this
      ensures Valid() && Around() == old(Around())
      ensures Eff() == old(Eff()).SetAdmin(admin)
    {
      adminState := admin;
    }

    method SetOper(state: OperState)
      requires Valid()
      modifies this
      ensures Valid() && Around() == old(Around())
      ensures Eff() == old(Eff()).(l := old(Value()).(oper := state))
    {
      operState := state;
    }

    method SetClients(clients: Bits)
      requires Valid()
      modifies this
      ensures Valid() && Around() == old(Around())
      ensures Eff() == old(Eff()).(l := old(Value()).(clients := clients))
    {
      activeClients := clients;
    }

    method SetRunning(p: Model.ProcId, running: bool)
      requires Valid()
      modifies this
      ensures Valid() && Around() == old(Around())
      ensures Eff() == old(Eff()).(l := old(Value()).SetRunning(p, running))
    {
      if p < |processes| {
        processes := processes[p := processes[p].(running := running)];
      }
    }

    method ResetNumRestarts()
      requires Valid()
      modifies this
      ensures Valid() && Around() == old(Around())
      ensures Eff() == old(Eff()).(l := old(Value()).(numRestarts := 0))
    {
      numRestarts := 0;
    }

    /** The budget is charged and the next delay is doubled, up to the limit. */
    method ChargeRestart()
      requires Valid()
      modifies this
      ensures Valid() && Around() == old(Around())
      ensures Eff() == old(Eff()).(l := Model.ChargeRestart(old(Value())))
    {
      restartDelay := Model.Min(Model.MAX_RESTART_DELAY, restartDelay * 2);
      numRestarts := numRestarts + 1;
    }

    method ResetProcessRestarts()
      requires Valid()
      modifies this
      ensures Valid() && Around() == old(Around())
      ensures Eff() == old(Eff()).(l := Model.ResetProcessRestarts(old(Value())))
    {
      var procs := processes;
      var p := 0;
      while p < |procs|
        invariant 0 <= p <= |procs| == |processes|
        invariant forall j :: 0 <= j < p ==> procs[j] == processes[j].(numRestarts := 0)
        invariant forall j :: p <= j < |procs| ==> procs[j] == processes[j]
      {
        procs := procs[p := procs[p].(numRestarts := 0)];
        p := p + 1;
      }
      assert procs == Model.ResetProcessRestarts(Value()).procs;
      processes := procs;
    }

    // -------------------------------------------------------------- processes

    method ConnectProcess(p: Model.ProcId)
      requires Valid() && p < |processes|
      modifies this
      ensures Valid() && Around() == old(Around())
      ensures Eff() == old(Eff()).(l := Model.ConnectProcess(old(Value()), p))
      ensures Takes(old(Value()), Value(), p)
    {
      var proc := processes[p];
      if !proc.maybeConnected {
        SetProcess(p, proc.(maybeConnected := true));
        if proc.compute in umbilicals {
          ConnectUmbilical(proc.compute);
        }
      }
    }

    /** Whoever finds the umbilical closed starts a coroutine that makes the connection. */
    method ConnectUmbilical(k: Model.ComputeId)
      requires Valid() && k in umbilicals
      modifies this
      ensures Valid() && Around() == old(Around())
      ensures Eff() == old(Eff()).(l := old(Value()).(
        umbilicals := old(umbilicals)[k := old(umbilicals)[k].Precondition()],
        connectors := if old(umbilicals)[k].WasClosed() then old(connectors) + {k} else old(connectors)))
    {
      if umbilicals[k].WasClosed() {
        connectors := connectors + {k};
      }
      umbilicals := umbilicals[k := umbilicals[k].Precondition()];
    }

    method SetProcess(p: Model.ProcId, proc: Model.Proc)
      requires Valid() && p < |processes|
      modifies this
      ensures Valid() && Around() == old(Around())
      ensures Eff() == old(Eff()).(l := old(Value()).(procs := old(processes)[p := proc]))
    {
      processes := processes[p := proc];
    }

    method DisconnectProcess(p: Model.ProcId)
      requires Valid() && p < |processes|
      modifies this
      ensures Valid() && Around() == old(Around())
      ensures Eff() == old(Eff()).(l := Model.DisconnectProcess(old(Value()), p))
      ensures GivesBack(old(Value()), Value(), p)
    {
      var proc := processes[p];
      if proc.maybeConnected {
        processes := processes[p := proc.(maybeConnected := false, running := false)];
        if proc.compute in umbilicals {
          umbilicals := umbilicals[proc.compute := umbilicals[proc.compute].Disconnect(false)];
        }
      }
    }

    method StopProcess(p: Model.ProcId)
      requires Valid() && p < |processes|
      modifies this
      ensures Valid() && Around() == old(Around())
      ensures Eff() == old(Eff()).(l := Model.StopProcess(old(Value()), p))
    {
      if !processes[p].running {
        DisconnectProcess(p);
      } else {
        processes := processes[p := processes[p].(numRestarts := 0)];
        stopRequested := stopRequested + {p};
      }
    }

    /** Each process makes sure its compute is being connected to. */
    method ConnectProcesses()
      requires Valid()
      modifies this
      ensures Valid() && Around() == old(Around())
      ensures Eff() == old(Eff()).(l := Model.ConnectFrom(old(Value()), 0))
    {
      var p := 0;
      while p < |processes|
        invariant 0 <= p <= |processes| == |old(processes)|
        invariant Valid() && Around() == old(Around())
        invariant ups == old(ups) && downs == old(downs)
        invariant Model.ConnectFrom(Value(), p) == Model.ConnectFrom(old(Value()), 0)
        decreases |processes| - p
      {
        ConnectProcess(p);
        p := p + 1;
      }
    }

    /** Each process gives up its connection. */
    method DisconnectProcesses()
      requires Valid()
      modifies this
      ensures Valid() && Around() == old(Around())
      ensures Eff() == old(Eff()).(l := Model.DisconnectFrom(old(Value()), 0))
    {
      var p := 0;
      while p < |processes|
        invariant 0 <= p <= |processes| == |old(processes)|
        invariant Valid() && Around() == old(Around())
        invariant ups == old(ups) && downs == old(downs)
        invariant Model.DisconnectFrom(Value(), p) == Model.DisconnectFrom(old(Value()), 0)
        decreases |processes| - p
      {
        DisconnectProcess(p);
        p := p + 1;
      }
    }

    /** The processes on one compute give up their connection. */
    method DisconnectProcessesForCompute(k: Model.ComputeId)
      requires Valid()
      modifies this
      ensures Valid() && Around() == old(Around())
      ensures Eff() == old(Eff()).(l := Model.DisconnectComputeFrom(old(Value()), k, 0))
      ensures Dropped(old(processes), processes, k) && OnlyOwn(old(umbilicals), umbilicals, k)
    {
      ComputeDropped(Value(), k, 0);
      var p := 0;
      while p < |processes|
        invariant 0 <= p <= |processes| == |old(processes)|
        invariant Valid() && Around() == old(Around())
        invariant ups == old(ups) && downs == old(downs)
        invariant Model.DisconnectComputeFrom(Value(), k, p) == Model.DisconnectComputeFrom(old(Value()), k, 0)
        decreases |processes| - p
      {
        if processes[p].compute == k {
          DisconnectProcess(p);
        }
        p := p + 1;
      }
    }

    /** Each process is stopped, or disconnected when it does not run. */
    method StopProcesses()
      requires Valid()
      modifies this
      ensures Valid() && Around() == old(Around())
      ensures Eff() == old(Eff()).(l := Model.StopFrom(old(Value()), 0))
    {
      var p := 0;
      while p < |processes|
        invariant 0 <= p <= |processes| == |old(processes)|
        invariant Valid() && Around() == old(Around())
        invariant ups == old(ups) && downs == old(downs)
        invariant Model.StopFrom(Value(), p) == Model.StopFrom(old(Value()), 0)
        decreases |processes| - p
      {
        StopProcess(p);
        p := p + 1;
      }
    }

    method StopListed(ps: seq<Model.ProcId>)
      requires Valid()
      modifies this
      ensures Valid() && Around() == old(Around())
      ensures Eff() == old(Eff()).(l := Model.StopListed(old(Value()), ps))
    {
      var i := 0;
      assert ps[0..] == ps;
      while i < |ps|
        invariant 0 <= i <= |ps|
        invariant Valid() && Around() == old(Around())
        invariant ups == old(ups) && downs == old(downs)
        invariant Model.StopListed(Value(), ps[i..]) == Model.StopListed(old(Value()), ps)
      {
        assert ps[i..][1..] == ps[i+1..];
        if ps[i] < |processes| && processes[ps[i]].running {
          StopProcess(ps[i]);
        }
        i := i + 1;
      }
    }

    method StopForRestart(ps: seq<Model.ProcId>)
      requires Valid()
      modifies this
      ensures Valid() && Around() == old(Around())
      ensures Eff() == old(Eff()).(l := Model.StopForRestart(old(Value()), ps))
      ensures ps != [] ==> processesToRestart == ps && ListedAsked(old(Value()), Value(), ps)
      ensures ps == [] ==> |processesToRestart| == |processes| && AllAsked(old(Value()), Value())
    {
      SetToRestart(if ps == [] then seq(|processes|, p => p) else ps);
      if ps == [] {
        AllAskedFrom(Value(), 0);
        StopProcesses();
      } else {
        ListAsked(Value(), ps);
        StopListed(ps);
      }
    }

    method SetToRestart(ps: seq<Model.ProcId>)
      requires Valid()
      modifies this
      ensures Valid() && Around() == old(Around())
      ensures Eff() == old(Eff()).(l := old(Value()).(toRestart := ps))
    {
      processesToRestart := ps;
    }

    /** Launching stops at the first process that cannot be launched; how many can is given. */
    method LaunchProcesses(reach: nat) returns (ok: bool)
      requires Valid()
      modifies this
      ensures Valid() && Around() == old(Around())
      ensures ok <==> reach >= |processes|
      ensures Eff() == old(Eff()).(l := old(Value()).(launched := old(launched)
        + set p | 0 <= p < |old(processes)| && p < reach && !old(processes)[p].running))
    {
      var started := launched;
      var p := 0;
      while p < |processes| && p < reach
        invariant 0 <= p <= |processes| && p <= reach
        invariant started == launched + set q | 0 <= q < |processes| && q < p && !processes[q].running
      {
        if !processes[p].running {
          started := started + {p};
        }
        p := p + 1;
      }
      assert started == launched + set q | 0 <= q < |processes| && q < reach && !processes[q].running;
      launched := started;
      ok := reach >= |processes|;
    }

    method AllProcessesRunning() returns (all: bool)
      ensures all <==> Value().AllRunning()
    {
      var p := 0;
      while p < |processes|
        invariant 0 <= p <= |processes|
        invariant forall j :: 0 <= j < p ==> processes[j].running
      {
        if !processes[p].running {
          return false;
        }
        p := p + 1;
      }
      all := true;
    }

    method AllProcessesStopped() returns (all: bool)
      ensures all <==> Value().AllStopped()
    {
      var p := 0;
      while p < |processes|
        invariant 0 <= p <= |processes|
        invariant forall j :: 0 <= j < p ==> !processes[j].running
      {
        if processes[p].running {
          return false;
        }
        p := p + 1;
      }
      all := true;
    }

    method AllProcessesConnected() returns (all: bool)
      requires Valid()
      ensures Valid() && (all <==> Value().AllConnected())
    {
      var p := 0;
      while p < |processes|
        invariant 0 <= p <= |processes|
        invariant forall j :: 0 <= j < p ==>
          processes[j].compute in umbilicals && umbilicals[processes[j].compute].IsConnected()
      {
        if processes[p].compute !in umbilicals || !umbilicals[processes[p].compute].IsConnected() {
          return false;
        }
        p := p + 1;
      }
      all := true;
    }

    method StoppedAmong(ps: seq<Model.ProcId>) returns (all: bool)
      ensures all <==> Value().StoppedAmong(ps)
    {
      var i := 0;
      while i < |ps|
        invariant 0 <= i <= |ps|
        invariant forall j :: 0 <= j < i && ps[j] < |processes| ==> !processes[ps[j]].running
      {
        if ps[i] < |processes| && processes[ps[i]].running {
          return false;
        }
        i := i + 1;
      }
      all := true;
    }

    // -------------------------------------------------------------- looking at the neighbours

    method ParentsOffline() returns (all: bool)
      requires Valid()
      ensures all <==> Near().ParentsOffline()
    {
      LooksOf(parents);
      var i := 0;
      while i < |parents|
        invariant 0 <= i <= |parents|
        invariant forall j :: 0 <= j < i ==> parents[j].adminState == AdminOffline
      {
        if parents[i].adminState != AdminOffline {
          assert Near().parents[parents[i].id].admin != AdminOffline;
          return false;
        }
        i := i + 1;
      }
      all := true;
    }

    method ChildrenOnline() returns (all: bool)
      requires Valid()
      ensures all <==> Near().ChildrenOnline()
    {
      LooksOf(children);
      var i := 0;
      while i < |children|
        invariant 0 <= i <= |children|
        invariant forall j :: 0 <= j < i ==> children[j].operState == Online
      {
        if children[i].operState != Online {
          assert Near().children[children[i].id].oper != Online;
          return false;
        }
        i := i + 1;
      }
      all := true;
    }

    method AllNotified(notified: set<SubId>) returns (all: bool)
      requires Valid()
      ensures all <==> Near().children.Keys <= notified
    {
      LooksOf(children);
      var i := 0;
      while i < |children|
        invariant 0 <= i <= |children|
        invariant forall j :: 0 <= j < i ==> children[j].id in notified
      {
        if children[i].id !in notified {
          assert children[i].id in Near().children;
          return false;
        }
        i := i + 1;
      }
      all := true;
    }

    /** Every child stays online or has dropped all the clients that asked to stop. */
    method ChildrenReleased(requests: set<ClientId>) returns (all: bool)
      requires Valid()
      ensures all <==> Near().Released(requests)
    {
      LooksOf(children);
      var i := 0;
      while i < |children|
        invariant 0 <= i <= |children|
        invariant forall j {:trigger children[j]} :: 0 <= j < i ==>
          children[j].adminState == AdminOnline || forall c :: c in requests ==> !children[j].activeClients.Contains(c)
      {
        var child := children[i];
        if child.adminState != AdminOnline {
          var rest := requests;
          while rest != {}
            invariant rest <= requests
            invariant forall c :: c in requests && c !in rest ==> !child.activeClients.Contains(c)
            decreases |rest|
          {
            var c :| c in rest;
            if child.activeClients.Contains(c) {
              assert Near().children[child.id] == child.Look();
              return false;
            }
            rest := rest - {c};
          }
        }
        i := i + 1;
      }
      all := true;
    }

    lemma Childless()
      requires Valid()
      ensures Near().children.Keys == {} <==> children == []
      ensures Near().parents.Keys == {} <==> parents == []
    {
      LooksOf(children);
      LooksOf(parents);
      if children != [] {
        assert children[0].id in Near().children;
      }
      if parents != [] {
        assert parents[0].id in Near().parents;
      }
    }

    // -------------------------------------------------------------- shared transitions

    method ChangeClients(admin: AdminState, client: ClientId)
      requires Valid()
      modifies this
      ensures Valid() && Around() == old(Around())
      ensures Eff() == old(Eff()).(l := old(Value()).(clients := Model.ClientsAfter(old(activeClients), admin, client)))
      ensures old(activeClients).Valid() ==> Regarded(old(activeClients), activeClients, true, admin, client)
    {
      if client != NO_CLIENT {
        if admin == AdminOnline {
          SetClients(activeClients.Set(client));
        } else {
          SetClients(activeClients.Clear(client));
        }
      }
    }

    /** The client set decides where a command leads; parents hear when nothing changes. */
    method HandleAdminCommand(admin: AdminState, client: ClientId, whenActive: OperState, whenNone: OperState)
      returns (next: OperState)
      requires Valid()
      modifies this, Pipes()
      ensures Valid() && Around() == old(Around())
      ensures Eff() == Model.Command(old(Eff()), admin, client, whenActive, whenNone)
      ensures old(activeClients).Valid() ==> Regarded(old(activeClients), activeClients, true, admin, client)
      ensures next == Model.NextState(activeClients, whenActive, whenNone)
    {
      ChangeClients(admin, client);
      next := NotifyUnlessLeaving(whenActive, whenNone);
    }

    /** When no state is to be entered the parents will still be expecting to hear something. */
    method NotifyUnlessLeaving(whenActive: OperState, whenNone: OperState) returns (next: OperState)
      requires Valid()
      modifies this`ups, Pipes()
      ensures Valid() && Around() == old(Around())
      ensures next == Model.NextState(activeClients, whenActive, whenNone)
      ensures Eff() == if next == operState then old(Eff()).Notify() else old(Eff())
    {
      next := if activeClients.IsEmpty() then whenNone else whenActive;
      if next == operState {
        NotifyParents();
      }
    }

    method StopRunning()
      requires Valid()
      modifies this
      ensures Valid() && Around() == old(Around())
      ensures Eff() == old(Eff()).(l := Model.AbortLocal(old(Value())))
    {
      processes := NoneRunning();
      SetClients(activeClients.ClearAll());
      SetAdmin(AdminOffline);
    }

    method NoneRunning() returns (procs: seq<Model.Proc>)
      ensures procs == Model.AbortLocal(Value()).procs
    {
      procs := processes;
      var p := 0;
      while p < |procs|
        invariant 0 <= p <= |procs| == |processes|
        invariant forall j :: 0 <= j < p ==> procs[j] == processes[j].(running := false)
        invariant forall j :: p <= j < |procs| ==> procs[j] == processes[j]
      {
        procs := procs[p := procs[p].(running := false)];
        p := p + 1;
      }
    }

    method Abort(t: Model.Coro, emergency: bool)
      requires Valid()
      modifies this, Pipes()
      ensures Valid() && Around() == old(Around())
      ensures Eff() == Model.Aborted(old(Eff()), t, emergency)
      ensures old(critical) && !emergency ==> Eff() == old(Eff()).(l := old(Value()).(coros := old(coroutines) + [t]))
      ensures !old(critical) || emergency ==>
        && operState == Offline && adminState == AdminOffline && activeClients.IsEmpty() && Value().AllStopped()
        && coroutines == old(coroutines) + [Model.Scheduled(Offline, NO_CLIENT)]
    {
      if !emergency && critical {
        Stay(t);
      } else {
        StopRunning();
        EnterState(Offline, NO_CLIENT);
      }
    }

    method RestartNow(client: ClientId)
      requires Valid()
      modifies this, Pipes()
      ensures Valid() && Around() == old(Around())
      ensures Eff() == Model.RestartNow(old(Eff()), client)
      ensures operState == StartingChildren
      ensures coroutines == old(coroutines) + [Model.Scheduled(StartingChildren, client)]
      ensures forall d :: d in children ==> d.pipe.queue == old(d.pipe.queue) + [Model.ChangeAdmin(AdminOnline, client)]
    {
      SendToChildren(AdminOnline, client);
      EnterState(StartingChildren, client);
    }

    /** A crashed process restarts alone, the subsystem restarts, or neither is allowed any more. */
    method RestartIfPossibleAfterProcessCrash(t: Model.Coro, p: Model.ProcId, aborting: bool)
      requires Valid() && t.Live?
      modifies this, Pipes()
      ensures Valid() && Around() == old(Around())
      ensures Eff() == Model.Crashed(old(Eff()), t, p, aborting)
      ensures aborting || p >= |old(processes)| || old(critical) ==>
        Eff() == old(Eff()).(l := old(Value()).(coros := old(coroutines) + [t]))
      ensures !aborting && p < |old(processes)| && !old(critical) ==>
        var alone := old(restartPolicy) == ProcessOnly || old(operState) == RestartingProcesses;
        operState ==
          if !alone && old(restartPolicy) == Automatic && old(numRestarts) == old(maxRestarts) then Broken
          else if !alone && old(restartPolicy) == Manual then Degraded
          else if alone && old(processes)[p].numRestarts == old(processes)[p].maxRestarts then Degraded
          else old(operState)
    {
      if aborting || p >= |processes| || critical {
        Stay(t);
        return;
      }
      SetRunning(p, false);
      if restartPolicy == ProcessOnly || operState == RestartingProcesses {
        if processes[p].numRestarts == processes[p].maxRestarts {
          EnterState(Degraded, t.client);
        } else {
          RestartLater(p);
          Stay(t);
        }
      } else if restartPolicy == Manual {
        EnterState(Degraded, t.client);
      } else if numRestarts == maxRestarts {
        EnterState(Broken, t.client);
      } else {
        ChargeRestart();
        Stay(Model.RestartWait(t.client));
      }
    }

    method RestartLater(p: Model.ProcId)
      requires Valid() && p < |processes|
      modifies this
      ensures Valid() && Around() == old(Around())
      ensures Eff() == old(Eff()).(l := old(Value()).(
        procs := old(processes)[p := old(processes)[p].(numRestarts := old(processes)[p].numRestarts + 1,
          restartDelay := Model.Min(Model.MAX_RESTART_DELAY, old(processes)[p].restartDelay * 2))],
        delayed := old(delayed) + 1))
    {
      var proc := processes[p];
      processes := processes[p := proc.(numRestarts := proc.numRestarts + 1,
        restartDelay := Model.Min(Model.MAX_RESTART_DELAY, proc.restartDelay * 2))];
      delayed := delayed + 1;
    }

    // -------------------------------------------------------------- Offline

    method OfflineEntry(client: ClientId)
      requires Valid()
      modifies this, Pipes()
      ensures Valid() && Around() == old(Around())
      ensures Eff() == Model.OfflineEntry(old(Eff()), client)
    {
      NotifyParents();
      ResetNumRestarts();
      DisconnectProcesses();
      ResetProcessRestarts();
      Stay(Model.Serving(Offline, client, Offline));
    }

    method OfflineMessage(t: Model.Coro, m: Message)
      requires Valid() && t.Live?
      modifies this, Pipes()
      ensures Valid() && Around() == old(Around())
      ensures Eff() == Model.OfflineMessage(old(Eff()), t, m)
    {
      match m
      case ChangeAdmin(admin, client) =>
        if admin == AdminOffline {
          NotifyParents();
          Stay(t);
          return;
        }
        var next := HandleAdminCommand(AdminOnline, client, StartingChildren, Offline);
        if next == StartingChildren {
          SetAdmin(AdminOnline);
          SendToChildren(AdminOnline, client);
          EnterState(StartingChildren, NO_CLIENT);
        } else {
          Stay(t);
        }
      case ReportOper(_, oper) =>
        if oper == Restarting {
          EnterState(Restarting, t.client);
        } else {
          NotifyParents();
          Stay(t);
        }
      case _ => Stay(t);
    }

    // -------------------------------------------------------------- StartingChildren

    method StartingChildrenEntry(client: ClientId)
      requires Valid()
      modifies this, Pipes()
      ensures Valid() && Around() == old(Around())
      ensures Eff() == Model.StartingChildrenEntry(old(Eff()), old(Near()), client)
    {
      Childless();
      if children == [] {
        EnterState(Connecting, client);
      } else {
        NotifyParents();
        Stay(Model.Serving(StartingChildren, client, Connecting));
      }
    }

    /** The children are awaited before the processes are started. */
    method StartingChildrenCheck(t: Model.Coro)
      requires Valid() && t.Live?
      modifies this, Pipes()
      ensures Valid() && Around() == old(Around())
      ensures Eff() == Model.StartingChildrenCheck(old(Eff()), t, old(Near()))
    {
      var notified := AllNotified(t.notified);
      var online := ChildrenOnline();
      if !notified {
        Stay(t);
      } else if adminState == AdminOffline {
        EnterState(Offline, t.client);
      } else if t.next != Connecting {
        EnterState(t.next, t.client);
      } else if !online {
        Stay(t);
      } else {
        EnterState(t.next, t.client);
      }
    }

    method StartingChildrenMessage(t: Model.Coro, m: Message)
      requires Valid() && t.Live?
      modifies this, Pipes()
      ensures Valid() && Around() == old(Around())
      ensures Eff() == Model.StartingChildrenMessage(old(Eff()), t, old(Near()), m)
    {
      match m
      case ChangeAdmin(admin, client) =>
        var next := HandleAdminCommand(admin, client, Connecting, StoppingChildren);
        SendToChildren(admin, client);
        if next == StoppingChildren {
          SetAdmin(AdminOffline);
        }
        StartingChildrenCheck(t.(client := client, next := next));
      case ReportOper(child, oper) =>
        if oper == Broken {
          EnterState(Broken, t.client);
          return;
        }
        var heard := oper == Online || (adminState == AdminOffline && oper == Offline);
        NotifyParents();
        StartingChildrenCheck(if heard then t.(notified := t.notified + {child}) else t);
      case Abort(emergency) => Abort(t, emergency);
      case Restart(_) => EnterState(Restarting, t.client);
      case RestartSome(_, _) => Stay(t);
      case RestartCrashed => Stay(t);
    }

    method StartingChildrenEvent(t: Model.Coro, v: Model.Event)
      requires Valid() && t.Live?
      modifies this, Pipes()
      ensures Valid() && Around() == old(Around())
      ensures Eff() == Model.StartingChildrenEvent(old(Eff()), t, old(Near()), v)
    {
      if v.StopEvent? {
        Stay(t);
      } else {
        StartingChildrenCheck(t);
      }
    }

    // -------------------------------------------------------------- Connecting

    method ConnectAll()
      requires Valid()
      modifies this
      ensures Valid() && Around() == old(Around())
      ensures Eff() == old(Eff()).(l := Model.ConnectFrom(old(Value()).(oper := Connecting), 0))
    {
      SetOper(Connecting);
      ConnectProcesses();
    }

    method ConnectingEntry(client: ClientId)
      requires Valid()
      modifies this, Pipes()
      ensures Valid() && Around() == old(Around())
      ensures Eff() == Model.ConnectingEntry(old(Eff()), client)
    {
      ConnectAll();
      var connected := AllProcessesConnected();
      if connected {
        EnterState(StartingProcesses, client);
      } else {
        NotifyParents();
        Stay(Model.Serving(Connecting, client, Connecting));
      }
    }

    method ConnectingCheck(t: Model.Coro)
      requires Valid() && t.Live?
      modifies this, Pipes()
      ensures Valid() && Around() == old(Around())
      ensures Eff() == Model.ConnectingCheck(old(Eff()), t)
    {
      var connected := AllProcessesConnected();
      if connected {
        EnterState(StartingProcesses, t.client);
        SendToChildren(AdminOnline, t.client);
      } else {
        Stay(t);
      }
    }

    method ConnectingMessage(t: Model.Coro, m: Message)
      requires Valid() && t.Live?
      modifies this, Pipes()
      ensures Valid() && Around() == old(Around())
      ensures Eff() == Model.ConnectingMessage(old(Eff()), t, m)
    {
      match m
      case ChangeAdmin(admin, client) =>
        if admin == AdminOffline {
          var next := HandleAdminCommand(AdminOffline, client, StoppingProcesses, StoppingProcesses);
          EnterState(next, client);
          SetAdmin(AdminOffline);
        } else {
          ConnectingCheck(t);
        }
      case ReportOper(_, _) => ConnectingCheck(t);
      case Abort(emergency) => Abort(t, emergency);
      case Restart(_) => EnterState(Restarting, t.client);
      case RestartSome(_, _) => Stay(t);
      case RestartCrashed => Stay(t);
    }

    method ConnectingEvent(t: Model.Coro, v: Model.Event)
      requires Valid() && t.Live?
      modifies this, Pipes()
      ensures Valid() && Around() == old(Around())
      ensures Eff() == Model.ConnectingEvent(old(Eff()), t, v)
    {
      if v.StopEvent? {
        Stay(t);
      } else {
        ConnectingCheck(t);
      }
    }

    // -------------------------------------------------------------- StartingProcesses

    method StartingProcessesEntry(client: ClientId, reach: nat)
      requires Valid()
      modifies this, Pipes()
      ensures Valid() && Around() == old(Around())
      ensures Eff() == Model.StartingProcessesEntry(old(Eff()), client, reach)
    {
      if adminState == AdminOffline || processes == [] {
        EnterState(if adminState == AdminOffline then Offline else Online, client);
        NotifyParents();
        return;
      }
      SetOper(StartingProcesses);
      var ok := LaunchProcesses(reach);
      if ok {
        NotifyParents();
        Stay(Model.Serving(StartingProcesses, client, Online));
      } else if numRestarts == maxRestarts {
        EnterState(Broken, client);
      } else {
        ChargeRestart();
        Stay(Model.LaunchSleep(client));
      }
    }

    method StartingProcessesCheck(t: Model.Coro)
      requires Valid() && t.Live?
      modifies this, Pipes()
      ensures Valid() && Around() == old(Around())
      ensures Eff() == Model.StartingProcessesCheck(old(Eff()), t)
    {
      var running := AllProcessesRunning();
      if running {
        EnterState(t.next, t.client);
      } else {
        Stay(t);
      }
    }

    method StartingProcessesMessage(t: Model.Coro, m: Message)
      requires Valid() && t.Live?
      modifies this, Pipes()
      ensures Valid() && Around() == old(Around())
      ensures Eff() == Model.StartingProcessesMessage(old(Eff()), t, m)
    {
      match m
      case ChangeAdmin(admin, client) =>
        var next := HandleAdminCommand(admin, client, Online, StoppingProcesses);
        SendToChildren(admin, client);
        if next == StoppingProcesses {
          SetAdmin(AdminOffline);
        }
        StartingProcessesCheck(t.(client := client, next := next));
      case ReportOper(_, _) =>
        NotifyParents();
        StartingProcessesCheck(t);
      case Abort(emergency) => Abort(t, emergency);
      case Restart(_) => EnterState(Restarting, t.client);
      case RestartSome(client, _) => EnterState(StartingProcesses, client);
      case RestartCrashed => EnterState(StartingProcesses, NO_CLIENT);
    }

    method StartingProcessesEvent(t: Model.Coro, v: Model.Event, aborting: bool)
      requires Valid() && t.Live?
      modifies this, Pipes()
      ensures Valid() && Around() == old(Around())
      ensures Eff() == Model.StartingProcessesEvent(old(Eff()), t, v, aborting)
    {
      match v
      case StartEvent(p) =>
        SetRunning(p, true);
        StartingProcessesCheck(t);
      case StopEvent(p) =>
        if aborting {
          StartingProcessesCheck(t);
        } else {
          RestartIfPossibleAfterProcessCrash(t, p, aborting);
        }
      case _ => StartingProcessesCheck(t);
    }

    // -------------------------------------------------------------- Online

    method OnlineEntry(client: ClientId)
      requires Valid()
      modifies this, Pipes()
      ensures Valid() && Around() == old(Around())
      ensures Eff() == Model.OnlineEntry(old(Eff()), client)
    {
      NotifyParents();
      Stay(Model.Serving(Online, client, Online));
    }

    method OnlineMessage(t: Model.Coro, m: Message)
      requires Valid() && t.Live?
      modifies this, Pipes()
      ensures Valid() && Around() == old(Around())
      ensures Eff() == Model.OnlineMessage(old(Eff()), t, old(Near()), m)
    {
      match m
      case ChangeAdmin(admin, client) =>
        var released := ParentsOffline();
        if admin == AdminOffline && !released {
          NotifyParents();
          Stay(t);
          return;
        }
        var next := HandleAdminCommand(admin, client, Online, StoppingProcesses);
        if next == StoppingProcesses {
          SetAdmin(AdminOffline);
          EnterState(next, client);
        } else {
          Stay(t.(client := client, next := next));
        }
      case ReportOper(_, oper) =>
        if oper == Restarting || oper == Broken {
          EnterState(oper, t.client);
        } else {
          Stay(t);
        }
      case Abort(emergency) => Abort(t, emergency);
      case Restart(_) => EnterState(Restarting, t.client);
      case RestartSome(client, procs) =>
        StopForRestart(procs);
        EnterState(RestartingProcesses, client);
      case RestartCrashed => EnterState(Connecting, NO_CLIENT);
    }

    method OnlineEvent(t: Model.Coro, v: Model.Event, aborting: bool)
      requires Valid() && t.Live?
      modifies this, Pipes()
      ensures Valid() && Around() == old(Around())
      ensures Eff() == Model.OnlineEvent(old(Eff()), t, v, aborting)
    {
      match v
      case DisconnectEvent(k) =>
        DisconnectProcessesForCompute(k);
        EnterState(Restarting, NO_CLIENT);
      case StopEvent(p) => RestartIfPossibleAfterProcessCrash(t, p, aborting);
      case _ => Stay(t);
    }

    // -------------------------------------------------------------- StoppingProcesses

    method StoppingProcessesEntry(client: ClientId)
      requires Valid()
      modifies this, Pipes()
      ensures Valid() && Around() == old(Around())
      ensures Eff() == Model.StoppingProcessesEntry(old(Eff()), client)
    {
      var stopped := AllProcessesStopped();
      if stopped {
        SendToChildren(AdminOffline, client);
        EnterState(StoppingChildren, client);
      } else {
        StopProcesses();
        NotifyParents();
        Stay(Model.Serving(StoppingProcesses, client, StoppingChildren));
      }
    }

    method StoppingProcessesCheck(t: Model.Coro)
      requires Valid() && t.Live?
      modifies this, Pipes()
      ensures Valid() && Around() == old(Around())
      ensures Eff() == Model.StoppingProcessesCheck(old(Eff()), t)
    {
      var stopped := AllProcessesStopped();
      if stopped {
        SendToChildren(AdminOffline, t.client);
        EnterState(t.next, t.client);
      } else {
        Stay(t);
      }
    }

    method StoppingProcessesMessage(t: Model.Coro, m: Message)
      requires Valid() && t.Live?
      modifies this, Pipes()
      ensures Valid() && Around() == old(Around())
      ensures Eff() == Model.StoppingProcessesMessage(old(Eff()), t, m)
    {
      match m
      case ChangeAdmin(admin, client) =>
        var next := HandleAdminCommand(admin, client, Connecting, StoppingChildren);
        StoppingProcessesCheck(t.(client := client, next := next));
      case ReportOper(_, _) =>
        NotifyParents();
        StoppingProcessesCheck(t);
      case Abort(emergency) => Abort(t, emergency);
      case Restart(_) => EnterState(Restarting, t.client);
      case RestartSome(_, _) => Stay(t);
      case RestartCrashed => Stay(t);
    }

    method StoppingProcessesEvent(t: Model.Coro, v: Model.Event)
      requires Valid() && t.Live?
      modifies this, Pipes()
      ensures Valid() && Around() == old(Around())
      ensures Eff() == Model.StoppingProcessesEvent(old(Eff()), t, v)
    {
      match v
      case DisconnectEvent(k) =>
        DisconnectProcessesForCompute(k);
        StoppingProcessesCheck(t);
      case StopEvent(p) =>
        SetRunning(p, false);
        StoppingProcessesCheck(t);
      case _ => StoppingProcessesCheck(t);
    }

    // -------------------------------------------------------------- StoppingChildren

    method StoppingChildrenEntry(client: ClientId)
      requires Valid()
      modifies this, Pipes()
      ensures Valid() && Around() == old(Around())
      ensures Eff() == Model.StoppingChildrenEntry(old(Eff()), old(Near()), client)
    {
      Childless();
      if children == [] {
        EnterState(Offline, client);
      } else {
        NotifyParents();
        Stay(Model.Live(StoppingChildren, client, Offline, {}, {client}, {}));
      }
    }

    method StoppingChildrenCheck(t: Model.Coro)
      requires Valid() && t.Live?
      modifies this, Pipes()
      ensures Valid() && Around() == old(Around())
      ensures Eff() == Model.StoppingChildrenCheck(old(Eff()), t, old(Near()))
    {
      var notified := AllNotified(t.notified);
      var released := ChildrenReleased(t.requests);
      if !notified {
        Stay(t);
      } else if t.next == StartingChildren {
        EnterState(t.next, t.client);
      } else if !released {
        Stay(t);
      } else {
        SendToChildren(AdminOffline, t.client);
        EnterState(t.next, t.client);
      }
    }

    method StoppingChildrenMessage(t: Model.Coro, m: Message)
      requires Valid() && t.Live?
      modifies this, Pipes()
      ensures Valid() && Around() == old(Around())
      ensures Eff() == Model.StoppingChildrenMessage(old(Eff()), t, old(Near()), m)
    {
      match m
      case ChangeAdmin(admin, client) =>
        var next := HandleAdminCommand(admin, client, StartingChildren, Offline);
        var requests := if admin == AdminOffline then t.requests + {client} else t.requests - {client};
        StoppingChildrenCheck(t.(client := client, next := next, requests := requests));
      case ReportOper(child, oper) =>
        NotifyParents();
        StoppingChildrenCheck(if oper == Online || oper == Offline then t.(notified := t.notified + {child}) else t);
      case Abort(emergency) => Abort(t, emergency);
      case Restart(_) => EnterState(Restarting, t.client);
      case RestartSome(_, _) => Stay(t);
      case RestartCrashed => Stay(t);
    }

    // -------------------------------------------------------------- Restarting

    method RestartingEntry(client: ClientId)
      requires Valid()
      modifies this, Pipes()
      ensures Valid() && Around() == old(Around())
      ensures Eff() == Model.RestartingEntry(old(Eff()), old(Near()), client)
    {
      Childless();
      var stopped := AllProcessesStopped();
      if stopped {
        if parents == [] {
          RestartNow(client);
          return;
        }
        NotifyParents();
      }
      StopProcesses();
      Stay(Model.Serving(Restarting, client, Restarting));
    }

    /** A subsystem with parents waits for them to order the restart. */
    method RestartingCheck(t: Model.Coro)
      requires Valid() && t.Live?
      modifies this, Pipes()
      ensures Valid() && Around() == old(Around())
      ensures Eff() == Model.RestartingCheck(old(Eff()), t, old(Near()))
    {
      Childless();
      var stopped := AllProcessesStopped();
      if !stopped {
        Stay(t);
      } else if parents == [] {
        RestartNow(t.client);
      } else {
        NotifyParents();
        Stay(t);
      }
    }

    method RestartingMessage(t: Model.Coro, m: Message)
      requires Valid() && t.Live?
      modifies this, Pipes()
      ensures Valid() && Around() == old(Around())
      ensures Eff() == Model.RestartingMessage(old(Eff()), t, old(Near()), m)
    {
      match m
      case ChangeAdmin(admin, _) =>
        if admin == AdminOnline {
          RestartNow(t.client);
        } else {
          NotifyParents();
          RestartingCheck(t);
        }
      case ReportOper(_, _) => RestartingCheck(t);
      case Abort(emergency) => Abort(t, emergency);
      case _ => Stay(t);
    }

    method RestartingEvent(t: Model.Coro, v: Model.Event)
      requires Valid() && t.Live?
      modifies this, Pipes()
      ensures Valid() && Around() == old(Around())
      ensures Eff() == Model.RestartingEvent(old(Eff()), t, old(Near()), v)
    {
      if v.StopEvent? {
        SetRunning(v.proc, false);
      }
      RestartingCheck(t);
    }

    // -------------------------------------------------------------- RestartingProcesses

    method RestartingProcessesEntry(client: ClientId)
      requires Valid()
      modifies this, Pipes()
      ensures Valid() && Around() == old(Around())
      ensures Eff() == Model.RestartingProcessesEntry(old(Eff()), old(Near()), client)
    {
      Childless();
      var stopped := StoppedAmong(processesToRestart);
      if stopped {
        if parents == [] {
          EnterState(Connecting, client);
          return;
        }
        NotifyParents();
      }
      Stay(Model.Serving(RestartingProcesses, client, Connecting));
    }

    method RestartingProcessesCheck(t: Model.Coro)
      requires Valid() && t.Live?
      modifies this, Pipes()
      ensures Valid() && Around() == old(Around())
      ensures Eff() == Model.RestartingProcessesCheck(old(Eff()), t)
    {
      var stopped := StoppedAmong(processesToRestart);
      if stopped {
        EnterState(Connecting, t.client);
      } else {
        Stay(t);
      }
    }

    method RestartingProcessesMessage(t: Model.Coro, m: Message)
      requires Valid() && t.Live?
      modifies this, Pipes()
      ensures Valid() && Around() == old(Around())
      ensures Eff() == Model.RestartingProcessesMessage(old(Eff()), t, m)
    {
      match m
      case ChangeAdmin(admin, _) =>
        if admin == AdminOnline {
          EnterState(Connecting, t.client);
        } else {
          NotifyParents();
          RestartingProcessesCheck(t);
        }
      case ReportOper(_, _) => RestartingProcessesCheck(t);
      case Abort(emergency) => Abort(t, emergency);
      case Restart(_) => Stay(t);
      case RestartSome(_, _) => RestartingProcessesCheck(t);
      case RestartCrashed => Stay(t);
    }

    method RestartingProcessesEvent(t: Model.Coro, v: Model.Event, aborting: bool)
      requires Valid() && t.Live?
      modifies this, Pipes()
      ensures Valid() && Around() == old(Around())
      ensures Eff() == Model.RestartingProcessesEvent(old(Eff()), t, v, aborting)
    {
      match v
      case StartEvent(p) =>
        SetRunning(p, true);
        RestartingProcessesCheck(if p < |processes| then t.(started := t.started + {p}) else t);
      case StopEvent(p) =>
        if p in t.started {
          RestartIfPossibleAfterProcessCrash(t.(started := t.started - {p}), p, aborting);
        } else {
          SetRunning(p, false);
          RestartingProcessesCheck(t);
        }
      case _ => RestartingProcessesCheck(t);
    }

    // -------------------------------------------------------------- Broken and Degraded

    method BrokenEntry(state: OperState, client: ClientId)
      requires Valid()
      modifies this, Pipes()
      ensures Valid() && Around() == old(Around())
      ensures Eff() == Model.BrokenEntry(old(Eff()), state, client)
    {
      NotifyParents();
      Stay(Model.Serving(state, client, state));
    }

    method Repair()
      requires Valid()
      modifies this
      ensures Valid() && Around() == old(Around())
      ensures Eff() == old(Eff()).(l := Model.Repaired(old(Value())))
    {
      ResetNumRestarts();
      ResetProcessRestarts();
    }

    method BrokenMessage(t: Model.Coro, m: Message)
      requires Valid() && t.Live?
      modifies this, Pipes()
      ensures Valid() && Around() == old(Around())
      ensures Eff() == Model.BrokenMessage(old(Eff()), t, m)
    {
      match m
      case ChangeAdmin(admin, client) =>
        Repair();
        if admin == AdminOnline {
          SetClients(activeClients.Set(t.client));
          EnterState(StartingChildren, t.client);
        } else {
          SetClients(activeClients.Clear(t.client));
          SetAdmin(AdminOffline);
          EnterState(StoppingChildren, t.client);
        }
        SendToChildren(admin, client);
      case Restart(client) =>
        Repair();
        SetClients(activeClients.Set(t.client));
        EnterState(StartingChildren, t.client);
        SendToChildren(AdminOffline, client);
      case RestartSome(_, _) =>
        Repair();
        SetClients(activeClients.Set(t.client));
        EnterState(Connecting, t.client);
      case Abort(emergency) => Abort(t, emergency);
      case ReportOper(_, _) => Stay(t);
      case RestartCrashed => Stay(t);
    }

    // -------------------------------------------------------------- the restart wait

    method WaitMessage(t: Model.Coro, m: Message)
      requires Valid() && t.RestartWait?
      modifies this, Pipes()
      ensures Valid() && Around() == old(Around())
      ensures Eff() == Model.WaitMessage(old(Eff()), t, m)
    {
      match m
      case ChangeAdmin(admin, _) =>
        if admin == AdminOnline {
          EnterState(Restarting, t.client);
        } else {
          Stay(t);
        }
      case Abort(emergency) =>
        if !emergency && critical {
          Stay(t);
        } else {
          StopRunning();
          EnterState(Offline, NO_CLIENT);
          EnterState(Restarting, t.client);
        }
      case _ => Stay(t);
    }

    method WaitEvent(t: Model.Coro, v: Model.Event)
      requires Valid() && t.RestartWait?
      modifies this, Pipes()
      ensures Valid() && Around() == old(Around())
      ensures Eff() == Model.WaitEvent(old(Eff()), t, v)
    {
      if v.StopEvent? {
        SetRunning(v.proc, false);
      }
      Stay(t);
    }

    // -------------------------------------------------------------- steps

    /** The pipes of the neighbours hold what they held when the step began, and what it sent. */
    ghost predicate Sent(e: Model.Effect)
      reads this, Pipes()
    {
      && (forall p {:trigger p.pipe} :: p in parents ==> p.pipe in base && p.pipe.queue == base[p.pipe] + Reports(id, e.ups))
      && (forall d {:trigger d.pipe} :: d in children ==> d.pipe in base && d.pipe.queue == base[d.pipe] + Commands(e.downs))
    }

    /** Nothing has been sent yet. */
    ghost method BeginSending()
      requires IsApart()
      modifies this`ups, this`downs, this`base
      ensures Valid() && Eff() == Model.Effect(Value(), [], [])
      ensures base == Held()
    {
      ups, downs := [], [];
      base := Held();
      NothingSent();
    }

    lemma NothingSent()
      requires IsApart() && ups == [] && downs == [] && base == Held()
      ensures IsDelivered()
    {
      assert Reports(id, ups) == [] && Commands(downs) == [];
    }

    /** A step takes the coroutine that runs out of the list. */
    method BeginStep(k: nat) returns (t: Model.Coro)
      requires IsApart() && k < |coroutines|
      modifies this`coroutines, this`ups, this`downs, this`base
      ensures Valid() && Eff() == Model.Without(old(Value()), k) && t == old(coroutines)[k]
      ensures base == old(Held())
      ensures Near() == old(Near())
    {
      t := coroutines[k];
      coroutines := coroutines[..k] + coroutines[k+1..];
      BeginSending();
    }

    lemma StepDone()
      requires Valid()
      ensures IsApart() && Sent(Eff())
    {
    }

    /** A scheduled coroutine performs the entry actions of its state. */
    method RunState(k: nat, reach: nat)
      requires IsApart() && k < |coroutines| && coroutines[k].Scheduled?
      modifies this, Pipes()
      ensures IsApart() && parents == old(parents) && children == old(children)
      ensures base == old(Held())
      ensures var e := Model.RunEntry(old(Value()), k, old(Near()), reach); Value() == e.l && Sent(e)
    {
      var t := BeginStep(k);
      HandleEntry(t, reach);
      StepDone();
    }

    method HandleEntry(t: Model.Coro, reach: nat)
      requires Valid() && t.Scheduled?
      modifies this, Pipes()
      ensures Valid() && Around() == old(Around())
      ensures Eff() == Model.HandleEntry(old(Eff()), t, old(Near()), reach)
    {
      match t.state {
        case Offline => OfflineEntry(t.client);
        case StartingChildren => StartingChildrenEntry(t.client);
        case Connecting => ConnectingEntry(t.client);
        case StartingProcesses => StartingProcessesEntry(t.client, reach);
        case Online => OnlineEntry(t.client);
        case StoppingProcesses => StoppingProcessesEntry(t.client);
        case StoppingChildren => StoppingChildrenEntry(t.client);
        case Restarting => RestartingEntry(t.client);
        case RestartingProcesses => RestartingProcessesEntry(t.client);
        case Broken => BrokenEntry(Broken, t.client);
        case Degraded => BrokenEntry(Degraded, t.client);
      }
    }

    method ReadMessage() returns (m: Message)
      requires IsApart() && pipe.queue != []
      modifies pipe
      ensures IsApart() && m == old(pipe.queue)[0] && pipe.queue == old(pipe.queue)[1..]
    {
      m := pipe.queue[0];
      pipe.queue := pipe.queue[1..];
    }

    /** A coroutine that waits for messages takes the first one out of the pipe. */
    method ServeMessage(k: nat)
      requires IsApart() && k < |coroutines| && Model.Serves(coroutines[k]) && pipe.queue != []
      modifies this, pipe, Pipes()
      ensures IsApart() && parents == old(parents) && children == old(children)
      ensures pipe.queue == old(pipe.queue)[1..]
      ensures base == old(Held())
      ensures var e := Model.TakeMessage(old(Value()), k, old(Near()), old(pipe.queue)[0]); Value() == e.l && Sent(e)
    {
      var m := ReadMessage();
      Serve(k, m);
    }

    method Serve(k: nat, m: Message)
      requires IsApart() && k < |coroutines| && Model.Serves(coroutines[k])
      modifies this, Pipes()
      ensures IsApart() && parents == old(parents) && children == old(children)
      ensures base == old(Held())
      ensures var e := Model.TakeMessage(old(Value()), k, old(Near()), m); Value() == e.l && Sent(e)
    {
      var t := BeginStep(k);
      HandleMessage(t, m);
      StepDone();
    }

    method HandleMessage(t: Model.Coro, m: Message)
      requires Valid() && Model.Serves(t)
      modifies this, Pipes()
      ensures Valid() && Around() == old(Around())
      ensures Eff() == Model.HandleMessage(old(Eff()), t, old(Near()), m)
    {
      if t.RestartWait? {
        WaitMessage(t, m);
        return;
      }
      match t.state {
        case Offline => OfflineMessage(t, m);
        case StartingChildren => StartingChildrenMessage(t, m);
        case Connecting => ConnectingMessage(t, m);
        case StartingProcesses => StartingProcessesMessage(t, m);
        case Online => OnlineMessage(t, m);
        case StoppingProcesses => StoppingProcessesMessage(t, m);
        case StoppingChildren => StoppingChildrenMessage(t, m);
        case Restarting => RestartingMessage(t, m);
        case RestartingProcesses => RestartingProcessesMessage(t, m);
        case Broken => BrokenMessage(t, m);
        case Degraded => BrokenMessage(t, m);
      }
    }

    /** A coroutine takes an event from StageZero. */
    method ServeEvent(k: nat, v: Model.Event, aborting: bool)
      requires IsApart() && k < |coroutines| && Model.Serves(coroutines[k])
      modifies this, Pipes()
      ensures IsApart() && parents == old(parents) && children == old(children)
      ensures base == old(Held())
      ensures var e := Model.TakeEvent(old(Value()), k, old(Near()), v, aborting); Value() == e.l && Sent(e)
    {
      var t := BeginStep(k);
      ReadEvent(v);
      HandleEvent(t, v, aborting);
      StepDone();
    }

    /** The client closes its sockets when it reads that the connection is lost. */
    method ReadEvent(v: Model.Event)
      requires Valid()
      modifies this
      ensures Valid() && Around() == old(Around())
      ensures Eff() == Model.Read(old(Eff()), v)
    {
      if v.DisconnectEvent? && v.compute in umbilicals {
        umbilicals := umbilicals[v.compute := umbilicals[v.compute].Lose()];
      }
    }

    method HandleEvent(t: Model.Coro, v: Model.Event, aborting: bool)
      requires Valid() && Model.Serves(t)
      modifies this, Pipes()
      ensures Valid() && Around() == old(Around())
      ensures Eff() == Model.HandleEvent(old(Eff()), t, old(Near()), v, aborting)
    {
      if t.RestartWait? {
        WaitEvent(t, v);
        return;
      }
      match t.state {
        case StartingChildren => StartingChildrenEvent(t, v);
        case Connecting => ConnectingEvent(t, v);
        case StartingProcesses => StartingProcessesEvent(t, v, aborting);
        case Online => OnlineEvent(t, v, aborting);
        case StoppingProcesses => StoppingProcessesEvent(t, v);
        case StoppingChildren => StoppingChildrenCheck(t);
        case Restarting => RestartingEvent(t, v);
        case RestartingProcesses => RestartingProcessesEvent(t, v, aborting);
        case Offline => Stay(t);
        case Broken => Stay(t);
        case Degraded => Stay(t);
      }
    }

    /** A restart delay, or the sleep after a failed launch, is over. */
    method ServeTimeout(k: nat)
      requires IsApart() && k < |coroutines| && (coroutines[k].RestartWait? || coroutines[k].LaunchSleep?)
      modifies this, Pipes()
      ensures IsApart() && parents == old(parents) && children == old(children)
      ensures base == old(Held())
      ensures var e := Model.Expire(old(Value()), k); Value() == e.l && Sent(e)
    {
      var t := BeginStep(k);
      EnterState(Restarting, t.client);
      StepDone();
    }
  }

  lemma {:induction false} LooksOf(ss: seq<Subsystem>)
    requires DistinctIds(ss)
    ensures forall i {:trigger ss[i]} :: 0 <= i < |ss| ==> ss[i].id in Looks(ss) && Looks(ss)[ss[i].id] == ss[i].Look()
    ensures forall k :: k in Looks(ss) ==> exists i :: 0 <= i < |ss| && ss[i].id == k
    decreases |ss|
  {
    if ss != [] {
      var n := |ss| - 1;
      LooksOf(ss[..n]);
      forall i {:trigger ss[i]} | 0 <= i < |ss| ensures ss[i].id in Looks(ss) && Looks(ss)[ss[i].id] == ss[i].Look() {
        if i < n {
          assert ss[..n][i] == ss[i];
        }
      }
      forall k | k in Looks(ss) ensures exists i :: 0 <= i < |ss| && ss[i].id == k {
        if k != ss[n].id {
          var i :| 0 <= i < n && ss[..n][i].id == k;
          assert ss[i].id == k;
        } else {
          assert ss[n].id == k;
        }
      }
    }
  }

  /** One message into the pipe of each. */
  method SendAll(ss: seq<Subsystem>, message: Message)
    requires DistinctIds(ss)
    modifies set p | p in ss :: p.pipe
    ensures forall p {:trigger p.pipe} :: p in ss ==> p.pipe.queue == old(p.pipe.queue) + [message]
  {
    var i := 0;
    while i < |ss|
      invariant 0 <= i <= |ss|
      invariant forall j {:trigger ss[j]} :: 0 <= j < i ==> ss[j].pipe.queue == old(ss[j].pipe.queue) + [message]
      invariant forall j {:trigger ss[j]} :: i <= j < |ss| ==> ss[j].pipe.queue == old(ss[j].pipe.queue)
    {
      assert forall j :: 0 <= j < |ss| && j != i ==> ss[j].pipe != ss[i].pipe;
      ss[i].pipe.Write(message);
      i := i + 1;
    }
  }

  lemma ReportsMore(id: SubId, ups: seq<OperState>, o: OperState)
    ensures Reports(id, ups + [o]) == Reports(id, ups) + [Model.ReportOper(id, o)]
  {
  }

  lemma CommandsMore(downs: seq<Model.Down>, d: Model.Down)
    ensures Commands(downs + [d]) == Commands(downs) + [Model.ChangeAdmin(d.admin, d.client)]
  {
  }
}
