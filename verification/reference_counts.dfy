/** Reference counts of a subsystem's umbilicals against the processes that hold them. */
module ReferenceCounts {
  import opened States
  import opened ClientBits
  import opened Umbilicals
  import opened SubsystemModel
  import opened Network

  /** How many of the processes hold a connection to compute k. */
  function Users(procs: seq<Proc>, k: ComputeId): nat {
    if procs == [] then 0
    else Users(procs[..|procs|-1], k)
         + if procs[|procs|-1].maybeConnected && procs[|procs|-1].compute == k then 1 else 0
  }

  /** Counts are exact, and an umbilical nobody holds is closed. */
  ghost predicate Wired(procs: seq<Proc>, umbilicals: map<ComputeId, Umb>) {
    && (forall p | 0 <= p < |procs| :: procs[p].compute in umbilicals)
    && forall k | k in umbilicals ::
         && !umbilicals[k].isStatic
         && umbilicals[k].dynamicRefs == Users(procs, k)
         && (umbilicals[k].dynamicRefs == 0 ==> umbilicals[k].state == LinkClosed)
  }

  predicate SameWires(l: Local, r: Local) {
    && r.umbilicals == l.umbilicals && |r.procs| == |l.procs|
    && forall p | 0 <= p < |l.procs| ::
         r.procs[p].maybeConnected == l.procs[p].maybeConnected && r.procs[p].compute == l.procs[p].compute
  }

  ghost predicate WireStep(l: Local, r: Local) {
    SameWires(l, r) || (Wired(l.procs, l.umbilicals) ==> Wired(r.procs, r.umbilicals))
  }

  lemma {:induction false} UsersSame(a: seq<Proc>, b: seq<Proc>, k: ComputeId)
    requires |a| == |b|
    requires forall p | 0 <= p < |a| :: a[p].maybeConnected == b[p].maybeConnected && a[p].compute == b[p].compute
    ensures Users(a, k) == Users(b, k)
  {
    if a != [] {
      UsersSame(a[..|a|-1], b[..|b|-1], k);
    }
  }

  lemma {:induction false} UsersUpdate(a: seq<Proc>, p: ProcId, x: Proc, k: ComputeId)
    requires p < |a| && x.compute == a[p].compute
    ensures Users(a[p := x], k) ==
            Users(a, k)
            + (if x.maybeConnected && x.compute == k then 1 else 0)
            - (if a[p].maybeConnected && a[p].compute == k then 1 else 0)
  {
    var b := a[p := x];
    if p == |a| - 1 {
      assert b[..|b|-1] == a[..|a|-1];
    } else {
      assert b[..|b|-1] == a[..|a|-1][p := x];
      UsersUpdate(a[..|a|-1], p, x, k);
    }
  }

  lemma WiresKept(l: Local, r: Local)
    requires WireStep(l, r) && Wired(l.procs, l.umbilicals)
    ensures Wired(r.procs, r.umbilicals)
  {
    if SameWires(l, r) {
      forall k | k in r.umbilicals ensures Users(r.procs, k) == Users(l.procs, k) {
        UsersSame(r.procs, l.procs, k);
      }
    }
  }

  lemma ConnectWired(l: Local, p: ProcId)
    requires p < |l.procs| && Wired(l.procs, l.umbilicals)
    ensures Wired(ConnectProcess(l, p).procs, ConnectProcess(l, p).umbilicals)
  {
    var r := ConnectProcess(l, p);
    forall k ensures Users(r.procs, k) ==
        Users(l.procs, k) + (if !l.procs[p].maybeConnected && l.procs[p].compute == k then 1 else 0) {
      if !l.procs[p].maybeConnected {
        UsersUpdate(l.procs, p, r.procs[p], k);
      }
    }
  }

  lemma DisconnectWired(l: Local, p: ProcId)
    requires p < |l.procs| && Wired(l.procs, l.umbilicals)
    ensures Wired(DisconnectProcess(l, p).procs, DisconnectProcess(l, p).umbilicals)
  {
    var r := DisconnectProcess(l, p);
    forall k ensures Users(r.procs, k) ==
        Users(l.procs, k) - (if l.procs[p].maybeConnected && l.procs[p].compute == k then 1 else 0) {
      if l.procs[p].maybeConnected {
        UsersUpdate(l.procs, p, r.procs[p], k);
      }
    }
  }

  lemma StopWired(l: Local, p: ProcId)
    requires p < |l.procs| && Wired(l.procs, l.umbilicals)
    ensures Wired(StopProcess(l, p).procs, StopProcess(l, p).umbilicals)
  {
    if l.procs[p].running {
      WiresKept(l, StopProcess(l, p));
    } else {
      DisconnectWired(l, p);
    }
  }

  lemma {:induction false} NobodyConnected(procs: seq<Proc>, k: ComputeId)
    requires forall p | 0 <= p < |procs| :: !procs[p].maybeConnected
    ensures Users(procs, k) == 0
  {
    if procs != [] {
      NobodyConnected(procs[..|procs|-1], k);
    }
  }

  // ---------------------------------------------------------------- the loops

  lemma ConnectAllWired(l: Local, p: ProcId)
    requires Wired(l.procs, l.umbilicals)
    ensures Wired(ConnectFrom(l, p).procs, ConnectFrom(l, p).umbilicals)
    decreases |l.procs| - p
  {
    if p < |l.procs| {
      ConnectWired(l, p);
      ConnectAllWired(ConnectProcess(l, p), p + 1);
    }
  }

  lemma DisconnectAllWired(l: Local, p: ProcId)
    requires Wired(l.procs, l.umbilicals)
    requires forall q | 0 <= q < p && q < |l.procs| :: !l.procs[q].maybeConnected
    ensures var r := DisconnectFrom(l, p);
            && Wired(r.procs, r.umbilicals)
            && forall q | 0 <= q < |r.procs| :: !r.procs[q].maybeConnected
    decreases |l.procs| - p
  {
    if p < |l.procs| {
      DisconnectWired(l, p);
      DisconnectAllWired(DisconnectProcess(l, p), p + 1);
    }
  }

  lemma DisconnectComputeWired(l: Local, k: ComputeId, p: ProcId)
    requires Wired(l.procs, l.umbilicals)
    ensures var r := DisconnectComputeFrom(l, k, p);
            Wired(r.procs, r.umbilicals)
    decreases |l.procs| - p
  {
    if p < |l.procs| {
      DisconnectWired(l, p);
      DisconnectComputeWired(if l.procs[p].compute == k then DisconnectProcess(l, p) else l, k, p + 1);
    }
  }

  lemma StopAllWired(l: Local, p: ProcId)
    requires Wired(l.procs, l.umbilicals)
    ensures Wired(StopFrom(l, p).procs, StopFrom(l, p).umbilicals)
    decreases |l.procs| - p
  {
    if p < |l.procs| {
      StopWired(l, p);
      StopAllWired(StopProcess(l, p), p + 1);
    }
  }

  lemma StopListedWired(l: Local, ps: seq<ProcId>)
    requires Wired(l.procs, l.umbilicals)
    ensures Wired(StopListed(l, ps).procs, StopListed(l, ps).umbilicals)
    decreases |ps|
  {
    if ps != [] {
      if ps[0] < |l.procs| && l.procs[ps[0]].running {
        StopWired(l, ps[0]);
        StopListedWired(StopProcess(l, ps[0]), ps[1..]);
      } else {
        StopListedWired(l, ps[1..]);
      }
    }
  }

  // ---------------------------------------------------------------- every step of a subsystem

  ghost predicate Accounted(l: Local) {
    Wired(l.procs, l.umbilicals)
  }

  predicate HandsOff(l: Local, r: Local) {
    r.procs == l.procs && r.umbilicals == l.umbilicals
  }

  lemma QuietKept(l: Local, r: Local)
    requires Accounted(l) && SameWires(l, r)
    ensures Accounted(r)
  {
    WiresKept(l, r);
  }

  lemma OfflineEntryAccounted(e: Effect, c: ClientId)
    requires Accounted(e.l)
    ensures Accounted(OfflineEntry(e, c).l)
  {
    var r := DisconnectFrom(e.l.(numRestarts := 0), 0);
    DisconnectAllWired(e.l.(numRestarts := 0), 0);
    QuietKept(r, ResetProcessRestarts(r));
  }

  lemma ConnectingEntryAccounted(e: Effect, c: ClientId)
    requires Accounted(e.l)
    ensures Accounted(ConnectingEntry(e, c).l)
  {
    ConnectAllWired(e.l.(oper := Connecting), 0);
  }

  lemma StoppingProcessesEntryAccounted(e: Effect, c: ClientId)
    requires Accounted(e.l)
    ensures Accounted(StoppingProcessesEntry(e, c).l)
  {
    StopAllWired(e.l, 0);
  }

  lemma RestartingEntryAccounted(e: Effect, nb: Neighbours, c: ClientId)
    requires Accounted(e.l)
    ensures Accounted(RestartingEntry(e, nb, c).l)
  {
    StopAllWired(e.l, 0);
  }

  lemma EntryAccounted(l: Local, k: nat, nb: Neighbours, launch: nat)
    requires k < |l.coros| && l.coros[k].Scheduled? && Accounted(l)
    ensures Accounted(RunEntry(l, k, nb, launch).l)
  {
    var e := Without(l, k);
    var c := l.coros[k].client;
    match l.coros[k].state {
      case Offline => OfflineEntryAccounted(e, c);
      case Connecting => ConnectingEntryAccounted(e, c);
      case StoppingProcesses => StoppingProcessesEntryAccounted(e, c);
      case Restarting => RestartingEntryAccounted(e, nb, c);
      case _ =>
    }
  }

  /** No connection changes and no process starts to run. */
  predicate Quiet(l: Local, r: Local) {
    SameWires(l, r) && forall p | 0 <= p < |l.procs| :: r.procs[p].running ==> l.procs[p].running
  }

  /** In Online a restart of processes stops or disconnects them. */
  predicate RestartsProcesses(t: Coro, m: Message) {
    t.Live? && t.state == Online && m.RestartSome?
  }

  // Any other message aborts, repairs, or leaves the processes alone.

  lemma OfflineMessageQuiet(e: Effect, t: Coro, m: Message)
    requires t.Live?
    ensures Quiet(e.l, OfflineMessage(e, t, m).l)
  {
  }

  lemma StartingChildrenMessageQuiet(e: Effect, t: Coro, nb: Neighbours, m: Message)
    requires t.Live?
    ensures Quiet(e.l, StartingChildrenMessage(e, t, nb, m).l)
  {
  }

  lemma ConnectingMessageQuiet(e: Effect, t: Coro, m: Message)
    requires t.Live?
    ensures Quiet(e.l, ConnectingMessage(e, t, m).l)
  {
  }

  lemma StartingProcessesMessageQuiet(e: Effect, t: Coro, m: Message)
    requires t.Live?
    ensures Quiet(e.l, StartingProcessesMessage(e, t, m).l)
  {
  }

  lemma StoppingProcessesMessageQuiet(e: Effect, t: Coro, m: Message)
    requires t.Live?
    ensures Quiet(e.l, StoppingProcessesMessage(e, t, m).l)
  {
  }

  lemma StoppingChildrenMessageQuiet(e: Effect, t: Coro, nb: Neighbours, m: Message)
    requires t.Live?
    ensures Quiet(e.l, StoppingChildrenMessage(e, t, nb, m).l)
  {
  }

  lemma RestartingMessageQuiet(e: Effect, t: Coro, nb: Neighbours, m: Message)
    requires t.Live?
    ensures Quiet(e.l, RestartingMessage(e, t, nb, m).l)
  {
  }

  lemma RestartingProcessesMessageQuiet(e: Effect, t: Coro, m: Message)
    requires t.Live?
    ensures Quiet(e.l, RestartingProcessesMessage(e, t, m).l)
  {
  }

  lemma OnlineMessageQuiet(e: Effect, t: Coro, nb: Neighbours, m: Message)
    requires t.Live? && !m.RestartSome?
    ensures Quiet(e.l, OnlineMessage(e, t, nb, m).l)
  {
  }

  lemma BrokenMessageQuiet(e: Effect, t: Coro, m: Message)
    requires t.Live?
    ensures Quiet(e.l, BrokenMessage(e, t, m).l)
  {
  }

  lemma MessageQuiet(e: Effect, t: Coro, nb: Neighbours, m: Message)
    requires Serves(t) && !RestartsProcesses(t, m)
    ensures Quiet(e.l, HandleMessage(e, t, nb, m).l)
  {
    if t.Live? {
      match t.state {
        case Offline => OfflineMessageQuiet(e, t, m);
        case StartingChildren => StartingChildrenMessageQuiet(e, t, nb, m);
        case Connecting => ConnectingMessageQuiet(e, t, m);
        case StartingProcesses => StartingProcessesMessageQuiet(e, t, m);
        case StoppingProcesses => StoppingProcessesMessageQuiet(e, t, m);
        case StoppingChildren => StoppingChildrenMessageQuiet(e, t, nb, m);
        case Restarting => RestartingMessageQuiet(e, t, nb, m);
        case RestartingProcesses => RestartingProcessesMessageQuiet(e, t, m);
        case Online => OnlineMessageQuiet(e, t, nb, m);
        case Broken => BrokenMessageQuiet(e, t, m);
        case Degraded => BrokenMessageQuiet(e, t, m);
      }
    }
  }

  lemma MessageAccounted(l: Local, k: nat, nb: Neighbours, m: Message)
    requires k < |l.coros| && Serves(l.coros[k]) && Accounted(l)
    ensures Accounted(TakeMessage(l, k, nb, m).l)
  {
    var e := Without(l, k);
    if RestartsProcesses(l.coros[k], m) {
      StopAllWired(e.l.(toRestart := seq(|e.l.procs|, p => p)), 0);
      StopListedWired(e.l.(toRestart := m.procs), m.procs);
    } else {
      MessageQuiet(e, l.coros[k], nb, m);
      QuietKept(e.l, TakeMessage(l, k, nb, m).l);
    }
  }

  /** In Online and StoppingProcesses a lost connection disconnects processes. */
  predicate DropsProcesses(t: Coro, v: Event) {
    t.Live? && (t.state == Online || t.state == StoppingProcesses) && v.DisconnectEvent?
  }

  /** Where a start event makes its process run. */
  predicate StartsProcess(t: Coro, v: Event) {
    t.Live? && (t.state == StartingProcesses || t.state == RestartingProcesses) && v.StartEvent?
  }

  /** A start event sets the flag of its process, any other event starts nothing. */
  ghost predicate EventStep(l: Local, t: Coro, v: Event, r: Local) {
    if StartsProcess(t, v) then HandsOff(l.SetRunning(v.proc, true), r) else Quiet(l, r)
  }

  lemma StartingProcessesEventStep(e: Effect, t: Coro, v: Event, aborting: bool)
    requires t.Live? && t.state == StartingProcesses
    ensures EventStep(e.l, t, v, StartingProcessesEvent(e, t, v, aborting).l)
  {
  }

  lemma OnlineEventStep(e: Effect, t: Coro, v: Event, aborting: bool)
    requires t.Live? && !v.DisconnectEvent?
    ensures Quiet(e.l, OnlineEvent(e, t, v, aborting).l)
  {
  }

  lemma StoppingProcessesEventStep(e: Effect, t: Coro, v: Event)
    requires t.Live? && !v.DisconnectEvent?
    ensures Quiet(e.l, StoppingProcessesEvent(e, t, v).l)
  {
  }

  lemma RestartingEventStep(e: Effect, t: Coro, nb: Neighbours, v: Event)
    requires t.Live?
    ensures Quiet(e.l, RestartingEvent(e, t, nb, v).l)
  {
  }

  lemma RestartingProcessesEventStep(e: Effect, t: Coro, v: Event, aborting: bool)
    requires t.Live? && t.state == RestartingProcesses
    ensures EventStep(e.l, t, v, RestartingProcessesEvent(e, t, v, aborting).l)
  {
  }

  lemma HandledEventStep(e: Effect, t: Coro, nb: Neighbours, v: Event, aborting: bool)
    requires Serves(t) && !DropsProcesses(t, v)
    ensures EventStep(e.l, t, v, HandleEvent(e, t, nb, v, aborting).l)
  {
    if t.Live? {
      match t.state {
        case StartingProcesses => StartingProcessesEventStep(e, t, v, aborting);
        case Online => OnlineEventStep(e, t, v, aborting);
        case StoppingProcesses => StoppingProcessesEventStep(e, t, v);
        case Restarting => RestartingEventStep(e, t, nb, v);
        case RestartingProcesses => RestartingProcessesEventStep(e, t, v, aborting);
        case _ =>
      }
    }
  }

  lemma ReadAccounted(e: Effect, v: Event)
    requires Accounted(e.l)
    ensures Accounted(Read(e, v).l) && Read(e, v).l.procs == e.l.procs
  {
  }

  lemma EventAccounted(l: Local, k: nat, nb: Neighbours, v: Event, aborting: bool)
    requires k < |l.coros| && Serves(l.coros[k]) && Accounted(l)
    ensures Accounted(TakeEvent(l, k, nb, v, aborting).l)
  {
    ReadAccounted(Without(l, k), v);
    var e := Read(Without(l, k), v);
    if DropsProcesses(l.coros[k], v) {
      DisconnectComputeWired(e.l, v.compute, 0);
    } else {
      HandledEventStep(e, l.coros[k], nb, v, aborting);
      QuietKept(e.l, TakeEvent(l, k, nb, v, aborting).l);
    }
  }

  // ---------------------------------------------------------------- every run

  ghost predicate AllAccounted(n: Net) {
    forall i | 0 <= i < |n| :: Accounted(n[i].l)
  }

  lemma CoroutineAccounted(t: Topology, n: Net, a: Action)
    requires Registered(t) && |n| == |t| && AllAccounted(n) && Enabled(n, a) && ByCoroutine(a)
    ensures Accounted(EffectOf(t, n, a).l)
  {
    var nb := View(t, n, a.s);
    assert Accounted(n[a.s].l);
    match a
    case DoEntry(_, k, launch) => EntryAccounted(n[a.s].l, k, nb, launch);
    case DoMessage(_, k) => MessageAccounted(n[a.s].l, k, nb, n[a.s].queue[0]);
    case DoEvent(_, k, v, aborting) => EventAccounted(n[a.s].l, k, nb, v, aborting);
    case DoExpire(_, k) => QuietKept(n[a.s].l, Expire(n[a.s].l, k).l);
  }

  lemma DeliveredAccounted(t: Topology, n: Net, s: SubId, e: Effect, queue: seq<Message>, events: multiset<Event>)
    requires Registered(t) && |n| == |t| && s < |n| && AllAccounted(n) && Accounted(e.l)
    ensures AllAccounted(Deliver(t, n, s, e, queue, events))
  {
  }

  lemma StepAccounted(t: Topology, n: Net, a: Action)
    requires Registered(t) && |n| == |t| && AllAccounted(n) && Enabled(n, a)
    ensures AllAccounted(Apply(t, n, a))
  {
    if ByCoroutine(a) {
      CoroutineAccounted(t, n, a);
      DeliveredAccounted(t, n, a.s, EffectOf(t, n, a),
        if a.DoMessage? then n[a.s].queue[1..] else n[a.s].queue,
        if a.DoEvent? then n[a.s].events - multiset{a.v} else n[a.s].events);
    } else {
      assert Accounted(n[a.s].l);
    }
  }

  ghost predicate AccountsKept(n: Net, n': Net) {
    AllAccounted(n) ==> AllAccounted(n')
  }

  lemma {:induction false} AccountsKeptUpTo(ns: seq<Net>, i: nat)
    requires i < |ns| && AllAccounted(ns[0])
    requires forall k {:trigger ns[k]} | 0 <= k < i :: AccountsKept(ns[k], ns[k+1])
    ensures AllAccounted(ns[i])
  {
    if i > 0 {
      AccountsKeptUpTo(ns, i - 1);
      assert AccountsKept(ns[i-1], ns[i-1+1]);
    }
  }

  /** In every state of every run, aborted restart waits and stray start events included, the counts are exact. */
  lemma ReferencesAlwaysExact(t: Topology, ns: seq<Net>, acts: seq<Action>, i: nat)
    requires Registered(t) && Run(t, ns, acts) && i < |ns| && AllAccounted(ns[0])
    ensures AllAccounted(ns[i])
  {
    forall k | 0 <= k < i ensures AccountsKept(ns[k], ns[k+1]) {
      if AllAccounted(ns[k]) {
        StepAccounted(t, ns[k], acts[k]);
      }
    }
    AccountsKeptUpTo(ns, i);
  }

  // ---------------------------------------------------------------- what the Offline entry releases

  /** Disconnecting stops exactly the processes that hold a connection. */
  lemma DisconnectAllRunning(l: Local, p: ProcId)
    ensures var r := DisconnectFrom(l, p);
            forall q | 0 <= q < |l.procs| ::
              r.procs[q].running <==> l.procs[q].running && (q < p || !l.procs[q].maybeConnected)
    decreases |l.procs| - p
  {
    if p < |l.procs| {
      DisconnectAllRunning(DisconnectProcess(l, p), p + 1);
    }
  }

  /**
   * After the entry actions of Offline nothing is held and every umbilical is closed; a process
   * still runs exactly when it ran before without holding a connection.
   */
  lemma OfflineReleasesAll(l: Local, k: nat, nb: Neighbours, launch: nat)
    requires k < |l.coros| && l.coros[k].Scheduled? && l.coros[k].state == Offline && Accounted(l)
    ensures var r := RunEntry(l, k, nb, launch).l;
            && |r.procs| == |l.procs|
            && (forall p | 0 <= p < |r.procs| :: !r.procs[p].maybeConnected)
            && (forall c | c in r.umbilicals :: r.umbilicals[c].dynamicRefs == 0 && r.umbilicals[c].state == LinkClosed)
            && (forall p | 0 <= p < |l.procs| ::
                  r.procs[p].running <==> l.procs[p].running && !l.procs[p].maybeConnected)
  {
    var e := Without(l, k);
    var d := DisconnectFrom(e.l.(numRestarts := 0), 0);
    DisconnectAllWired(e.l.(numRestarts := 0), 0);
    DisconnectAllRunning(e.l.(numRestarts := 0), 0);
    QuietKept(d, ResetProcessRestarts(d));
    var r := RunEntry(l, k, nb, launch).l;
    forall c | c in r.umbilicals ensures r.umbilicals[c].dynamicRefs == 0 {
      NobodyConnected(r.procs, c);
    }
  }

  // ---------------------------------------------------------------- which processes run

  /** Only processes that hold a connection run. */
  predicate Attached(l: Local) {
    forall p | 0 <= p < |l.procs| :: l.procs[p].running ==> l.procs[p].maybeConnected
  }

  /** Whoever runs ran before, and still holds the connection it held. */
  predicate Calmer(l: Local, r: Local) {
    && |r.procs| == |l.procs|
    && forall p | 0 <= p < |l.procs| ::
         r.procs[p].running ==> l.procs[p].running && (l.procs[p].maybeConnected ==> r.procs[p].maybeConnected)
  }

  lemma ConnectAllCalmer(l: Local, p: ProcId)
    ensures Calmer(l, ConnectFrom(l, p))
    decreases |l.procs| - p
  {
    if p < |l.procs| {
      ConnectAllCalmer(ConnectProcess(l, p), p + 1);
    }
  }

  lemma DisconnectAllCalmer(l: Local, p: ProcId)
    ensures Calmer(l, DisconnectFrom(l, p))
    decreases |l.procs| - p
  {
    if p < |l.procs| {
      DisconnectAllCalmer(DisconnectProcess(l, p), p + 1);
    }
  }

  lemma DisconnectComputeCalmer(l: Local, k: ComputeId, p: ProcId)
    ensures Calmer(l, DisconnectComputeFrom(l, k, p))
    decreases |l.procs| - p
  {
    if p < |l.procs| {
      DisconnectComputeCalmer(if l.procs[p].compute == k then DisconnectProcess(l, p) else l, k, p + 1);
    }
  }

  lemma StopAllCalmer(l: Local, p: ProcId)
    ensures Calmer(l, StopFrom(l, p))
    decreases |l.procs| - p
  {
    if p < |l.procs| {
      StopAllCalmer(StopProcess(l, p), p + 1);
    }
  }

  lemma StopListedCalmer(l: Local, ps: seq<ProcId>)
    ensures Calmer(l, StopListed(l, ps))
    decreases |ps|
  {
    if ps != [] {
      var l1 := if ps[0] < |l.procs| && l.procs[ps[0]].running then StopProcess(l, ps[0]) else l;
      assert Calmer(l, l1);
      StopListedCalmer(l1, ps[1..]);
    }
  }

  lemma EntryCalmer(l: Local, k: nat, nb: Neighbours, launch: nat)
    requires k < |l.coros| && l.coros[k].Scheduled?
    ensures Calmer(l, RunEntry(l, k, nb, launch).l)
  {
    var e := Without(l, k);
    match l.coros[k].state {
      case Offline => DisconnectAllCalmer(e.l.(numRestarts := 0), 0);
      case Connecting => ConnectAllCalmer(e.l.(oper := Connecting), 0);
      case StoppingProcesses => StopAllCalmer(e.l, 0);
      case Restarting => StopAllCalmer(e.l, 0);
      case _ =>
    }
  }

  lemma MessageCalmer(l: Local, k: nat, nb: Neighbours, m: Message)
    requires k < |l.coros| && Serves(l.coros[k])
    ensures Calmer(l, TakeMessage(l, k, nb, m).l)
  {
    var e := Without(l, k);
    if RestartsProcesses(l.coros[k], m) {
      StopAllCalmer(e.l.(toRestart := seq(|e.l.procs|, p => p)), 0);
      StopListedCalmer(e.l.(toRestart := m.procs), m.procs);
    } else {
      MessageQuiet(e, l.coros[k], nb, m);
    }
  }

  /** A start event is taken that makes a process run which does not hold its connection. */
  predicate Strays(l: Local, t: Coro, v: Event) {
    StartsProcess(t, v) && v.proc < |l.procs| && !l.procs[v.proc].maybeConnected
  }

  /** An event keeps it that only connected processes run, exactly unless it is such a start event. */
  lemma EventAttached(l: Local, k: nat, nb: Neighbours, v: Event, aborting: bool)
    requires k < |l.coros| && Serves(l.coros[k]) && Attached(l)
    ensures Attached(TakeEvent(l, k, nb, v, aborting).l) <==> !Strays(l, l.coros[k], v)
  {
    var e, t := Read(Without(l, k), v), l.coros[k];
    assert e.l.procs == l.procs;
    var r := TakeEvent(l, k, nb, v, aborting).l;
    if DropsProcesses(t, v) {
      DisconnectComputeCalmer(e.l, v.compute, 0);
    } else {
      HandledEventStep(e, t, nb, v, aborting);
      if Strays(l, t, v) {
        assert r.procs[v.proc].running && !r.procs[v.proc].maybeConnected;
      }
    }
  }

  ghost predicate AllAttached(n: Net) {
    forall i | 0 <= i < |n| :: Attached(n[i].l)
  }

  predicate StraysIn(n: Net, a: Action)
    requires Enabled(n, a)
  {
    a.DoEvent? && Strays(n[a.s].l, n[a.s].l.coros[a.k], a.v)
  }

  lemma ActorAttached(t: Topology, n: Net, a: Action)
    requires Registered(t) && |n| == |t| && AllAttached(n) && Enabled(n, a)
    ensures Attached(Apply(t, n, a)[a.s].l) <==> !StraysIn(n, a)
  {
    var nb := View(t, n, a.s);
    var l := n[a.s].l;
    assert Attached(l);
    match a
    case DoEntry(_, k, launch) => EntryCalmer(l, k, nb, launch);
    case DoMessage(_, k) => MessageCalmer(l, k, nb, n[a.s].queue[0]);
    case DoEvent(_, k, v, aborting) => EventAttached(l, k, nb, v, aborting);
    case DoExpire(_, k) =>
    case _ =>
  }

  /** A step keeps it that only connected processes run, exactly unless it takes a stray start event. */
  lemma StepAttached(t: Topology, n: Net, a: Action)
    requires Registered(t) && |n| == |t| && AllAttached(n) && Enabled(n, a)
    ensures AllAttached(Apply(t, n, a)) <==> !StraysIn(n, a)
  {
    ActorAttached(t, n, a);
    forall i | 0 <= i < |n| && i != a.s ensures Apply(t, n, a)[i].l == n[i].l {
    }
  }

  ghost predicate AttachedKept(n: Net, n': Net) {
    AllAttached(n) ==> AllAttached(n')
  }

  lemma {:induction false} AttachedKeptUpTo(ns: seq<Net>, i: nat)
    requires i < |ns| && AllAttached(ns[0])
    requires forall k {:trigger ns[k]} | 0 <= k < i :: AttachedKept(ns[k], ns[k+1])
    ensures AllAttached(ns[i])
  {
    if i > 0 {
      AttachedKeptUpTo(ns, i - 1);
      assert AttachedKept(ns[i-1], ns[i-1+1]);
    }
  }

  /**
   * As long as no stray start event has been taken only connected processes run, so that the Offline
   * entry leaves none running; the next step ends that exactly when it takes a stray start event.
   */
  lemma AttachedExactly(t: Topology, ns: seq<Net>, acts: seq<Action>, i: nat)
    requires Registered(t) && Run(t, ns, acts) && i < |acts| && AllAttached(ns[0])
    requires forall j | 0 <= j < i :: !StraysIn(ns[j], acts[j])
    ensures AllAttached(ns[i])
    ensures AllAttached(ns[i+1]) <==> !StraysIn(ns[i], acts[i])
  {
    forall k | 0 <= k < i ensures AttachedKept(ns[k], ns[k+1]) {
      assert !StraysIn(ns[k], acts[k]);
      if AllAttached(ns[k]) {
        StepAttached(t, ns[k], acts[k]);
      }
    }
    AttachedKeptUpTo(ns, i);
    StepAttached(t, ns[i], acts[i]);
  }
}
