/**
 Control, agreement and restart budget over whole runs: any commands, crashes, lost
 connections, restarts and aborts, in any interleaving.
 */
module ControlRuns {
  import opened States
  import opened ClientBits
  import opened Umbilicals
  import opened SubsystemModel
  import opened Network
  import opened ControlToken

  /** The action does not deliver an effective abort to a subsystem that waits to restart. */
  predicate Spares(n: Net, a: Action)
    requires Enabled(n, a)
  {
    a.DoMessage? ==> !AbortsWait(n[a.s].l, n[a.s].queue[0])
  }

  ghost predicate AllSound(n: Net) {
    forall i | 0 <= i < |n| :: Sound(n[i].l)
  }

  ghost predicate AllOne(n: Net) {
    forall i | 0 <= i < |n| :: OneCoroutine(n[i].l)
  }

  /** A system as Subsystem::Run leaves it: offline, nothing counted, delays at one second. */
  ghost predicate Fresh(t: Topology, n: Net) {
    && |n| == |t|
    && forall i | 0 <= i < |n| ::
         && n[i].l.admin == AdminOffline && n[i].l.oper == Offline
         && n[i].l.coros == [Scheduled(Offline, NO_CLIENT)]
         && n[i].l.numRestarts == 0 && n[i].l.restartDelay == 1
         && forall p | 0 <= p < |n[i].l.procs| :: n[i].l.procs[p].numRestarts == 0
  }

  lemma SurroundControlled(x: Sub, a: Action)
    requires Sound(x.l) && !ByCoroutine(a)
    ensures Sound(Surround(x, a).l) && BudgetStep(x.l, Surround(x, a).l)
    ensures Surround(x, a).l.coros == x.l.coros && Surround(x, a).l.numRestarts == x.l.numRestarts
  {
  }

  lemma CoroutineControlled(t: Topology, n: Net, a: Action)
    requires Registered(t) && |n| == |t| && AllSound(n) && Enabled(n, a) && ByCoroutine(a)
    ensures Spares(n, a) ==> Controlled(n[a.s].l, EffectOf(t, n, a))
    ensures OneCoroutine(EffectOf(t, n, a).l) <==> Spares(n, a)
  {
    assert Sound(n[a.s].l);
    var nb := View(t, n, a.s);
    match a
    case DoEntry(_, _, launch) => EntryControlled(n[a.s].l, nb, launch);
    case DoMessage(_, _) => MessageControlled(n[a.s].l, nb, n[a.s].queue[0]);
    case DoEvent(_, _, v, aborting) => EventControlled(n[a.s].l, nb, v, aborting);
    case DoExpire(_, _) => assert Without(n[a.s].l, 0).l.coros == [];
  }

  /** Only subsystem s changes; it keeps one coroutine exactly if it is spared, and then stays sound. */
  ghost predicate Advanced(n: Net, n': Net, s: SubId, spared: bool) {
    && |n'| == |n| && s < |n|
    && (spared ==> Sound(n'[s].l) && BudgetStep(n[s].l, n'[s].l))
    && (OneCoroutine(n'[s].l) <==> spared)
    && forall i | 0 <= i < |n| && i != s :: n'[i].l == n[i].l
  }

  lemma StepControlled(t: Topology, n: Net, a: Action)
    requires Registered(t) && |n| == |t| && AllSound(n) && Enabled(n, a)
    ensures Advanced(n, Apply(t, n, a), a.s, Spares(n, a))
  {
    var x := n[a.s];
    assert Sound(x.l);
    if ByCoroutine(a) {
      CoroutineControlled(t, n, a);
      var e := EffectOf(t, n, a);
      var queue := if a.DoMessage? then x.queue[1..] else x.queue;
      var events := if a.DoEvent? then x.events - multiset{a.v} else x.events;
      DeliveredFields(t, n, a.s, e, queue, events);
    } else {
      SurroundControlled(x, a);
    }
  }

  lemma DeliveredFields(t: Topology, n: Net, s: SubId, e: Effect, queue: seq<Message>, events: multiset<Event>)
    requires Registered(t) && |n| == |t| && s < |n|
    ensures var n' := Deliver(t, n, s, e, queue, events);
            n'[s].l == e.l && forall i | 0 <= i < |n| && i != s :: n'[i].l == n[i].l
  {
  }

  /** Every action up to step i spares the waiting subsystems. */
  ghost predicate SparedRun(t: Topology, ns: seq<Net>, acts: seq<Action>, i: nat)
    requires Registered(t) && Run(t, ns, acts) && i <= |acts|
  {
    forall j | 0 <= j < i :: Spares(ns[j], acts[j])
  }

  /** What a spared step does to a sound system. */
  ghost predicate Kept(n: Net, n': Net) {
    && |n'| == |n|
    && (AllSound(n) ==> AllSound(n') && forall s | 0 <= s < |n| :: BudgetStep(n[s].l, n'[s].l))
  }

  ghost predicate KeptUpTo(ns: seq<Net>, i: nat)
    requires i < |ns|
  {
    forall k {:trigger ns[k]} | 0 <= k < i :: Kept(ns[k], ns[k+1])
  }

  lemma SparedKept(t: Topology, ns: seq<Net>, acts: seq<Action>, i: nat)
    requires Registered(t) && Run(t, ns, acts) && i < |ns| && SparedRun(t, ns, acts, i)
    ensures KeptUpTo(ns, i)
  {
    forall k | 0 <= k < i ensures Kept(ns[k], ns[k+1]) {
      assert Spares(ns[k], acts[k]);
      if AllSound(ns[k]) {
        StepControlled(t, ns[k], acts[k]);
      }
    }
  }

  lemma {:induction false} KeptSound(ns: seq<Net>, i: nat)
    requires i < |ns| && KeptUpTo(ns, i) && AllSound(ns[0])
    ensures AllSound(ns[i])
  {
    if i > 0 {
      KeptSound(ns, i - 1);
      assert Kept(ns[i-1], ns[i-1+1]);
    }
  }

  lemma SoundAlways(t: Topology, ns: seq<Net>, acts: seq<Action>, i: nat)
    requires Registered(t) && Run(t, ns, acts) && Fresh(t, ns[0])
    requires i < |ns| && SparedRun(t, ns, acts, i)
    ensures KeptUpTo(ns, i) && AllSound(ns[0]) && AllSound(ns[i])
  {
    SparedKept(t, ns, acts, i);
    KeptSound(ns, i);
  }

  /**
   Single control token, exactly: after i spared steps every subsystem has one coroutine
   that matches its state, and the next step keeps that if and only if it is spared too.
   */
  lemma OneCoroutineExactly(t: Topology, ns: seq<Net>, acts: seq<Action>, i: nat)
    requires Registered(t) && Run(t, ns, acts) && Fresh(t, ns[0])
    requires i < |acts| && SparedRun(t, ns, acts, i)
    ensures AllOne(ns[i])
    ensures AllOne(ns[i+1]) <==> Spares(ns[i], acts[i])
  {
    SoundAlways(t, ns, acts, i);
    StepExactly(t, ns[i], acts[i]);
  }

  lemma StepExactly(t: Topology, n: Net, a: Action)
    requires Registered(t) && |n| == |t| && AllSound(n) && Enabled(n, a)
    ensures AllOne(n) && (AllOne(Apply(t, n, a)) <==> Spares(n, a))
  {
    StepControlled(t, n, a);
    OneChanged(n, Apply(t, n, a), a.s, Spares(n, a));
  }

  lemma OneChanged(n: Net, n': Net, s: SubId, spared: bool)
    requires AllSound(n) && Advanced(n, n', s, spared)
    ensures AllOne(n) && (AllOne(n') <==> spared)
  {
    assert OneCoroutine(n'[s].l) <==> spared;
    forall i | 0 <= i < |n'| && i != s ensures OneCoroutine(n'[i].l) {
      assert Sound(n[i].l);
    }
  }

  /** The failing case itself: a waiting subsystem that is aborted ends up with two coroutines. */
  lemma AbortedWaitSplits(l: Local, client: ClientId, nb: Neighbours)
    requires l.coros == [RestartWait(client)]
    ensures var r := TakeMessage(l, 0, nb, Abort(true)).l;
            r.coros == [Scheduled(Offline, NO_CLIENT), Scheduled(Restarting, client)] && r.oper == Restarting
  {
    assert Without(l, 0).l.coros == [];
  }

  /** Admin/oper agreement: waiting for IsOffline is waiting for the operational state alone. */
  lemma OfflineMeansBoth(t: Topology, ns: seq<Net>, acts: seq<Action>, i: nat, s: SubId)
    requires Registered(t) && Run(t, ns, acts) && Fresh(t, ns[0])
    requires i < |ns| && SparedRun(t, ns, acts, i) && s < |t|
    ensures GoingDown(ns[i][s].l.oper) ==> ns[i][s].l.admin == AdminOffline
    ensures (ns[i][s].l.oper == Offline && ns[i][s].l.admin == AdminOffline) <==> ns[i][s].l.oper == Offline
  {
    SoundAlways(t, ns, acts, i);
  }

  // ---------------------------------------------------------------- restart budget and back-off

  ghost predicate WithinBudget(l: Local) {
    && 0 <= l.numRestarts <= l.maxRestarts
    && forall p | 0 <= p < |l.procs| :: 0 <= l.procs[p].numRestarts <= l.procs[p].maxRestarts
  }

  ghost predicate BudgetsGiven(l: Local) {
    l.maxRestarts >= 0 && forall p | 0 <= p < |l.procs| :: l.procs[p].maxRestarts >= 0
  }

  lemma {:induction false} KeptBudget(ns: seq<Net>, i: nat, s: SubId)
    requires i < |ns| && KeptUpTo(ns, i) && AllSound(ns[0]) && s < |ns[0]|
    requires WithinBudget(ns[0][s].l)
    ensures AllSound(ns[i]) && |ns[i]| == |ns[0]|
    ensures WithinBudget(ns[i][s].l) && ns[i][s].l.maxRestarts == ns[0][s].l.maxRestarts
  {
    if i > 0 {
      KeptBudget(ns, i - 1, s);
      assert Kept(ns[i-1], ns[i-1+1]);
    }
  }

  /** Whatever crashes, no counter leaves its budget. */
  lemma WithinBudgetAlways(t: Topology, ns: seq<Net>, acts: seq<Action>, i: nat, s: SubId)
    requires Registered(t) && Run(t, ns, acts) && Fresh(t, ns[0])
    requires i < |ns| && SparedRun(t, ns, acts, i) && s < |t|
    requires BudgetsGiven(ns[0][s].l)
    ensures WithinBudget(ns[i][s].l)
  {
    SoundAlways(t, ns, acts, i);
    KeptBudget(ns, i, s);
  }

  // A restart count and its delay, as they develop over a run.

  datatype Counter = Counter(count: int, delay: nat)

  /** One step of a counter with its budget: kept, reset, or charged with the delay doubled. */
  predicate CounterStep(x: Counter, y: Counter, max: int) {
    && CountStep(x.count, y.count, max)
    && y.delay == if y.count == x.count + 1 then Min(MAX_RESTART_DELAY, 2 * x.delay) else x.delay
  }

  ghost predicate History(cs: seq<Counter>, max: int) {
    forall k {:trigger cs[k]} | 0 <= k < |cs| - 1 :: CounterStep(cs[k], cs[k+1], max)
  }

  /** How many restarts are charged in the steps from i to j. */
  function Charges(cs: seq<Counter>, i: nat, j: nat): nat
    requires i <= j < |cs|
    decreases j
  {
    if i == j then 0 else Charges(cs, i, j - 1) + if cs[j].count == cs[j-1].count + 1 then 1 else 0
  }

  /** No reset happens in the steps from i to j. */
  predicate Unreset(cs: seq<Counter>, i: nat, j: nat)
    requires i <= j < |cs|
  {
    forall k {:trigger cs[k]} | i <= k < j :: cs[k].count <= cs[k+1].count
  }

  lemma {:induction false} ChargesCount(cs: seq<Counter>, max: int, i: nat, j: nat)
    requires i <= j < |cs| && History(cs, max) && Unreset(cs, i, j)
    requires forall k | 0 <= k < |cs| :: cs[k].count >= 0
    ensures Charges(cs, i, j) == cs[j].count - cs[i].count
    decreases j
  {
    if i < j {
      ChargesCount(cs, max, i, j - 1);
      assert CounterStep(cs[j-1], cs[j-1+1], max) && cs[j-1].count <= cs[j-1+1].count;
    }
  }

  function Pow2(n: nat): (r: nat)
    ensures r >= 1
  {
    if n == 0 then 1 else 2 * Pow2(n - 1)
  }

  lemma MinDoubles(x: nat)
    ensures Min(MAX_RESTART_DELAY, 2 * Min(MAX_RESTART_DELAY, x)) == Min(MAX_RESTART_DELAY, 2 * x)
  {
  }

  lemma {:induction false} DelayCounts(cs: seq<Counter>, max: int, j: nat)
    requires j < |cs| && History(cs, max) && cs[0].delay == 1
    ensures cs[j].delay == Min(MAX_RESTART_DELAY, Pow2(Charges(cs, 0, j)))
    decreases j
  {
    if j > 0 {
      DelayCounts(cs, max, j - 1);
      assert CounterStep(cs[j-1], cs[j-1+1], max);
      MinDoubles(Pow2(Charges(cs, 0, j - 1)));
    }
  }

  /** The counter of a subsystem over the first states of a run. */
  ghost function SubCounters(ns: seq<Net>, s: SubId, i: nat): (cs: seq<Counter>)
    requires i < |ns| && forall k | 0 <= k < |ns| :: s < |ns[k]|
    ensures |cs| == i + 1
  {
    seq(i + 1, k requires 0 <= k < i + 1 => CounterOf(ns[k][s].l))
  }

  /** The counter of one of its processes. */
  ghost function ProcCounters(ns: seq<Net>, s: SubId, p: ProcId, i: nat): (cs: seq<Counter>)
    requires i < |ns| && forall k | 0 <= k < |ns| :: s < |ns[k]|
    requires forall k | 0 <= k <= i :: p < |ns[k][s].l.procs|
    ensures |cs| == i + 1
  {
    seq(i + 1, k requires 0 <= k < i + 1 => ProcCounterOf(ns[k][s].l.procs[p]))
  }

  lemma {:induction false} StepTaken(ns: seq<Net>, s: SubId, i: nat, k: nat)
    requires k <= i < |ns| && KeptUpTo(ns, i) && AllSound(ns[0]) && s < |ns[0]|
    ensures |ns[k]| == |ns[0]| && AllSound(ns[k]) && Sound(ns[k][s].l)
    ensures k < i ==> |ns[k+1]| == |ns[0]| && BudgetStep(ns[k][s].l, ns[k+1][s].l)
    decreases k
  {
    if k > 0 {
      StepTaken(ns, s, i, k - 1);
      assert Kept(ns[k-1], ns[k-1+1]);
    }
    assert k < i ==> Kept(ns[k], ns[k+1]);
  }

  /** Budgets, and the number of processes, are given once and for all. */
  lemma {:induction false} BudgetsFixed(ns: seq<Net>, s: SubId, i: nat, k: nat)
    requires k <= i < |ns| && KeptUpTo(ns, i) && AllSound(ns[0]) && s < |ns[0]|
    ensures |ns[k]| == |ns[0]| && ns[k][s].l.maxRestarts == ns[0][s].l.maxRestarts
    ensures |ns[k][s].l.procs| == |ns[0][s].l.procs|
    ensures forall p | 0 <= p < |ns[0][s].l.procs| :: ns[k][s].l.procs[p].maxRestarts == ns[0][s].l.procs[p].maxRestarts
    decreases k
  {
    if k > 0 {
      BudgetsFixed(ns, s, i, k - 1);
      StepTaken(ns, s, i, k - 1);
      forall p | 0 <= p < |ns[0][s].l.procs|
        ensures ns[k][s].l.procs[p].maxRestarts == ns[0][s].l.procs[p].maxRestarts
      {
        assert ProcStep(ns[k-1][s].l.procs[p], ns[k][s].l.procs[p]);
      }
    }
  }

  function CounterOf(l: Local): Counter {
    Counter(l.numRestarts, l.restartDelay)
  }

  function ProcCounterOf(p: Proc): Counter {
    Counter(p.numRestarts, p.restartDelay)
  }

  lemma CounterTaken(ns: seq<Net>, s: SubId, i: nat, k: nat)
    requires k <= i < |ns| && KeptUpTo(ns, i) && AllSound(ns[0]) && s < |ns[0]|
    ensures |ns[k]| == |ns[0]| && ns[k][s].l.numRestarts >= 0
    ensures k < i ==>
      |ns[k+1]| == |ns[0]| && CounterStep(CounterOf(ns[k][s].l), CounterOf(ns[k+1][s].l), ns[0][s].l.maxRestarts)
  {
    StepTaken(ns, s, i, k);
    BudgetsFixed(ns, s, i, k);
  }

  lemma ProcCounterTaken(ns: seq<Net>, s: SubId, p: ProcId, i: nat, k: nat)
    requires k <= i < |ns| && KeptUpTo(ns, i) && AllSound(ns[0]) && s < |ns[0]| && p < |ns[0][s].l.procs|
    ensures |ns[k]| == |ns[0]| && p < |ns[k][s].l.procs| && ns[k][s].l.procs[p].numRestarts >= 0
    ensures k < i ==>
      |ns[k+1]| == |ns[0]| && p < |ns[k+1][s].l.procs| &&
      CounterStep(ProcCounterOf(ns[k][s].l.procs[p]), ProcCounterOf(ns[k+1][s].l.procs[p]), ns[0][s].l.procs[p].maxRestarts)
  {
    StepTaken(ns, s, i, k);
    BudgetsFixed(ns, s, i, k);
    if k < i {
      BudgetsFixed(ns, s, i, k + 1);
      assert ProcStep(ns[k][s].l.procs[p], ns[k+1][s].l.procs[p]);
    }
  }

  lemma CountersHistory(ns: seq<Net>, s: SubId, i: nat)
    requires i < |ns| && KeptUpTo(ns, i) && AllSound(ns[0]) && forall k | 0 <= k < |ns| :: s < |ns[k]|
    ensures History(SubCounters(ns, s, i), ns[0][s].l.maxRestarts)
    ensures forall k | 0 <= k <= i :: SubCounters(ns, s, i)[k].count >= 0
  {
    forall k | 0 <= k <= i
      ensures ns[k][s].l.numRestarts >= 0
      ensures k < i ==> CounterStep(CounterOf(ns[k][s].l), CounterOf(ns[k+1][s].l), ns[0][s].l.maxRestarts)
    {
      CounterTaken(ns, s, i, k);
    }
  }

  lemma ProcCountersHistory(ns: seq<Net>, s: SubId, p: ProcId, i: nat)
    requires i < |ns| && KeptUpTo(ns, i) && AllSound(ns[0]) && forall k | 0 <= k < |ns| :: s < |ns[k]|
    requires p < |ns[0][s].l.procs|
    ensures forall k | 0 <= k <= i :: p < |ns[k][s].l.procs|
    ensures History(ProcCounters(ns, s, p, i), ns[0][s].l.procs[p].maxRestarts)
    ensures forall k | 0 <= k <= i :: ProcCounters(ns, s, p, i)[k].count >= 0
  {
    forall k | 0 <= k <= i
      ensures p < |ns[k][s].l.procs| && ns[k][s].l.procs[p].numRestarts >= 0
      ensures k < i ==>
        p < |ns[k+1][s].l.procs| &&
        CounterStep(ProcCounterOf(ns[k][s].l.procs[p]), ProcCounterOf(ns[k+1][s].l.procs[p]), ns[0][s].l.procs[p].maxRestarts)
    {
      ProcCounterTaken(ns, s, p, i, k);
    }
  }

  /** Between resets a subsystem is restarted at most maxRestarts times. */
  lemma ChargesBounded(t: Topology, ns: seq<Net>, acts: seq<Action>, s: SubId, i: nat, j: nat)
    requires Registered(t) && Run(t, ns, acts) && Fresh(t, ns[0])
    requires i <= j < |ns| && SparedRun(t, ns, acts, j) && s < |t| && BudgetsGiven(ns[0][s].l)
    ensures Unreset(SubCounters(ns, s, j), i, j) ==> Charges(SubCounters(ns, s, j), i, j) <= ns[0][s].l.maxRestarts
  {
    SoundAlways(t, ns, acts, j);
    CountersHistory(ns, s, j);
    KeptBudget(ns, j, s);
    if Unreset(SubCounters(ns, s, j), i, j) {
      ChargesCount(SubCounters(ns, s, j), ns[0][s].l.maxRestarts, i, j);
    }
  }

  /** The same for each of its processes. */
  lemma ProcChargesBounded(t: Topology, ns: seq<Net>, acts: seq<Action>, s: SubId, p: ProcId, i: nat, j: nat)
    requires Registered(t) && Run(t, ns, acts) && Fresh(t, ns[0])
    requires i <= j < |ns| && SparedRun(t, ns, acts, j) && s < |t| && BudgetsGiven(ns[0][s].l)
    requires p < |ns[0][s].l.procs|
    ensures forall k | 0 <= k <= j :: p < |ns[k][s].l.procs|
    ensures Unreset(ProcCounters(ns, s, p, j), i, j)
        ==> Charges(ProcCounters(ns, s, p, j), i, j) <= ns[0][s].l.procs[p].maxRestarts
  {
    SoundAlways(t, ns, acts, j);
    ProcCountersHistory(ns, s, p, j);
    KeptBudget(ns, j, s);
    BudgetsFixed(ns, s, j, j);
    if Unreset(ProcCounters(ns, s, p, j), i, j) {
      ChargesCount(ProcCounters(ns, s, p, j), ns[0][s].l.procs[p].maxRestarts, i, j);
    }
  }

  /** After n restarts of a subsystem the next delay is 2^n seconds, capped at 32. */
  lemma DelayDoubles(t: Topology, ns: seq<Net>, acts: seq<Action>, i: nat, s: SubId)
    requires Registered(t) && Run(t, ns, acts) && Fresh(t, ns[0])
    requires i < |ns| && SparedRun(t, ns, acts, i) && s < |t|
    ensures ns[i][s].l.restartDelay == Min(MAX_RESTART_DELAY, Pow2(Charges(SubCounters(ns, s, i), 0, i)))
  {
    SoundAlways(t, ns, acts, i);
    CountersHistory(ns, s, i);
    DelayCounts(SubCounters(ns, s, i), ns[0][s].l.maxRestarts, i);
  }

  /** The same for a process that is restarted alone. */
  lemma ProcDelayDoubles(t: Topology, ns: seq<Net>, acts: seq<Action>, i: nat, s: SubId, p: ProcId)
    requires Registered(t) && Run(t, ns, acts) && Fresh(t, ns[0])
    requires i < |ns| && SparedRun(t, ns, acts, i) && s < |t|
    requires p < |ns[0][s].l.procs| && ns[0][s].l.procs[p].restartDelay == 1
    ensures forall k | 0 <= k <= i :: p < |ns[k][s].l.procs|
    ensures ns[i][s].l.procs[p].restartDelay == Min(MAX_RESTART_DELAY, Pow2(Charges(ProcCounters(ns, s, p, i), 0, i)))
  {
    SoundAlways(t, ns, acts, i);
    ProcCountersHistory(ns, s, p, i);
    DelayCounts(ProcCounters(ns, s, p, i), ns[0][s].l.procs[p].maxRestarts, i);
  }
}
