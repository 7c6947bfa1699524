/**
 * Whole runs of a restart that spreads: each ends, and it ends with all that was up Online again exactly when
 * the crashed process shares its compute with no other.
 */
module SpreadRuns {
  import opened States
  import opened ClientBits
  import opened Umbilicals
  import opened SubsystemModel
  import opened Network
  import opened CascadeMeasure
  import opened Configs
  import opened RestartSteps
  import opened RestartLinks
  import opened RestartSpread
  import StruckSteps
  import FollowerSteps
  import StartCascade
  import Sessions
  import Lone = LoneRestart

  // ---------------------------------------------------------------- every step

  /** Enough for the way up, whatever the way down leaves. */
  const ENOUGH: Ranking := (l: Local) => 15

  function DownSize(t: Topology, n: Net): int {
    if |n| == |t| then Total(t, n, |t|, DownRank) else 0
  }

  function UpSize(t: Topology, n: Net): int {
    if |n| == |t| then Total(t, n, |t|, UpRank) else 0
  }

  function Bound(t: Topology, n: Net): int {
    if |n| == |t| then Total(t, n, |t|, ENOUGH) else 0
  }

  predicate SameSizes(n: Net, m: Net) {
    |n| == |m| && forall i | 0 <= i < |n| :: |n[i].l.procs| == |m[i].l.procs|
  }

  /** After k steps from n0: on the way down, or on the way up. */
  ghost predicate Good(z: Case, n0: Net, n: Net, k: nat) {
    && z.Valid() && |n| == |n0| == |z.t| && SameSizes(n0, n)
    && ( || ((exists j: nat :: GoingDown(z, n, j)) && DownSize(z.t, n) + k <= DownSize(z.t, n0))
         || (GoingUp(z, n) && UpSize(z.t, n) + k <= DownSize(z.t, n0) + Bound(z.t, n0)))
  }

  lemma DeliverSizes(t: Topology, n: Net, s: SubId, e: Effect, queue: seq<Message>, events: multiset<Event>)
    requires Registered(t) && |n| == |t| && s < |n| && |e.l.procs| == |n[s].l.procs|
    ensures SameSizes(n, Deliver(t, n, s, e, queue, events))
  {
  }

  // A step on the way down.

  /** What the topmost node leaves when it starts over is light enough. */
  ghost predicate Light(x: Sub) {
    && UpRank(x.l) <= 14 && Owed(x.l) == 0 && x.events == multiset{}
    && (x.queue == [] || (|x.queue| == 1 && x.queue[0].ChangeAdmin?))
  }

  lemma TimesUpTo(u: nat, v: nat, x: nat)
    requires u <= v
    ensures Times(u, x) <= Times(v, x)
  {
    if u < v {
      TimesGrows(u, v, x);
    }
  }

  lemma LightCosts(t: Topology, x: Sub, x0: Sub, i: SubId)
    requires i < |t| && Light(x) && |x.l.procs| == |x0.l.procs|
    ensures NodeCost(t, x, i, UpRank) <= NodeCost(t, x0, i, ENOUGH)
  {
    var phase := PhaseCost(t, x.l, i);
    assert phase == PhaseCost(t, x0.l, i);
    TimesUpTo(UpRank(x.l), 14, phase);
    assert Times(15, phase) == phase + Times(14, phase);
    assert x.queue != [] ==> x.queue[1..] == [] && QueueCost(t, i, x.queue) == DownCost(t, i);
  }

  ghost predicate Cheaper(t: Topology, n: Net, n0: Net, i: SubId)
    requires |n| == |n0| == |t| && i < |t|
  {
    NodeCost(t, n[i], i, UpRank) <= NodeCost(t, n0[i], i, ENOUGH)
  }

  lemma {:induction false} AllCheaper(t: Topology, n: Net, n0: Net, k: nat)
    requires |n| == |n0| == |t| && k <= |t| && forall i: SubId | i < |t| :: Cheaper(t, n, n0, i)
    ensures Total(t, n, k, UpRank) <= Total(t, n0, k, ENOUGH)
  {
    if k > 0 {
      AllCheaper(t, n, n0, k - 1);
      assert Cheaper(t, n, n0, k - 1);
    }
  }

  lemma AllLight(t: Topology, n: Net, n0: Net)
    requires |n| == |n0| == |t| && SameSizes(n0, n) && forall i: SubId | i < |t| :: Light(n[i])
    ensures UpSize(t, n) <= Bound(t, n0)
  {
    forall i: SubId | i < |t| ensures Cheaper(t, n, n0, i) {
      LightCosts(t, n[i], n0[i], i);
    }
    AllCheaper(t, n, n0, |t|);
  }

  lemma RestIsLight(z: Case, x: Sub, i: nat)
    requires z.Valid() && i < |z.ch| && Node(z, x, i) && (Rests(x.l) || IsScheduled(x.l, StartingChildren))
    requires x.queue == [] || (|x.queue| == 1 && x.queue[0].ChangeAdmin?)
    ensures Light(x)
  {
  }

  lemma TurnsLight(z: Case, n: Net, n': Net, a: Action, e: Effect, y: Sub, x: SubId)
    requires z.Valid() && |n| == |z.t| && Turns(z, n, n', a, e, y) && x < |z.t|
    ensures Light(n'[x])
  {
    if x in z.ch {
      var i: nat :| i < |z.ch| && z.ch[i] == x;
      TurnsNode(z, n, n', a, e, y, i);
      assert n'[z.ch[z.Top()]] == y;
      RestIsLight(z, n'[x], i);
    } else {
      assert Resting(n[x], z.w[x]);
      TurnsQueues(z, n, n', a, e, y, x);
    }
  }

  /** Node j has taken a step on the way down. */
  ghost predicate Worked(z: Case, n0: Net, n: Net, n': Net, a: Action, e: Effect, y: Sub, k: nat, j: nat)
    requires z.Valid() && |n| == |z.t|
  {
    && SameSizes(n0, n) && GoingDown(z, n, j) && DownSize(z.t, n) + k <= DownSize(z.t, n0)
    && Sank(z, n[z.ch[j]], j, a, e, y) && n' == Deliver(z.t, n, z.ch[j], e, y.queue, y.events)
  }

  lemma WorkedOn(z: Case, n0: Net, n: Net, n': Net, a: Action, e: Effect, y: Sub, k: nat, j: nat)
    requires z.Valid() && |n| == |z.t| && Worked(z, n0, n, n', a, e, y, k, j) && e.l.oper != StartingChildren
    ensures Good(z, n0, n', k + 1)
  {
    SankDown(z, n, n', j, a, e, y);
    DeliverSizes(z.t, n, z.ch[j], e, y.queue, y.events);
    CoroutineLowers(z.t, n, z.ch[j], InputOf(n[z.ch[j]], a), e, y.queue, y.events, DownRank);
  }

  lemma WorkedOver(z: Case, n0: Net, n: Net, n': Net, a: Action, e: Effect, y: Sub, k: nat, j: nat)
    requires z.Valid() && |n| == |z.t| && Worked(z, n0, n, n', a, e, y, k, j) && e.l.oper == StartingChildren
    ensures Good(z, n0, n', k + 1)
  {
    assert Turns(z, n, n', a, e, y);
    TurnsUp(z, n, n', a, e, y);
    DeliverSizes(z.t, n, z.ch[j], e, y.queue, y.events);
    forall i: SubId | i < |z.t| ensures Light(n'[i]) {
      TurnsLight(z, n, n', a, e, y, i);
    }
    AllLight(z.t, n', n0);
    assert Stands(z, n[z.ch[j]], j, j);
    SinkingRank(z, n[z.ch[j]], j, a, e, y);
    DownLeft(z, n, j, a, n[z.ch[j]], y, e);
  }

  lemma SinkingRank(z: Case, x: Sub, j: nat, a: Action, e: Effect, y: Sub)
    requires z.Valid() && j < |z.ch| && Node(z, x, j) && Sinking(z, x, j) && Sank(z, x, j, a, e, y)
    ensures DownRank(x.l) > 0
  {
  }

  lemma DownCoroutine(z: Case, n0: Net, n: Net, a: Action, k: nat, j: nat)
    requires z.Valid() && |n| == |n0| == |z.t| && SameSizes(n0, n) && GoingDown(z, n, j)
    requires DownSize(z.t, n) + k <= DownSize(z.t, n0)
    requires Enabled(n, a) && Lone.RestartAction(n[a.s], a) && a.s == z.ch[j] && ByCoroutine(a)
    ensures Good(z, n0, Apply(z.t, n, a), k + 1)
  {
    var e, y := EffectOf(z.t, n, a), After(n[a.s], View(z.t, n, a.s), a);
    NodeSinks(z, n, j, a);
    if e.l.oper == StartingChildren {
      WorkedOver(z, n0, n, Apply(z.t, n, a), a, e, y, k, j);
    } else {
      WorkedOn(z, n0, n, Apply(z.t, n, a), a, e, y, k, j);
    }
  }

  /** A node about to start over is not done with the way down yet. */
  lemma DownLeft(z: Case, n: Net, j: nat, a: Action, x: Sub, y: Sub, e: Effect)
    requires z.Valid() && |n| == |z.t| && j < |z.ch| && x == n[z.ch[j]] && Sank(z, x, j, a, e, y)
    requires e.l.oper == StartingChildren && DownRank(x.l) > 0
    ensures DownSize(z.t, n) > 0
  {
    var m := n[z.ch[j] := x.(l := x.l.(coros := []))];
    TotalLocal(z.t, n, z.ch[j], x.(l := x.l.(coros := [])), |z.t|, DownRank);
    TimesGrows(0, DownRank(x.l), PhaseCost(z.t, x.l, z.ch[j]));
  }

  // A step on the way up.

  lemma UpOther(z: Case, n0: Net, n: Net, a: Action, k: nat)
    requires z.Valid() && |n| == |n0| == |z.t| && SameSizes(n0, n) && GoingUp(z, n)
    requires UpSize(z.t, n) + k <= DownSize(z.t, n0) + Bound(z.t, n0)
    requires Enabled(n, a) && Lone.RestartAction(n[a.s], a) && a.s !in z.ch
    ensures Good(z, n0, Apply(z.t, n, a), k + 1)
  {
    OtherHears(z, n, a);
    var s, e := a.s, EffectOf(z.t, n, a);
    assert Stays(z, n, s);
    ReadUp(z, n, Apply(z.t, n, a), s, e);
    DeliverSizes(z.t, n, s, e, n[s].queue[1..], multiset{});
    CoroutineLowers(z.t, n, s, Msg(n[s].queue[0]), e, n[s].queue[1..], multiset{}, UpRank);
  }

  lemma UpCoroutine(z: Case, n0: Net, n: Net, a: Action, k: nat, i: nat)
    requires z.Valid() && |n| == |n0| == |z.t| && SameSizes(n0, n) && GoingUp(z, n) && i < |z.ch|
    requires UpSize(z.t, n) + k <= DownSize(z.t, n0) + Bound(z.t, n0)
    requires Enabled(n, a) && Lone.RestartAction(n[a.s], a) && a.s == z.ch[i] && ByCoroutine(a)
    ensures Good(z, n0, Apply(z.t, n, a), k + 1)
  {
    var x, e := n[a.s], EffectOf(z.t, n, a);
    var y := After(x, View(z.t, n, a.s), a);
    NodeComes(z, n, i, a);
    CameOn(z, n0, n, Apply(z.t, n, a), i, InputOf(x, a), e, y, k);
  }

  lemma CameOn(z: Case, n0: Net, n: Net, n': Net, i: nat, input: Input, e: Effect, y: Sub, k: nat)
    requires z.Valid() && |n| == |n0| == |z.t| && SameSizes(n0, n) && Moved(z, n, n', i, input, e, y)
    requires UpSize(z.t, n) + k <= DownSize(z.t, n0) + Bound(z.t, n0)
    ensures Good(z, n0, n', k + 1)
  {
    MovedUp(z, n, n', i, input, e, y);
    DeliverSizes(z.t, n, z.ch[i], e, y.queue, y.events);
    CoroutineLowers(z.t, n, z.ch[i], input, e, y.queue, y.events, UpRank);
  }

  // An answer of StageZero.

  lemma AnswerLighter(t: Topology, n: Net, a: Action, rank: Ranking)
    requires |n| == |t| && Enabled(n, a) && Lone.RestartAction(n[a.s], a) && !ByCoroutine(a)
    requires rank(Surround(n[a.s], a).l) == rank(n[a.s].l)
    ensures var n' := n[a.s := Surround(n[a.s], a)];
      Total(t, n', |t|, rank) < Total(t, n, |t|, rank) && SameSizes(n, n')
  {
    AnswerOwed(n[a.s], a);
    AnswerLowers(t, n, a.s, Surround(n[a.s], a), rank);
  }

  lemma UpAnswer(z: Case, n: Net, a: Action, i: nat)
    requires z.Valid() && |n| == |z.t| && GoingUp(z, n) && i < |z.ch|
    requires Enabled(n, a) && Lone.RestartAction(n[a.s], a) && a.s == z.ch[i] && !ByCoroutine(a)
    ensures GoingUp(z, Apply(z.t, n, a)) && UpRank(Surround(n[a.s], a).l) == UpRank(n[a.s].l)
  {
    assert Climbs(z, n[z.ch[i]], i);
    NodeAnswered(z, n[a.s], i, a);
    AnsweredAlike(z, n[a.s], Surround(n[a.s], a), i);
    AnsweredUp(z, n, i, Surround(n[a.s], a));
  }

  lemma DownAnswer(z: Case, n: Net, a: Action, j: nat)
    requires z.Valid() && |n| == |z.t| && GoingDown(z, n, j)
    requires Enabled(n, a) && Lone.RestartAction(n[a.s], a) && a.s == z.ch[j] && !ByCoroutine(a)
    ensures GoingDown(z, Apply(z.t, n, a), j) && DownRank(Surround(n[a.s], a).l) == DownRank(n[a.s].l)
  {
    assert Stands(z, n[z.ch[j]], j, j);
    NodeAnswered(z, n[a.s], j, a);
    AnsweredAlike(z, n[a.s], Surround(n[a.s], a), j);
    AnsweredDown(z, n, j, Surround(n[a.s], a));
  }

  lemma AnswerGood(z: Case, n0: Net, n: Net, a: Action, k: nat, i: nat)
    requires Good(z, n0, n, k) && i < |z.ch| && a.s == z.ch[i]
    requires Enabled(n, a) && Lone.RestartAction(n[a.s], a) && !ByCoroutine(a)
    ensures Good(z, n0, Apply(z.t, n, a), k + 1)
  {
    if j: nat :| GoingDown(z, n, j) && DownSize(z.t, n) + k <= DownSize(z.t, n0) {
      OnlyOneMoves(z, n, j, a);
      DownAnswer(z, n, a, j);
      AnswerLighter(z.t, n, a, DownRank);
    } else {
      UpAnswer(z, n, a, i);
      AnswerLighter(z.t, n, a, UpRank);
    }
  }

  /** Every step of the restart goes on with it. */
  lemma GoodStep(z: Case, n0: Net, n: Net, a: Action, k: nat)
    requires Good(z, n0, n, k) && Enabled(n, a) && Lone.RestartAction(n[a.s], a)
    ensures Good(z, n0, Apply(z.t, n, a), k + 1)
  {
    if j: nat :| GoingDown(z, n, j) && DownSize(z.t, n) + k <= DownSize(z.t, n0) {
      OnlyOneMoves(z, n, j, a);
      if ByCoroutine(a) {
        DownCoroutine(z, n0, n, a, k, j);
      } else {
        AnswerGood(z, n0, n, a, k, j);
      }
    } else if a.s !in z.ch {
      UpOther(z, n0, n, a, k);
    } else {
      var i: nat :| i < |z.ch| && z.ch[i] == a.s;
      if ByCoroutine(a) {
        UpCoroutine(z, n0, n, a, k, i);
      } else {
        AnswerGood(z, n0, n, a, k, i);
      }
    }
  }

  // ---------------------------------------------------------------- where it ends

  /** Nothing of a restart can happen any more. */
  ghost predicate Stuck(n: Net) {
    forall a | Enabled(n, a) :: !Lone.RestartAction(n[a.s], a)
  }

  ghost predicate StuckAt(x: Sub) {
    forall a | EnabledAt(x, a) :: !Lone.RestartAction(x, a)
  }

  lemma StuckEverywhere(n: Net, i: SubId)
    requires Stuck(n) && i < |n|
    ensures StuckAt(n[i])
  {
    forall a: Action | EnabledAt(n[i], a) ensures !Lone.RestartAction(n[i], a) {
      var b := a.(s := i);
      assert EnabledAt(n[i], b) && (Lone.RestartAction(n[i], b) <==> Lone.RestartAction(n[i], a));
      assert Enabled(n, b);
    }
  }

  lemma StuckIsLive(x: Sub)
    requires StuckAt(x) && |x.l.coros| == 1 && !x.l.coros[0].LaunchSleep?
    ensures x.l.coros[0].Live? && x.queue == [] && x.events == multiset{}
  {
    assert !EnabledAt(x, DoExpire(0, 0)) && !EnabledAt(x, DoEntry(0, 0, |x.l.procs|)) && !EnabledAt(x, DoMessage(0, 0));
    forall v ensures v !in x.events {
      assert !EnabledAt(x, DoEvent(0, 0, v, false));
    }
  }

  lemma SomethingToStop(x: Sub, c: ClientId) returns (a: Action)
    requires FollowerSteps.Following(x, c) && IsLive(x.l, Restarting) && !x.l.AllStopped()
    ensures EnabledAt(x, a) && Lone.RestartAction(x, a)
  {
    var q :| 0 <= q < |x.l.procs| && x.l.procs[q].running;
    a := if q in x.l.stopRequested then ProcStops(0, q) else DoEvent(0, 0, StopEvent(q), false);
  }

  lemma SomethingToStart(x: Sub, c: ClientId) returns (a: Action)
    requires FollowerSteps.Following(x, c) && IsLive(x.l, StartingProcesses)
    ensures EnabledAt(x, a) && Lone.RestartAction(x, a)
  {
    var q :| 0 <= q < |x.l.procs| && !x.l.procs[q].running;
    a := if q in x.l.launched then ProcStarts(0, q) else DoEvent(0, 0, StartEvent(q), false);
  }

  /** A follower that can do nothing rests, waits for its children or is Online. */
  lemma FollowerStuck(x: Sub, c: ClientId)
    requires FollowerSteps.Following(x, c) && StuckAt(x)
    ensures x.queue == [] && (Rests(x.l) || Awaits(x.l) || IsLive(x.l, Online))
  {
    StuckIsLive(x);
    if x.l.oper == Restarting && !x.l.AllStopped() {
      var a := SomethingToStop(x, c);
    } else if x.l.oper == StartingProcesses {
      var a := SomethingToStart(x, c);
    }
  }

  /** So does the crashed one, unless it is stranded. */
  lemma StruckStuck(x: Sub, p: ProcId, c: ClientId, m: int)
    requires StruckSteps.Struck(x, p, c, m) && StuckAt(x)
    ensures x.queue == [] && !StruckSteps.Sinking(x.l, m)
    ensures Rests(x.l) || Awaits(x.l) || (if Lone.Shared(x.l, p) then Lone.Stranded(x) else IsLive(x.l, Online))
  {
    StuckIsLive(x);
    if !Rests(x.l) && !Awaits(x.l) {
      assert Unread(x) == x;
      assert Lone.Stuck(x);
      Lone.StuckEnds(x, p);
    }
  }

  /** Whoever can do nothing on the way down is past it. */
  lemma NotDown(z: Case, n: Net, j: nat)
    requires z.Valid() && |n| == |z.t| && Stuck(n)
    ensures !GoingDown(z, n, j)
  {
    if j < |z.ch| {
      StuckEverywhere(n, z.ch[j]);
      if Stands(z, n[z.ch[j]], j, j) {
        NotSinking(z, n[z.ch[j]], j);
      }
    }
  }

  lemma NotSinking(z: Case, x: Sub, j: nat)
    requires z.Valid() && j < |z.ch| && Node(z, x, j) && StuckAt(x)
    requires x.queue == [] ==> !(j > 0 && IsLive(x.l, Online))
    ensures !Sinking(z, x, j)
  {
    if j == 0 {
      StruckStuck(x, z.p, z.cl[0], z.count);
    } else {
      FollowerStuck(x, z.cl[j]);
    }
  }

  /** A node at the end: it has nothing to read, and rests, waits for its children, is Online or is stranded. */
  lemma NodeStuck(z: Case, n: Net, i: nat)
    requires z.Valid() && |n| == |z.t| && GoingUp(z, n) && Stuck(n) && i < |z.ch|
    ensures var x := n[z.ch[i]];
      && x.queue == []
      && (Rests(x.l) || Awaits(x.l) || if i == 0 && z.shared then Lone.Stranded(x) else IsLive(x.l, Online))
  {
    StuckEverywhere(n, z.ch[i]);
    assert Climbs(z, n[z.ch[i]], i);
    if i == 0 {
      StruckStuck(n[z.ch[0]], z.p, z.cl[0], z.count);
    } else {
      FollowerStuck(n[z.ch[i]], z.cl[i]);
    }
  }

  lemma OtherStuck(z: Case, n: Net, x: SubId)
    requires z.Valid() && |n| == |z.t| && GoingUp(z, n) && Stuck(n) && x < |z.t| && x !in z.ch
    ensures n[x].queue == [] && Other(n[x], z.w[x], z.Callers(x))
  {
    StuckEverywhere(n, x);
    assert Stays(z, n, x);
    StuckIsLive(n[x]);
  }

  /** Nobody is left resting: whoever is above has told it to start over. */
  lemma {:induction false} NobodyRests(z: Case, n: Net, i: nat)
    requires z.Valid() && |n| == |z.t| && GoingUp(z, n) && Stuck(n) && i < |z.ch|
    ensures !Rests(n[z.ch[i]].l)
    decreases |z.ch| - i
  {
    NodeStuck(z, n, i);
    assert Climbs(z, n[z.ch[i]], i);
    if i < z.Top() {
      NobodyRests(z, n, i + 1);
      assert Linked(z, n, i);
    }
  }

  /** A child outside the chain has been heard of. */
  lemma KidHeard(z: Case, n: Net, i: nat, x: SubId)
    requires z.Valid() && |n| == |z.t| && GoingUp(z, n) && Stuck(n) && i < |z.ch| && x in z.t[z.ch[i]] && x !in z.ch
    ensures !Misses(n[z.ch[i]], x)
  {
    NodeStuck(z, n, i);
    OtherStuck(z, n, x);
    assert Stays(z, n, x);
    assert Kid(n[x], n[z.ch[i]], x, z.cl[i]);
  }

  /** Nobody is left waiting for a child that is Online. */
  lemma NobodyWaits(z: Case, n: Net, i: nat)
    requires z.Valid() && |n| == |z.t| && GoingUp(z, n) && Stuck(n) && i < |z.ch|
    requires i > 0 ==> IsLive(n[z.ch[i-1]].l, Online)
    ensures !Awaits(n[z.ch[i]].l)
  {
    var y := n[z.ch[i]];
    assert Climbs(z, y, i);
    NodeStuck(z, n, i);
    forall d | d in z.t[z.ch[i]] && Awaits(y.l) && y.l.oper == StartingChildren ensures d in Noted(y.l) {
      if d in z.ch {
        ChildInChain(z, i, d);
        assert Linked(z, n, i - 1);
      } else {
        KidHeard(z, n, i, d);
      }
    }
    AwaitsIs(z, y, i);
  }

  lemma AwaitsIs(z: Case, x: Sub, i: nat)
    requires z.Valid() && i < |z.ch| && Node(z, x, i)
    ensures Awaits(x.l) ==> x.l.oper == StartingChildren
    ensures IsLive(x.l, Online) ==> x.l.oper == Online
  {
  }

  lemma {:induction false} AllOnline(z: Case, n: Net, i: nat)
    requires z.Valid() && |n| == |z.t| && GoingUp(z, n) && Stuck(n) && i < |z.ch| && !z.shared
    ensures IsLive(n[z.ch[i]].l, Online)
  {
    if i > 0 {
      AllOnline(z, n, i - 1);
    }
    NodeStuck(z, n, i);
    NobodyRests(z, n, i);
    NobodyWaits(z, n, i);
  }

  /** When the crashed one is stranded all above wait for their child in the chain. */
  lemma {:induction false} AllWait(z: Case, n: Net, i: nat)
    requires z.Valid() && |n| == |z.t| && GoingUp(z, n) && Stuck(n) && i < |z.ch| && z.shared
    ensures if i == 0 then Lone.Stranded(n[z.ch[0]]) else Awaits(n[z.ch[i]].l) && n[z.ch[i]].l.oper == StartingChildren
  {
    NodeStuck(z, n, i);
    NobodyRests(z, n, i);
    assert Climbs(z, n[z.ch[i]], i);
    AwaitsIs(z, n[z.ch[i]], i);
    if i == 0 {
      NobodyWaits(z, n, 0);
    } else {
      AllWait(z, n, i - 1);
      assert Linked(z, n, i - 1);
    }
  }

  /** Who has each subsystem up afterwards: the children of the chain have gained the clients it serves. */
  ghost function AfterSpread(z: Case): (w: Config)
    requires z.Valid()
    ensures |w| == |z.t|
  {
    seq(|z.t|, i requires 0 <= i < |z.t| => if i in z.ch then z.w[i] else z.w[i] + z.Callers(i))
  }

  lemma OtherRests(z: Case, n: Net, x: SubId)
    requires z.Valid() && |n| == |z.t| && GoingUp(z, n) && Stuck(n) && x < |z.t| && x !in z.ch
    ensures Resting(n[x], AfterSpread(z)[x])
  {
    OtherStuck(z, n, x);
    assert Stays(z, n, x);
    forall c | c in z.Callers(x) ensures n[x].l.clients.Contains(c) && z.w[x] != {} {
      var i: nat :| i < |z.ch| && x in z.t[z.ch[i]] && z.cl[i] != NO_CLIENT && z.cl[i] == c;
      NobodyRests(z, n, i);
      assert Kid(n[x], n[z.ch[i]], x, z.cl[i]);
    }
  }

  /** A node that is Online again is as it was. */
  lemma OnlineRests(z: Case, n: Net, i: nat)
    requires z.Valid() && |n| == |z.t| && GoingUp(z, n) && Stuck(n) && i < |z.ch| && IsLive(n[z.ch[i]].l, Online)
    ensures Resting(n[z.ch[i]], AfterSpread(z)[z.ch[i]])
  {
    assert Climbs(z, n[z.ch[i]], i);
    StuckEverywhere(n, z.ch[i]);
    StuckIsLive(n[z.ch[i]]);
  }

  // ---------------------------------------------------------------- whole runs

  /** How a restart that has spread ends. */
  ghost predicate Settled(z: Case, n: Net)
    requires z.Valid()
  {
    && |n| == |z.t|
    && (!z.shared ==> AllResting(n, AfterSpread(z)))
    && (z.shared ==>
          && Lone.Stranded(n[z.ch[0]])
          && (forall i | 0 < i < |z.ch| :: Awaits(n[z.ch[i]].l) && n[z.ch[i]].l.oper == StartingChildren)
          && forall x: SubId | x < |z.t| && x !in z.ch :: Resting(n[x], AfterSpread(z)[x]))
  }

  lemma StuckIsSettled(z: Case, n: Net)
    requires z.Valid() && |n| == |z.t| && GoingUp(z, n) && Stuck(n)
    ensures Settled(z, n)
  {
    forall x: SubId | x < |z.t| && x !in z.ch ensures Resting(n[x], AfterSpread(z)[x]) {
      OtherRests(z, n, x);
    }
    forall i: nat | i < |z.ch|
      ensures if !z.shared then Resting(n[z.ch[i]], AfterSpread(z)[z.ch[i]])
              else if i == 0 then Lone.Stranded(n[z.ch[0]])
              else Awaits(n[z.ch[i]].l) && n[z.ch[i]].l.oper == StartingChildren
    {
      if z.shared {
        AllWait(z, n, i);
      } else {
        AllOnline(z, n, i);
        OnlineRests(z, n, i);
      }
    }
  }

  /** Node i has all its connections, and serves its client of the case. */
  ghost predicate Whole(z: Case, n: Net, i: nat)
    requires z.Valid() && |n| == |z.t| && i < |z.ch|
  {
    FollowerSteps.Whole(n[z.ch[i]].l) && |n[z.ch[i]].l.coros| == 1 && n[z.ch[i]].l.coros[0].client == z.cl[i]
  }

  /** A process has just crashed in a system at rest, whose chain has all its connections. */
  ghost predicate JustCrashed(z: Case, n: Net) {
    && z.Valid() && |n| == |z.t|
    && (forall x: SubId | x < |z.t| && x != z.ch[0] :: Resting(n[x], z.w[x]))
    && (forall i: nat {:trigger Whole(z, n, i)} | 0 < i < |z.ch| :: Whole(z, n, i))
    && Lone.JustCrashed(n[z.ch[0]], z.p) && n[z.ch[0]].l.coros[0].client == z.cl[0]
    && n[z.ch[0]].l.clients.members == z.w[z.ch[0]] && n[z.ch[0]].l.numRestarts == z.count
    && Lone.Shared(n[z.ch[0]].l, z.p) == z.shared
  }

  lemma CrashGoesDown(z: Case, n: Net)
    requires JustCrashed(z, n)
    ensures GoingDown(z, n, 0)
  {
    forall i: nat | i < |z.ch| ensures Stands(z, n[z.ch[i]], i, 0) {
      CrashStands(z, n, i);
    }
    forall x: SubId | x < |z.t| && x !in z.ch ensures Resting(n[x], z.w[x]) {
      assert x != z.ch[0];
    }
  }

  lemma DownIsGood(z: Case, n: Net)
    requires z.Valid() && |n| == |z.t| && GoingDown(z, n, 0)
    ensures Good(z, n, n, 0)
  {
  }

  lemma CrashStands(z: Case, n: Net, i: nat)
    requires JustCrashed(z, n) && i < |z.ch|
    ensures Stands(z, n[z.ch[i]], i, 0)
  {
    if i == 0 {
      assert Unread(n[z.ch[0]]) == n[z.ch[0]];
    } else {
      Apart(z, i, 0);
      assert Resting(n[z.ch[i]], z.w[z.ch[i]]) && Whole(z, n, i);
    }
  }

  ghost predicate GoodKept(z: Case, n0: Net, n: Net, n': Net, k: nat) {
    Good(z, n0, n, k) ==> Good(z, n0, n', k + 1)
  }

  lemma {:induction false} GoodUpTo(z: Case, ns: seq<Net>, k: nat)
    requires k < |ns| && Good(z, ns[0], ns[0], 0)
    requires forall i {:trigger ns[i]} | 0 <= i < k :: GoodKept(z, ns[0], ns[i], ns[i+1], i)
    ensures Good(z, ns[0], ns[k], k)
  {
    if k > 0 {
      GoodUpTo(z, ns, k - 1);
      assert GoodKept(z, ns[0], ns[k-1], ns[k-1+1], k - 1);
    }
  }

  lemma GoodAlways(z: Case, ns: seq<Net>, acts: seq<Action>)
    requires z.Valid() && Run(z.t, ns, acts) && JustCrashed(z, ns[0])
    requires forall i {:trigger acts[i]} | 0 <= i < |acts| :: Lone.RestartAction(ns[i][acts[i].s], acts[i])
    ensures Good(z, ns[0], ns[|acts|], |acts|)
  {
    CrashGoesDown(z, ns[0]);
    DownIsGood(z, ns[0]);
    forall i: nat {:trigger ns[i]} | i < |acts| ensures GoodKept(z, ns[0], ns[i], ns[i+1], i) {
      assert Enabled(ns[i], acts[i]) && ns[i+1] == Apply(z.t, ns[i], acts[i]) && Lone.RestartAction(ns[i][acts[i].s], acts[i]);
      StepKept(z, ns[0], ns[i], acts[i], ns[i+1], i);
    }
    GoodUpTo(z, ns, |acts|);
  }

  lemma StepKept(z: Case, n0: Net, n: Net, a: Action, n': Net, k: nat)
    requires z.Valid() && |n| == |z.t| && Enabled(n, a) && Lone.RestartAction(n[a.s], a) && n' == Apply(z.t, n, a)
    ensures GoodKept(z, n0, n, n', k)
  {
    if Good(z, n0, n, k) {
      GoodStep(z, n0, n, a, k);
    }
  }

  lemma {:induction false} TotalNotNegative(t: Topology, n: Net, k: nat, rank: Ranking)
    requires |n| == |t| && k <= |t|
    ensures 0 <= Total(t, n, k, rank)
  {
  }

  lemma GoodIsShort(z: Case, n0: Net, n: Net, k: nat)
    requires Good(z, n0, n, k)
    ensures k <= DownSize(z.t, n0) + Bound(z.t, n0)
  {
    TotalNotNegative(z.t, n, |z.t|, DownRank);
    TotalNotNegative(z.t, n, |z.t|, UpRank);
    TotalNotNegative(z.t, n0, |z.t|, ENOUGH);
  }

  /**
   * A process crashes in a system at rest, with a restart left in its subsystem's budget, and each subsystem up to
   * the top has one parent.  Every run of the restart is at most as long as two measures of its first state.
   * When it cannot go on, all that was up is up again and nothing else, exactly if the crashed process
   * shares its compute with no other; if it does, its subsystem is stranded and all above wait for it.
   */
  lemma SpreadEnds(z: Case, ns: seq<Net>, acts: seq<Action>)
    requires z.Valid() && Run(z.t, ns, acts) && JustCrashed(z, ns[0])
    requires forall i {:trigger acts[i]} | 0 <= i < |acts| :: Lone.RestartAction(ns[i][acts[i].s], acts[i])
    ensures |acts| <= DownSize(z.t, ns[0]) + Bound(z.t, ns[0])
    ensures Stuck(ns[|acts|]) ==> Settled(z, ns[|acts|])
  {
    GoodAlways(z, ns, acts);
    GoodIsShort(z, ns[0], ns[|acts|], |acts|);
    if Stuck(ns[|acts|]) {
      if j: nat :| GoingDown(z, ns[|acts|], j) {
        NotDown(z, ns[|acts|], j);
      } else {
        StuckIsSettled(z, ns[|acts|]);
      }
    }
  }

  /** Unless the crashed subsystem is stranded, all that anything in the chain depends on is Online again. */
  lemma ReachedIsBack(z: Case, ns: seq<Net>, acts: seq<Action>, i: nat, d: SubId)
    requires z.Valid() && Run(z.t, ns, acts) && JustCrashed(z, ns[0]) && !z.shared
    requires forall i {:trigger acts[i]} | 0 <= i < |acts| :: Lone.RestartAction(ns[i][acts[i].s], acts[i])
    requires Stuck(ns[|acts|]) && i < |z.ch| && StartCascade.Reach(z.t, z.ch[i], d)
    ensures d < |z.t| && Holding(ns[|acts|][d].l)
  {
    SpreadEnds(z, ns, acts);
    Sessions.ReachDown(z.t, z.w, z.ch[i], d);
    assert Resting(ns[|acts|][d], AfterSpread(z)[d]);
  }
}
