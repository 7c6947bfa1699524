/**
 * How a restart spreads.  A process of a subsystem crashes in a system at rest: the subsystem goes down, its
 * parent follows, and so on to the top; from there each is told to start over, down to the crashed one,
 * and then they come up again, each once its children are Online.
 */
module RestartSpread {
  import opened States
  import opened ClientBits
  import opened Umbilicals
  import opened SubsystemModel
  import opened Network
  import opened CascadeMeasure
  import opened Configs
  import opened RestartSteps
  import opened RestartLinks
  import StruckSteps
  import FollowerSteps
  import StartCascade
  import Sessions
  import Lone = LoneRestart

  /** The crashed subsystem, its parent, and so on to one without parents. */
  type Chain = seq<SubId>

  /** The parents of the node with number i. */
  function Above(ch: Chain, i: nat): set<SubId> {
    if i + 1 < |ch| then {ch[i+1]} else {}
  }

  /** Each has no other parent than the next, and the last none. */
  ghost predicate IsChain(t: Topology, ch: Chain) {
    && ch != [] && (forall i | 0 <= i < |ch| :: ch[i] < |t|)
    && forall i: nat {:trigger Above(ch, i)} | i < |ch| :: Parents(t, ch[i]) == Above(ch, i)
  }

  lemma ParentIs(z: Case, i: nat, q: SubId)
    requires z.Valid() && i < |z.ch| && q < |z.t|
    ensures z.ch[i] in z.t[q] <==> i + 1 < |z.ch| && q == z.ch[i+1]
  {
    assert Parents(z.t, z.ch[i]) == Above(z.ch, i);
    assert q in Parents(z.t, z.ch[i]) <==> z.ch[i] in z.t[q];
  }

  /**
   * A restart: the system at rest around it, the chain and the clients it serves, the crashed process and the
   * restarts before, and whether that process shares its compute.
   */
  datatype Case = Case(t: Topology, w: Config, ch: Chain, cl: seq<ClientId>, p: ProcId, count: int, shared: bool) {
    ghost predicate Valid() {
      && Registered(t) && |w| == |t| && Closed(t, w) && IsChain(t, ch) && |cl| == |ch|
      && forall i | 0 <= i < |ch| :: w[ch[i]] != {} && (cl[i] < 64 || cl[i] == NO_CLIENT)
    }

    function Top(): nat
      requires ch != []
    {
      |ch| - 1
    }

    /** The clients that the chain serves and x is told of. */
    ghost function Callers(x: SubId): set<ClientId>
      requires Valid()
    {
      set i | 0 <= i < |ch| && x in t[ch[i]] && cl[i] != NO_CLIENT :: cl[i]
    }
  }

  /** Higher in the chain is a higher number, so nobody is in it twice. */
  lemma {:induction false} ChainRises(z: Case, i: nat, j: nat)
    requires z.Valid() && i < j < |z.ch|
    ensures z.ch[i] < z.ch[j]
    decreases j
  {
    if i < j - 1 {
      ChainRises(z, i, j - 1);
    }
    ParentIs(z, j - 1, z.ch[j]);
  }

  /** The node of the chain with number i. */
  ghost predicate Node(z: Case, x: Sub, i: nat)
    requires i < |z.ch| && |z.cl| == |z.ch| && |z.w| == |z.t| && z.ch[i] < |z.t|
  {
    && x.l.clients.members == z.w[z.ch[i]]
    && if i == 0 then StruckSteps.Struck(x, z.p, z.cl[0], z.count) && Lone.Shared(x.l, z.p) == z.shared
       else FollowerSteps.Following(x, z.cl[i])
  }

  // ---------------------------------------------------------------- the way down

  /** Node i goes down, or is about to. */
  predicate Sinking(z: Case, x: Sub, i: nat) {
    if i == 0 then StruckSteps.Sinking(x.l, z.count) else IsLive(x.l, Online) || (x.l.oper == Restarting && !Rests(x.l))
  }

  /** Node i while node j goes down: it rests below j, and is Online still above. */
  ghost predicate Stands(z: Case, x: Sub, i: nat, j: nat)
    requires z.Valid() && i < |z.ch|
  {
    && Node(z, x, i)
    && if i == j then
         && Sinking(z, x, i)
         && x.queue == (if i > 0 && IsLive(x.l, Online) then [ReportOper(z.ch[i-1], Restarting)] else [])
       else x.queue == [] && if i < j then Rests(x.l) else IsLive(x.l, Online)
  }

  ghost predicate GoingDown(z: Case, n: Net, j: nat)
    requires z.Valid() && |n| == |z.t|
  {
    && j < |z.ch|
    && (forall x | 0 <= x < |n| && x !in z.ch :: Resting(n[x], z.w[x]))
    && (forall i: nat {:trigger Stands(z, n[z.ch[i]], i, j)} | i < |z.ch| :: Stands(z, n[z.ch[i]], i, j))
  }

  predicate Calm(x: Sub) {
    && x.queue == [] && x.events == multiset{} && x.l.connectors == {} && x.l.launched == {} && x.l.stopRequested == {}
    && forall k | 0 <= k < |x.l.coros| :: x.l.coros[k].Live?
  }

  lemma CalmIsStill(x: Sub, a: Action)
    requires Calm(x) && Lone.RestartAction(x, a)
    ensures !EnabledAt(x, a)
  {
  }

  lemma NodeCalm(z: Case, x: Sub, i: nat)
    requires z.Valid() && i < |z.ch| && Node(z, x, i) && x.queue == [] && (Rests(x.l) || (i > 0 && IsLive(x.l, Online)))
    ensures Calm(x)
  {
  }

  /** Only node j can do anything. */
  lemma OnlyOneMoves(z: Case, n: Net, j: nat, a: Action)
    requires z.Valid() && |n| == |z.t| && GoingDown(z, n, j) && Enabled(n, a) && Lone.RestartAction(n[a.s], a)
    ensures a.s == z.ch[j]
  {
    if a.s !in z.ch {
      assert Resting(n[a.s], z.w[a.s]);
      assert Calm(n[a.s]);
      CalmIsStill(n[a.s], a);
    } else {
      var i: nat :| i < |z.ch| && z.ch[i] == a.s;
      assert Stands(z, n[z.ch[i]], i, j);
      if i != j {
        NodeCalm(z, n[a.s], i);
        CalmIsStill(n[a.s], a);
      }
    }
  }

  lemma SeesAbove(z: Case, n: Net, i: nat)
    requires z.Valid() && |n| == |z.t| && i < |z.ch|
    ensures var nb := View(z.t, n, z.ch[i]);
      nb.parents.Keys == (if i < z.Top() then {z.ch[i+1]} else {}) && nb.children.Keys == z.t[z.ch[i]]
  {
    assert Parents(z.t, z.ch[i]) == Above(z.ch, i);
  }

  /** What node j makes of its step on the way down. */
  ghost predicate Sank(z: Case, x: Sub, j: nat, a: Action, e: Effect, y: Sub)
    requires z.Valid() && j < |z.ch|
  {
    && EnabledAt(x, a) && ByCoroutine(a) && y.queue == [] && y.l == e.l && Consumes(x, InputOf(x, a), y.queue, y.events)
    && Node(z, y, j) && |e.l.procs| == |x.l.procs|
    && if e.l.oper == StartingChildren then j == z.Top() && StartsOver(x.l, InputOf(x, a), e, z.cl[j])
       else
         && Sinks(x.l, InputOf(x, a), e, z.cl[j]) && !IsLive(e.l, Online)
         && (Rests(e.l) ==> j < z.Top()) && (!Rests(e.l) ==> Sinking(z, y, j))
  }

  /** Node j as it is in phase j of the way down. */
  ghost predicate AtWork(z: Case, x: Sub, nb: Neighbours, j: nat, a: Action)
    requires z.Valid() && j < |z.ch|
  {
    && Node(z, x, j) && Sinking(z, x, j) && EnabledAt(x, a) && Lone.RestartAction(x, a) && ByCoroutine(a)
    && x.queue == (if j > 0 && IsLive(x.l, Online) then [ReportOper(z.ch[j-1], Restarting)] else [])
    && (nb.parents.Keys == {} <==> j == z.Top())
  }

  lemma StruckSinks(z: Case, x: Sub, nb: Neighbours, a: Action)
    requires z.Valid() && AtWork(z, x, nb, 0, a)
    ensures Sank(z, x, 0, a, Turn(x, nb, a), After(x, nb, a))
  {
    StruckSteps.StruckSinks(x, nb, a, z.p, z.cl[0], z.count);
    Lone.SharedAlike(x.l, Turn(x, nb, a).l, z.p);
  }

  lemma FollowerSinks(z: Case, x: Sub, nb: Neighbours, j: nat, a: Action)
    requires z.Valid() && 0 < j < |z.ch| && AtWork(z, x, nb, j, a)
    ensures Sank(z, x, j, a, Turn(x, nb, a), After(x, nb, a))
  {
    assert IsLive(x.l, Online) ==> a.DoMessage?;
    FollowerSteps.FollowerSinks(x, nb, a, z.cl[j]);
  }

  lemma NodeSinks(z: Case, n: Net, j: nat, a: Action)
    requires z.Valid() && |n| == |z.t| && GoingDown(z, n, j) && Enabled(n, a) && Lone.RestartAction(n[a.s], a)
    requires a.s == z.ch[j] && ByCoroutine(a)
    ensures Sank(z, n[a.s], j, a, EffectOf(z.t, n, a), After(n[a.s], View(z.t, n, a.s), a))
  {
    SeesAbove(z, n, j);
    assert Stands(z, n[z.ch[j]], j, j);
    if j == 0 {
      StruckSinks(z, n[a.s], View(z.t, n, a.s), a);
    } else {
      FollowerSinks(z, n[a.s], View(z.t, n, a.s), j, a);
    }
  }

  /** Only the next node hears of it. */
  lemma SankQueues(z: Case, n: Net, n': Net, j: nat, a: Action, e: Effect, y: Sub, i: SubId)
    requires z.Valid() && |n| == |z.t| && j < |z.ch| && Sank(z, n[z.ch[j]], j, a, e, y) && e.l.oper != StartingChildren
    requires n' == Deliver(z.t, n, z.ch[j], e, y.queue, y.events) && i < |z.t| && i != z.ch[j]
    ensures n'[i].l == n[i].l && n'[i].events == n[i].events
    ensures n'[i].queue == n[i].queue + if j < z.Top() && i == z.ch[j+1] && Rests(e.l) then [ReportOper(z.ch[j], Restarting)] else []
  {
    assert n[i].queue + [] == n[i].queue;
    ParentIs(z, j, i);
    if i in z.t[z.ch[j]] {
      assert Commands(e.downs) == [] && z.ch[j] !in z.t[i];
    } else if z.ch[j] in z.t[i] {
      assert Reports(z.ch[j], e.ups) == if Rests(e.l) then [ReportOper(z.ch[j], Restarting)] else [];
    }
  }

  /** The other nodes, after a step of node j. */
  lemma SankOther(z: Case, n: Net, n': Net, j: nat, a: Action, e: Effect, y: Sub, i: nat)
    requires z.Valid() && |n| == |z.t| && GoingDown(z, n, j) && Sank(z, n[z.ch[j]], j, a, e, y)
    requires e.l.oper != StartingChildren
    requires n' == Deliver(z.t, n, z.ch[j], e, y.queue, y.events) && i < |z.ch| && i != j
    ensures Stands(z, n'[z.ch[i]], i, if Rests(e.l) then j + 1 else j)
  {
    assert Stands(z, n[z.ch[i]], i, j);
    Apart(z, i, j);
    SankQueues(z, n, n', j, a, e, y, z.ch[i]);
    NodeUnread(z, n[z.ch[i]], n'[z.ch[i]], i);
    if i != j + 1 && j < z.Top() {
      Apart(z, i, j + 1);
    }
  }

  /** Either node j goes on, or it rests and the next one is about to read of it. */
  lemma SankDown(z: Case, n: Net, n': Net, j: nat, a: Action, e: Effect, y: Sub)
    requires z.Valid() && |n| == |z.t| && GoingDown(z, n, j) && Sank(z, n[z.ch[j]], j, a, e, y)
    requires e.l.oper != StartingChildren
    requires n' == Deliver(z.t, n, z.ch[j], e, y.queue, y.events)
    ensures GoingDown(z, n', if Rests(e.l) then j + 1 else j)
  {
    forall i: SubId | i < |z.t| && i !in z.ch ensures Resting(n'[i], z.w[i]) {
      SankQueues(z, n, n', j, a, e, y, i);
      assert n'[i] == n[i];
    }
    forall i: nat | i < |z.ch| ensures Stands(z, n'[z.ch[i]], i, if Rests(e.l) then j + 1 else j) {
      if i != j {
        SankOther(z, n, n', j, a, e, y, i);
      }
    }
  }

  lemma Apart(z: Case, i: nat, j: nat)
    requires z.Valid() && i < |z.ch| && j < |z.ch| && i != j
    ensures z.ch[i] != z.ch[j]
  {
    if i < j {
      ChainRises(z, i, j);
    } else {
      ChainRises(z, j, i);
    }
  }

  lemma NodeUnread(z: Case, x: Sub, y: Sub, i: nat)
    requires z.Valid() && i < |z.ch| && Node(z, x, i) && y.l == x.l && y.events == x.events
    ensures Node(z, y, i)
  {
    if i == 0 {
      StruckSteps.StruckUnread(x, y, z.p, z.cl[0], z.count);
    } else {
      FollowerSteps.FollowingStill(x, y, z.cl[i]);
    }
  }

  // ---------------------------------------------------------------- the way up

  /** A subsystem outside the chain: as it was, but that it may have gained clients that the chain serves. */
  ghost predicate Other(x: Sub, who: set<nat>, gains: set<ClientId>) {
    && x.events == multiset{} && Provided(x.l)
    && if who == {} then IsDown(x.l) && x.l.clients.members == {}
       else Holding(x.l) && who <= x.l.clients.members <= who + gains
  }

  /** What is on its way to subsystem x outside the chain. */
  ghost predicate MeantOther(z: Case, x: SubId, m: Message)
    requires z.Valid()
  {
    || (m.ReportOper? && (m.oper == Online || m.oper == Offline))
    || exists i {:trigger z.cl[i]} :: 0 <= i < |z.ch| && x in z.t[z.ch[i]] && m == Start(z.cl[i])
  }

  /** What is on its way to node i. */
  ghost predicate MeantNode(z: Case, i: nat, m: Message)
    requires z.Valid() && i < |z.ch|
  {
    || (m.ReportOper? && m.oper == Online && m.sender in z.t[z.ch[i]] && m.sender !in z.ch)
    || (m.ReportOper? && OnTheWay(m.oper) && i > 0 && m.sender == z.ch[i-1])
    || (i < z.Top() && m == Start(z.cl[i+1]))
  }

  /** Node i on the way up. */
  ghost predicate Climbs(z: Case, x: Sub, i: nat)
    requires z.Valid() && i < |z.ch|
  {
    && Node(z, x, i) && Rising(x.l) && (i == 0 ==> !StruckSteps.Sinking(x.l, z.count))
    && (Awaits(x.l) ==> !(z.t[z.ch[i]] <= Noted(x.l)))
    && (i == z.Top() ==> !Rests(x.l))
    && forall m | m in x.queue :: MeantNode(z, i, m)
  }

  /** Node i and the next one. */
  ghost predicate Linked(z: Case, n: Net, i: nat)
    requires z.Valid() && |n| == |z.t| && i < z.Top()
  {
    var x, y := n[z.ch[i]], n[z.ch[i+1]];
    Told(x, y, z.cl[i+1]) && Knows(x, y, z.ch[i])
  }

  /** Subsystem x outside the chain, and the nodes it is a child of. */
  ghost predicate Stays(z: Case, n: Net, x: SubId)
    requires z.Valid() && |n| == |z.t| && x < |z.t|
  {
    && Other(n[x], z.w[x], z.Callers(x)) && (forall m | m in n[x].queue :: MeantOther(z, x, m))
    && forall i: nat {:trigger Kid(n[x], n[z.ch[i]], x, z.cl[i])} | i < |z.ch| && x in z.t[z.ch[i]] ::
         Kid(n[x], n[z.ch[i]], x, z.cl[i])
  }

  ghost predicate GoingUp(z: Case, n: Net)
    requires z.Valid() && |n| == |z.t|
  {
    && (forall x: SubId | x < |z.t| && x !in z.ch :: Stays(z, n, x))
    && (forall i: nat {:trigger Climbs(z, n[z.ch[i]], i)} | i < |z.ch| :: Climbs(z, n[z.ch[i]], i))
    && (forall i: nat {:trigger Linked(z, n, i)} | i < z.Top() :: Linked(z, n, i))
  }

  // ---------------------------------------------------------------- from the way down to the way up

  /** The topmost node starts over. */
  ghost predicate Turns(z: Case, n: Net, n': Net, a: Action, e: Effect, y: Sub)
    requires z.Valid() && |n| == |z.t|
  {
    && GoingDown(z, n, z.Top()) && Sank(z, n[z.ch[z.Top()]], z.Top(), a, e, y) && e.l.oper == StartingChildren
    && n' == Deliver(z.t, n, z.ch[z.Top()], e, y.queue, y.events)
  }

  /** What a step sends goes to the ends of the queues. */
  lemma SentQueues(t: Topology, n: Net, n': Net, s: SubId, e: Effect, queue: seq<Message>, events: multiset<Event>,
                   i: SubId)
    requires Registered(t) && |n| == |t| && s < |t| && i < |t| && i != s && n' == Deliver(t, n, s, e, queue, events)
    ensures n'[i] == n[i].(queue := n[i].queue + if i in t[s] then Commands(e.downs) else if s in t[i] then Reports(s, e.ups) else [])
  {
    assert n[i].queue + [] == n[i].queue;
  }

  lemma TurnsQueues(z: Case, n: Net, n': Net, a: Action, e: Effect, y: Sub, i: SubId)
    requires z.Valid() && |n| == |z.t| && Turns(z, n, n', a, e, y) && i < |z.t| && i != z.ch[z.Top()]
    ensures n'[i] == n[i].(queue := n[i].queue + if i in z.t[z.ch[z.Top()]] then [Start(z.cl[z.Top()])] else [])
  {
    TopSends(z, n, n', e, y, i);
  }

  lemma TopSends(z: Case, n: Net, n': Net, e: Effect, y: Sub, i: SubId)
    requires z.Valid() && |n| == |z.t| && i < |z.t| && i != z.ch[z.Top()]
    requires e.downs == [SubsystemModel.Down(AdminOnline, z.cl[z.Top()])]
    requires n' == Deliver(z.t, n, z.ch[z.Top()], e, y.queue, y.events)
    ensures n'[i] == n[i].(queue := n[i].queue + if i in z.t[z.ch[z.Top()]] then [Start(z.cl[z.Top()])] else [])
  {
    SentQueues(z.t, n, n', z.ch[z.Top()], e, y.queue, y.events, i);
    var top := |z.ch| - 1;
    StartSent(e.downs, z.cl[top]);
    ParentIs(z, top, i);
  }

  lemma TurnsOther(z: Case, n: Net, n': Net, a: Action, e: Effect, y: Sub, x: SubId)
    requires z.Valid() && |n| == |z.t| && Turns(z, n, n', a, e, y) && x < |z.t| && x !in z.ch
    ensures Stays(z, n', x)
  {
    assert Resting(n[x], z.w[x]);
    TurnsQueues(z, n, n', a, e, y, x);
    var top := z.Top();
    forall i: nat | i < |z.ch| && x in z.t[z.ch[i]] ensures Kid(n'[x], n'[z.ch[i]], x, z.cl[i]) {
      assert z.w[x] != {};
      if i != top {
        assert Stands(z, n[z.ch[i]], i, top);
        Apart(z, i, top);
        TurnsQueues(z, n, n', a, e, y, z.ch[i]);
      }
    }
  }

  lemma TurnsNode(z: Case, n: Net, n': Net, a: Action, e: Effect, y: Sub, i: nat)
    requires z.Valid() && |n| == |z.t| && Turns(z, n, n', a, e, y) && i < |z.ch|
    ensures Climbs(z, n'[z.ch[i]], i)
    ensures i < z.Top() ==>
      Rests(n'[z.ch[i]].l) && n'[z.ch[i]].queue == if i == z.Top() - 1 then [Start(z.cl[z.Top()])] else []
  {
    var top := z.Top();
    if i != top {
      assert Stands(z, n[z.ch[i]], i, top);
      Apart(z, i, top);
      TurnsQueues(z, n, n', a, e, y, z.ch[i]);
      NodeUnread(z, n[z.ch[i]], n'[z.ch[i]], i);
      NextInChain(z, i, top);
    }
  }

  /** Nobody below the top has been told but the next one. */
  lemma RestLinked(x: Sub, y: Sub, d: SubId, c: ClientId)
    requires Rests(x.l) && forall m | m in y.queue :: m.ChangeAdmin?
    requires (Rests(y.l) && x.queue == []) || (IsScheduled(y.l, StartingChildren) && y.l.oper == StartingChildren && x.queue == [Start(c)])
    ensures Told(x, y, c) && Knows(x, y, d)
  {
    assert multiset([Start(c)])[Start(c)] == 1;
    assert forall i | 0 <= i < |y.queue| :: y.queue[i] in y.queue;
  }

  lemma TurnsTop(z: Case, n: Net, n': Net, a: Action, e: Effect, y: Sub)
    requires z.Valid() && |n| == |z.t| && Turns(z, n, n', a, e, y)
    ensures n'[z.ch[z.Top()]].queue == []
    ensures IsScheduled(n'[z.ch[z.Top()]].l, StartingChildren) && n'[z.ch[z.Top()]].l.oper == StartingChildren
  {
  }

  lemma TurnsLinked(z: Case, n: Net, n': Net, a: Action, e: Effect, y: Sub, i: nat)
    requires z.Valid() && |n| == |z.t| && Turns(z, n, n', a, e, y) && i < z.Top()
    ensures Linked(z, n', i)
  {
    TurnsNode(z, n, n', a, e, y, i);
    TurnsNode(z, n, n', a, e, y, i + 1);
    TurnsTop(z, n, n', a, e, y);
    RestLinked(n'[z.ch[i]], n'[z.ch[i+1]], z.ch[i], z.cl[i+1]);
    LinkedIs(z, n', i, n'[z.ch[i]], n'[z.ch[i+1]]);
  }

  lemma TurnsUp(z: Case, n: Net, n': Net, a: Action, e: Effect, y: Sub)
    requires z.Valid() && |n| == |z.t| && Turns(z, n, n', a, e, y)
    ensures GoingUp(z, n')
  {
    forall x: SubId | x < |z.t| && x !in z.ch ensures Stays(z, n', x) {
      TurnsOther(z, n, n', a, e, y, x);
    }
    forall i: nat | i < |z.ch| ensures Climbs(z, n'[z.ch[i]], i) {
      TurnsNode(z, n, n', a, e, y, i);
    }
    forall i: nat | i < z.Top() ensures Linked(z, n', i) {
      TurnsLinked(z, n, n', a, e, y, i);
    }
  }

  // ---------------------------------------------------------------- a step outside the chain

  /** One that is up answers a start, one that is down relays every report, and nobody changes its state. */
  ghost predicate Hears(x: Sub, m: Message, e: Effect, who: set<nat>, gains: set<ClientId>) {
    && Other(Sub(e.l, x.queue, multiset{}), who, gains) && e.downs == []
    && e.ups == (if who == {} then [Offline] else if m.ChangeAdmin? then [Online] else [])
    && (forall c | c in x.l.clients.members :: c in e.l.clients.members)
    && (m.ChangeAdmin? && m.client != NO_CLIENT ==> e.l.clients.Contains(m.client))
    && Economical(UpRank, x.l, Msg(m), e)
  }

  lemma UpHears(x: Sub, nb: Neighbours, m: Message, who: set<nat>, gains: set<ClientId>, c: ClientId)
    requires Other(x, who, gains) && who != {} && (c < 64 || c == NO_CLIENT) && (c != NO_CLIENT ==> c in gains)
    requires (m.ReportOper? && (m.oper == Online || m.oper == Offline)) || m == Start(c)
    ensures Hears(x, m, TakeMessage(x.l, 0, nb, m), who, gains)
  {
    var d := if c == NO_CLIENT then 0 else c;
    StartCascade.HoldingHears(x.l, nb, d, m);
    var e := TakeMessage(x.l, 0, nb, m);
    assert e.l.clients.members == if m.ChangeAdmin? && m.client == d then x.l.clients.members + {d} else x.l.clients.members;
    UpKeeps(x, m, e, who, gains, c);
  }

  lemma UpKeeps(x: Sub, m: Message, e: Effect, who: set<nat>, gains: set<ClientId>, c: ClientId)
    requires Other(x, who, gains) && who != {} && (c != NO_CLIENT ==> c in gains)
    requires m.ReportOper? || m == Start(c)
    requires var t := x.l.coros[0];
      && e.l == x.l.(coros := [if m.ChangeAdmin? then t.(client := m.client, next := Online) else t], clients := e.l.clients)
      && e.ups == (if m.ChangeAdmin? then [Online] else []) && e.downs == []
    requires e.l.clients.members
          == if m.ChangeAdmin? && c != NO_CLIENT then x.l.clients.members + {c} else x.l.clients.members
    ensures Hears(x, m, e, who, gains)
  {
  }

  lemma DownHears(x: Sub, nb: Neighbours, m: Message, gains: set<ClientId>)
    requires Other(x, {}, gains) && m.ReportOper? && (m.oper == Online || m.oper == Offline)
    ensures Hears(x, m, TakeMessage(x.l, 0, nb, m), {}, gains)
  {
    assert TakeMessage(x.l, 0, nb, m) == Effect(x.l, [Offline], []);
  }

  lemma OtherHears(z: Case, n: Net, a: Action)
    requires z.Valid() && |n| == |z.t| && GoingUp(z, n) && Enabled(n, a) && Lone.RestartAction(n[a.s], a)
    requires a.s !in z.ch
    ensures a.DoMessage? && a.k == 0 && n[a.s].queue != []
    ensures Hears(n[a.s], n[a.s].queue[0], EffectOf(z.t, n, a), z.w[a.s], z.Callers(a.s))
  {
    var s, x, nb := a.s, n[a.s], View(z.t, n, a.s);
    assert Stays(z, n, s);
    assert a.DoMessage? && a.k == 0;
    var m := x.queue[0];
    assert MeantOther(z, s, m);
    if m.ChangeAdmin? {
      var i :| 0 <= i < |z.ch| && s in z.t[z.ch[i]] && m == Start(z.cl[i]);
      UpHears(x, nb, m, z.w[s], z.Callers(s), z.cl[i]);
    } else if z.w[s] == {} {
      DownHears(x, nb, m, z.Callers(s));
    } else {
      UpHears(x, nb, m, z.w[s], z.Callers(s), NO_CLIENT);
    }
  }

  /** Subsystem s outside the chain has read a message. */
  ghost predicate Read(z: Case, n: Net, n': Net, s: SubId, e: Effect)
    requires z.Valid() && |n| == |z.t|
  {
    && GoingUp(z, n) && s < |z.t| && s !in z.ch && n[s].queue != []
    && Hears(n[s], n[s].queue[0], e, z.w[s], z.Callers(s))
    && n' == Deliver(z.t, n, s, e, n[s].queue[1..], multiset{})
  }

  lemma ReadQueues(z: Case, n: Net, n': Net, s: SubId, e: Effect, i: SubId)
    requires z.Valid() && |n| == |z.t| && Read(z, n, n', s, e) && i < |z.t| && i != s
    ensures n'[i] == n[i].(queue := n[i].queue + if s in z.t[i] then Reports(s, e.ups) else [])
  {
    SentQueues(z.t, n, n', s, e, n[s].queue[1..], multiset{}, i);
    assert Commands(e.downs) == [];
    assert i in z.t[s] ==> s !in z.t[i];
  }

  lemma ReadStays(z: Case, n: Net, n': Net, s: SubId, e: Effect, x: SubId)
    requires z.Valid() && |n| == |z.t| && Read(z, n, n', s, e) && x < |z.t| && x !in z.ch
    ensures Stays(z, n', x)
  {
    assert Stays(z, n, x) && Stays(z, n, s);
    if x != s {
      ReadQueues(z, n, n', s, e, x);
    }
    forall i: nat | i < |z.ch| && x in z.t[z.ch[i]] ensures Kid(n'[x], n'[z.ch[i]], x, z.cl[i]) {
      ReadKid(z, n, n', s, e, x, i);
    }
    forall m | m in n'[x].queue ensures MeantOther(z, x, m) {
      if m !in n[x].queue {
        assert m in Reports(s, e.ups);
      }
    }
  }

  lemma ReadKid(z: Case, n: Net, n': Net, s: SubId, e: Effect, x: SubId, i: nat)
    requires z.Valid() && |n| == |z.t| && Read(z, n, n', s, e) && x < |z.t| && x !in z.ch && i < |z.ch|
    requires x in z.t[z.ch[i]]
    ensures Kid(n'[x], n'[z.ch[i]], x, z.cl[i])
  {
    var y := z.ch[i];
    assert Stays(z, n, x) && Kid(n[x], n[y], x, z.cl[i]);
    ReadQueues(z, n, n', s, e, y);
    if x == s {
      assert z.w[x] != {};
      KidReads(n[x], n'[x], n[y], n'[y], x, z.cl[i], e.ups);
    } else {
      ReadQueues(z, n, n', s, e, x);
      KidGets(n[x], n'[x], n[y], n'[y], x, z.cl[i], if s in z.t[x] then Reports(s, e.ups) else [],
              if s in z.t[y] then Reports(s, e.ups) else []);
    }
  }

  lemma ReadClimbs(z: Case, n: Net, n': Net, s: SubId, e: Effect, i: nat)
    requires z.Valid() && |n| == |z.t| && Read(z, n, n', s, e) && i < |z.ch|
    ensures Climbs(z, n'[z.ch[i]], i)
  {
    var y := z.ch[i];
    assert Climbs(z, n[y], i);
    ReadQueues(z, n, n', s, e, y);
    NodeUnread(z, n[y], n'[y], i);
    forall m | m in n'[y].queue ensures MeantNode(z, i, m) {
      if m !in n[y].queue {
        assert s in z.t[y] && m in Reports(s, e.ups) && z.w[s] != {};
      }
    }
  }

  lemma ReadLinked(z: Case, n: Net, n': Net, s: SubId, e: Effect, i: nat)
    requires z.Valid() && |n| == |z.t| && Read(z, n, n', s, e) && i < z.Top()
    ensures Linked(z, n', i)
  {
    var x, y := z.ch[i], z.ch[i+1];
    assert Linked(z, n, i);
    ReadQueues(z, n, n', s, e, x);
    ReadQueues(z, n, n', s, e, y);
    var xs := if s in z.t[x] then e.ups else [];
    var ys := if s in z.t[y] then e.ups else [];
    NoReports(n[x].queue, s);
    NoReports(n[y].queue, s);
    ToldGets(n[x], n[y], z.cl[i+1], s, xs, Reports(s, ys));
    KnowsGets(n[x], n'[x], n[y], x, s, ys);
  }

  lemma NoReports(q: seq<Message>, s: SubId)
    ensures q + Reports(s, []) == q && Reports(s, []) == []
  {
  }

  lemma ReadUp(z: Case, n: Net, n': Net, s: SubId, e: Effect)
    requires z.Valid() && |n| == |z.t| && Read(z, n, n', s, e)
    ensures GoingUp(z, n')
  {
    forall x: SubId | x < |z.t| && x !in z.ch ensures Stays(z, n', x) {
      ReadStays(z, n, n', s, e, x);
    }
    forall i: nat | i < |z.ch| ensures Climbs(z, n'[z.ch[i]], i) {
      ReadClimbs(z, n, n', s, e, i);
    }
    forall i: nat | i < z.Top() ensures Linked(z, n', i) {
      ReadLinked(z, n, n', s, e, i);
    }
  }

  // ---------------------------------------------------------------- a step of a node

  /** A node reads nothing that it cannot hear. */
  lemma NodeHearable(z: Case, n: Net, i: nat, m: Message)
    requires z.Valid() && |n| == |z.t| && GoingUp(z, n) && i < |z.ch| && m in n[z.ch[i]].queue
    ensures Hearable(n[z.ch[i]].l, m)
    ensures m.ChangeAdmin? ==> i < z.Top() && m == Start(z.cl[i+1]) && Rests(n[z.ch[i]].l)
  {
    assert Climbs(z, n[z.ch[i]], i) && MeantNode(z, i, m);
    if m.ChangeAdmin? {
      assert Linked(z, n, i);
      OnlyToldAtRest(n[z.ch[i]], n[z.ch[i+1]], z.cl[i+1]);
    } else if m.oper == Restarting {
      assert Linked(z, n, i - 1);
      NoLateRestart(n[z.ch[i-1]], n[z.ch[i]], z.ch[i-1]);
    }
  }

  lemma ChildInChain(z: Case, i: nat, d: SubId)
    requires z.Valid() && i < |z.ch| && d in z.t[z.ch[i]] && d in z.ch
    ensures i > 0 && d == z.ch[i-1]
  {
    var k: nat :| k < |z.ch| && z.ch[k] == d;
    ParentIs(z, k, z.ch[i]);
    if k + 1 != i {
      Apart(z, k + 1, i);
    }
  }

  /** Whichever child has been heard of is Online. */
  lemma HeardIsOnline(z: Case, n: Net, i: nat, d: SubId, input: Input)
    requires z.Valid() && |n| == |z.t| && GoingUp(z, n) && i < |z.ch| && d in z.t[z.ch[i]]
    requires input.Msg? ==> input.m in n[z.ch[i]].queue
    requires d in Noted(n[z.ch[i]].l) + HeardNow(input)
    ensures n[d].l.oper == Online
  {
    if d !in z.ch {
      assert Stays(z, n, d) && z.w[d] != {};
    } else {
      ChildInChain(z, i, d);
      assert Linked(z, n, i - 1);
    }
  }

  /** What node i makes of its step on the way up. */
  ghost predicate Came(z: Case, x: Sub, i: nat, input: Input, e: Effect, y: Sub)
    requires z.Valid() && i < |z.ch|
  {
    && Comes(x.l, input, z.t[z.ch[i]], e, z.cl[i]) && (i > 0 && e.downs != [] ==> Rests(x.l))
    && Node(z, y, i) && (i == 0 ==> !StruckSteps.Sinking(y.l, z.count)) && y.l == e.l
    && Consumes(x, input, y.queue, y.events)
  }

  lemma NodeComes(z: Case, n: Net, i: nat, a: Action)
    requires z.Valid() && |n| == |z.t| && GoingUp(z, n) && i < |z.ch|
    requires Enabled(n, a) && Lone.RestartAction(n[a.s], a) && a.s == z.ch[i] && ByCoroutine(a)
    ensures Came(z, n[a.s], i, InputOf(n[a.s], a), EffectOf(z.t, n, a), After(n[a.s], View(z.t, n, a.s), a))
  {
    var x, nb := n[a.s], View(z.t, n, a.s);
    assert Climbs(z, x, i);
    SeesAbove(z, n, i);
    if a.DoMessage? {
      NodeHearable(z, n, i, x.queue[0]);
    }
    forall d | d in z.t[a.s] && z.t[a.s] <= Noted(x.l) + HeardNow(InputOf(x, a)) ensures n[d].l.oper == Online {
      HeardIsOnline(z, n, i, d, InputOf(x, a));
    }
    assert nb.children.Keys <= Noted(x.l) + HeardNow(InputOf(x, a)) ==> nb.ChildrenOnline();
    StepComes(z, x, nb, i, a);
  }

  lemma StepComes(z: Case, x: Sub, nb: Neighbours, i: nat, a: Action)
    requires z.Valid() && i < |z.ch| && Climbs(z, x, i) && EnabledAt(x, a) && Lone.RestartAction(x, a) && ByCoroutine(a)
    requires a.DoMessage? ==> Hearable(x.l, x.queue[0])
    requires nb.children.Keys == z.t[z.ch[i]] && (nb.parents.Keys == {} <==> i == z.Top())
    requires nb.children.Keys <= Noted(x.l) + HeardNow(InputOf(x, a)) ==> nb.ChildrenOnline()
    ensures Came(z, x, i, InputOf(x, a), Turn(x, nb, a), After(x, nb, a))
  {
    if i == 0 {
      StruckSteps.StruckRises(x, nb, a, z.p, z.cl[0], z.count);
      Lone.SharedAlike(x.l, Turn(x, nb, a).l, z.p);
    } else {
      FollowerSteps.FollowerRises(x, nb, a, z.cl[i]);
    }
    KeepsClients(x, Turn(x, nb, a), After(x, nb, a), z.w[z.ch[i]]);
  }

  lemma KeepsClients(x: Sub, e: Effect, y: Sub, who: set<nat>)
    requires e.l.clients == x.l.clients && y.l == e.l && x.l.clients.members == who
    ensures y.l.clients.members == who
  {
  }

  /** Node i has taken a step. */
  ghost predicate Moved(z: Case, n: Net, n': Net, i: nat, input: Input, e: Effect, y: Sub)
    requires z.Valid() && |n| == |z.t|
  {
    && i < |z.ch| && GoingUp(z, n) && Came(z, n[z.ch[i]], i, input, e, y)
    && (input.Msg? ==> input.m in n[z.ch[i]].queue)
    && n' == Deliver(z.t, n, z.ch[i], e, y.queue, y.events)
  }

  lemma MovedOthers(z: Case, n: Net, n': Net, i: nat, input: Input, e: Effect, y: Sub, x: SubId)
    requires z.Valid() && |n| == |z.t| && Moved(z, n, n', i, input, e, y) && x < |z.t| && x != z.ch[i]
    ensures n'[x] == n[x].(queue := n[x].queue + if x in z.t[z.ch[i]] then Commands(e.downs)
                                                else if i < z.Top() && x == z.ch[i+1] then Reports(z.ch[i], e.ups) else [])
  {
    SentQueues(z.t, n, n', z.ch[i], e, y.queue, y.events, x);
    ParentIs(z, i, x);
  }

  /** What node k gets when node i takes a step. */
  function Gets(z: Case, i: nat, e: Effect, k: nat): seq<Message>
    requires i < |z.ch|
  {
    if k + 1 == i then Commands(e.downs) else if k == i + 1 then Reports(z.ch[i], e.ups) else []
  }

  lemma MovedNode(z: Case, n: Net, n': Net, i: nat, input: Input, e: Effect, y: Sub, k: nat)
    requires z.Valid() && |n| == |z.t| && Moved(z, n, n', i, input, e, y) && k < |z.ch| && k != i
    ensures n'[z.ch[k]] == n[z.ch[k]].(queue := n[z.ch[k]].queue + Gets(z, i, e, k))
  {
    Apart(z, k, i);
    MovedOthers(z, n, n', i, input, e, y, z.ch[k]);
    NextInChain(z, k, i);
    if i < z.Top() && k != i + 1 {
      Apart(z, k, i + 1);
    }
  }

  lemma NextInChain(z: Case, k: nat, i: nat)
    requires z.Valid() && k < |z.ch| && i < |z.ch|
    ensures z.ch[k] in z.t[z.ch[i]] <==> k + 1 == i
  {
    ParentIs(z, k, z.ch[i]);
    if k + 1 < |z.ch| && k + 1 != i {
      Apart(z, k + 1, i);
    }
  }

  lemma MovedClimbs(z: Case, n: Net, n': Net, i: nat, input: Input, e: Effect, y: Sub, k: nat)
    requires z.Valid() && |n| == |z.t| && Moved(z, n, n', i, input, e, y) && k < |z.ch|
    ensures Climbs(z, n'[z.ch[k]], k)
  {
    assert Climbs(z, n[z.ch[k]], k);
    if k == i {
      assert n'[z.ch[k]] == y && forall m | m in y.queue :: m in n[z.ch[k]].queue;
    } else {
      MovedNode(z, n, n', i, input, e, y, k);
      NodeUnread(z, n[z.ch[k]], n'[z.ch[k]], k);
      forall m | m in Gets(z, i, e, k) ensures MeantNode(z, k, m) {
        GotMeant(z, i, e, k, m);
      }
    }
  }

  lemma GotMeant(z: Case, i: nat, e: Effect, k: nat, m: Message)
    requires z.Valid() && i < |z.ch| && k < |z.ch| && m in Gets(z, i, e, k)
    requires e.downs == [] || e.downs == [SubsystemModel.Down(AdminOnline, z.cl[i])]
    requires forall u | u in e.ups :: OnTheWay(u)
    ensures MeantNode(z, k, m)
  {
    if k + 1 == i {
      assert m == Start(z.cl[i]);
    } else {
      var j :| 0 <= j < |e.ups| && m == ReportOper(z.ch[i], e.ups[j]);
      assert e.ups[j] in e.ups;
    }
  }

  /** The node that took the step and its child in the chain. */
  lemma MovedBelow(z: Case, n: Net, n': Net, i: nat, input: Input, e: Effect, y: Sub)
    requires z.Valid() && |n| == |z.t| && Moved(z, n, n', i, input, e, y) && i > 0
    ensures Linked(z, n', i - 1)
  {
    assert Linked(z, n, i - 1) && Climbs(z, n[z.ch[i]], i);
    MovedNode(z, n, n', i, input, e, y, i - 1);
    NextInChain(z, i - 1, i);
    StepBelow(n[z.ch[i-1]], n[z.ch[i]], y, input, z.t[z.ch[i]], e, z.ch[i-1], z.cl[i]);
  }

  lemma StepBelow(x: Sub, y: Sub, y': Sub, input: Input, children: set<SubId>, e: Effect, d: SubId, c: ClientId)
    requires Told(x, y, c) && Knows(x, y, d) && Comes(y.l, input, children, e, c) && (e.downs != [] ==> Rests(y.l))
    requires y'.l == e.l && Consumes(y, input, y'.queue, y'.events) && d in children && Rising(y.l)
    ensures var x' := x.(queue := x.queue + Commands(e.downs)); Told(x', y', c) && Knows(x', y', d)
  {
    var x' := x.(queue := x.queue + Commands(e.downs));
    ToldByParent(x, y, y', input, children, e, c);
    KnowsByParent(x, y, y', input, children, e, d, c);
    assert y'.queue + [] == y'.queue;
    KnowsAlike(x, x', y', y', d, []);
  }

  lemma LinkedIs(z: Case, n: Net, i: nat, x: Sub, y: Sub)
    requires z.Valid() && |n| == |z.t| && i < z.Top() && n[z.ch[i]] == x && n[z.ch[i+1]] == y
    ensures Linked(z, n, i) <==> Told(x, y, z.cl[i+1]) && Knows(x, y, z.ch[i])
  {
  }

  /** What a node reads, it can hear. */
  lemma MovedReads(z: Case, n: Net, n': Net, i: nat, input: Input, e: Effect, y: Sub)
    requires z.Valid() && |n| == |z.t| && Moved(z, n, n', i, input, e, y) && i < z.Top()
    ensures Linked(z, n, i)
    ensures input.Msg? && input.m.ChangeAdmin? ==> input.m == Start(z.cl[i+1]) && Rests(n[z.ch[i]].l)
  {
    assert Linked(z, n, i);
    if input.Msg? {
      NodeHearable(z, n, i, input.m);
    }
  }

  lemma MovedSelf(z: Case, n: Net, n': Net, i: nat, input: Input, e: Effect, y: Sub)
    requires z.Valid() && |n| == |z.t| && Moved(z, n, n', i, input, e, y)
    ensures n'[z.ch[i]] == y && y.l == e.l && Consumes(n[z.ch[i]], input, y.queue, y.events)
    ensures Comes(n[z.ch[i]].l, input, z.t[z.ch[i]], e, z.cl[i])
  {
  }

  /** The node that took the step and the next one. */
  lemma MovedAbove(z: Case, n: Net, n': Net, i: nat, input: Input, e: Effect, y: Sub)
    requires z.Valid() && |n| == |z.t| && Moved(z, n, n', i, input, e, y) && i < z.Top()
    ensures Linked(z, n', i)
  {
    var x, p := n[z.ch[i]], n[z.ch[i+1]];
    MovedReads(z, n, n', i, input, e, y);
    MovedSelf(z, n, n', i, input, e, y);
    MovedNode(z, n, n', i, input, e, y, i + 1);
    LinkedIs(z, n, i, x, p);
    StepAbove(x, p, y, input, z.t[z.ch[i]], e, z.ch[i], z.cl[i], z.cl[i+1]);
    LinkedIs(z, n', i, y, n'[z.ch[i+1]]);
  }

  lemma StepAbove(x: Sub, y: Sub, x': Sub, input: Input, children: set<SubId>, e: Effect, d: SubId, b: ClientId,
                  c: ClientId)
    requires Told(x, y, c) && Knows(x, y, d) && Comes(x.l, input, children, e, b)
    requires x'.l == e.l && Consumes(x, input, x'.queue, x'.events)
    requires input.Msg? && input.m.ChangeAdmin? ==> input.m == Start(c) && Rests(x.l)
    ensures var y' := y.(queue := y.queue + Reports(d, e.ups)); Told(x', y', c) && Knows(x', y', d)
  {
    ToldByChild(x, x', y, input, children, e, b, c);
    KnowsByChild(x, x', y, input, children, e, d, b);
  }

  lemma GetsOther(z: Case, i: nat, e: Effect, k: nat)
    requires i < |z.ch| && k != i && k + 1 != i
    ensures Gets(z, i, e, k) == Reports(z.ch[i], if k == i + 1 then e.ups else [])
    ensures forall m | m in Gets(z, i, e, k + 1) :: m.ChangeAdmin?
  {
  }

  /** Two other neighbours in the chain. */
  lemma MovedApart(z: Case, n: Net, n': Net, i: nat, input: Input, e: Effect, y: Sub, k: nat)
    requires z.Valid() && |n| == |z.t| && Moved(z, n, n', i, input, e, y) && k < z.Top() && k != i && k + 1 != i
    ensures Linked(z, n', k)
  {
    assert Linked(z, n, k);
    MovedNode(z, n, n', i, input, e, y, k);
    MovedNode(z, n, n', i, input, e, y, k + 1);
    PairKept(z, n, n', i, e, k);
  }

  lemma PairKept(z: Case, n: Net, n': Net, i: nat, e: Effect, k: nat)
    requires z.Valid() && |n| == |n'| == |z.t| && i < |z.ch| && k < z.Top() && k != i && k + 1 != i && Linked(z, n, k)
    requires n'[z.ch[k]] == n[z.ch[k]].(queue := n[z.ch[k]].queue + Gets(z, i, e, k))
    requires n'[z.ch[k+1]] == n[z.ch[k+1]].(queue := n[z.ch[k+1]].queue + Gets(z, i, e, k + 1))
    ensures Linked(z, n', k)
  {
    var x, p := n[z.ch[k]], n[z.ch[k+1]];
    GetsOther(z, i, e, k);
    OthersSend(x, p, z.cl[k+1], z.ch[k], z.ch[i], if k == i + 1 then e.ups else [], Gets(z, i, e, k + 1));
  }

  /** The child gets reports of another, the parent commands. */
  lemma OthersSend(x: Sub, y: Sub, c: ClientId, d: SubId, s: SubId, ups: seq<OperState>, ys: seq<Message>)
    requires Told(x, y, c) && Knows(x, y, d) && forall m | m in ys :: m.ChangeAdmin?
    ensures var x', y' := x.(queue := x.queue + Reports(s, ups)), y.(queue := y.queue + ys);
      Told(x', y', c) && Knows(x', y', d)
  {
    ToldGets(x, y, c, s, ups, ys);
    KnowsAlike(x, x.(queue := x.queue + Reports(s, ups)), y, y.(queue := y.queue + ys), d, ys);
  }

  lemma MovedStays(z: Case, n: Net, n': Net, i: nat, input: Input, e: Effect, y: Sub, x: SubId)
    requires z.Valid() && |n| == |z.t| && Moved(z, n, n', i, input, e, y) && x < |z.t| && x !in z.ch
    ensures Stays(z, n', x)
  {
    assert Stays(z, n, x);
    MovedOthers(z, n, n', i, input, e, y, x);
    var xs := if x in z.t[z.ch[i]] then Commands(e.downs) else [];
    forall k: nat | k < |z.ch| && x in z.t[z.ch[k]] ensures Kid(n'[x], n'[z.ch[k]], x, z.cl[k]) {
      assert Kid(n[x], n[z.ch[k]], x, z.cl[k]);
      if k == i {
        KidTold(n[x], n[z.ch[i]], y, input, z.t[z.ch[i]], e, x, z.cl[i]);
      } else {
        MovedNode(z, n, n', i, input, e, y, k);
        KidGets(n[x], n'[x], n[z.ch[k]], n'[z.ch[k]], x, z.cl[k], xs, Gets(z, i, e, k));
      }
    }
    forall m | m in n'[x].queue ensures MeantOther(z, x, m) {
      if m !in n[x].queue {
        assert m in xs && m == Start(z.cl[i]);
      }
    }
  }

  lemma MovedUp(z: Case, n: Net, n': Net, i: nat, input: Input, e: Effect, y: Sub)
    requires z.Valid() && |n| == |z.t| && Moved(z, n, n', i, input, e, y)
    ensures GoingUp(z, n')
  {
    forall x: SubId | x < |z.t| && x !in z.ch ensures Stays(z, n', x) {
      MovedStays(z, n, n', i, input, e, y, x);
    }
    forall k: nat | k < |z.ch| ensures Climbs(z, n'[z.ch[k]], k) {
      MovedClimbs(z, n, n', i, input, e, y, k);
    }
    forall k: nat | k < z.Top() ensures Linked(z, n', k) {
      MovedLinked(z, n, n', i, input, e, y, k);
    }
  }

  lemma MovedLinked(z: Case, n: Net, n': Net, i: nat, input: Input, e: Effect, y: Sub, k: nat)
    requires z.Valid() && |n| == |z.t| && Moved(z, n, n', i, input, e, y) && k < z.Top()
    ensures Linked(z, n', k)
  {
    if k + 1 == i {
      MovedBelow(z, n, n', i, input, e, y);
    } else if k == i {
      MovedAbove(z, n, n', i, input, e, y);
    } else {
      MovedApart(z, n, n', i, input, e, y, k);
    }
  }

  // ---------------------------------------------------------------- answers of StageZero

  /** An answer changes neither what a node is doing nor what it has to read. */
  ghost predicate Answered(z: Case, x: Sub, y: Sub, i: nat)
    requires z.Valid() && i < |z.ch|
  {
    && Node(z, y, i) && y.queue == x.queue && y.l.coros == x.l.coros && y.l.oper == x.l.oper && y.l.clients == x.l.clients
    && y.l.numRestarts == x.l.numRestarts && |y.l.procs| == |x.l.procs|
    && (forall q | 0 <= q < |x.l.procs| :: y.l.procs[q] == x.l.procs[q])
  }

  lemma NodeAnswered(z: Case, x: Sub, i: nat, a: Action)
    requires z.Valid() && i < |z.ch| && Node(z, x, i) && EnabledAt(x, a) && Lone.RestartAction(x, a) && !ByCoroutine(a)
    ensures Answered(z, x, Surround(x, a), i)
  {
    StruckSteps.AnswerSame(x, a);
    if i == 0 {
      StruckSteps.StruckAnswered(x, a, z.p, z.cl[0], z.count);
      Lone.SharedAlike(x.l, Surround(x, a).l, z.p);
    } else {
      FollowerSteps.FollowerAnswered(x, a, z.cl[i]);
    }
  }

  lemma AnsweredAlike(z: Case, x: Sub, y: Sub, i: nat)
    requires z.Valid() && i < |z.ch| && Answered(z, x, y, i)
    ensures Rests(y.l) == Rests(x.l) && Awaits(y.l) == Awaits(x.l) && Noted(y.l) == Noted(x.l)
    ensures Rising(y.l) == Rising(x.l) && IsLive(y.l, Online) == IsLive(x.l, Online)
    ensures Sinking(z, y, i) == Sinking(z, x, i)
    ensures DownRank(y.l) == DownRank(x.l) && UpRank(y.l) == UpRank(x.l)
  {
    assert y.l.AllStopped() == x.l.AllStopped();
  }

  lemma AnsweredDown(z: Case, n: Net, j: nat, y: Sub)
    requires z.Valid() && |n| == |z.t| && GoingDown(z, n, j) && Answered(z, n[z.ch[j]], y, j)
    ensures GoingDown(z, n[z.ch[j] := y], j)
  {
    AnsweredAlike(z, n[z.ch[j]], y, j);
    var n' := n[z.ch[j] := y];
    forall i: nat | i < |z.ch| ensures Stands(z, n'[z.ch[i]], i, j) {
      assert Stands(z, n[z.ch[i]], i, j);
      if i != j {
        Apart(z, i, j);
      }
    }
  }

  /** The nodes, when node i has got an answer. */
  lemma AnsweredNode(z: Case, n: Net, i: nat, y: Sub, k: nat)
    requires z.Valid() && |n| == |z.t| && GoingUp(z, n) && i < |z.ch| && k < |z.ch| && Answered(z, n[z.ch[i]], y, i)
    ensures Climbs(z, n[z.ch[i] := y][z.ch[k]], k)
    ensures n[z.ch[i] := y][z.ch[k]] == if k == i then y else n[z.ch[k]]
  {
    assert Climbs(z, n[z.ch[k]], k);
    AnsweredAlike(z, n[z.ch[i]], y, i);
    if k != i {
      Apart(z, k, i);
    }
  }

  lemma AnsweredLinked(z: Case, n: Net, i: nat, y: Sub, k: nat)
    requires z.Valid() && |n| == |z.t| && GoingUp(z, n) && i < |z.ch| && k < z.Top() && Answered(z, n[z.ch[i]], y, i)
    ensures Linked(z, n[z.ch[i] := y], k)
  {
    assert Linked(z, n, k);
    AnsweredNode(z, n, i, y, k);
    AnsweredNode(z, n, i, y, k + 1);
    AnsweredAlike(z, n[z.ch[i]], y, i);
  }

  lemma AnsweredUp(z: Case, n: Net, i: nat, y: Sub)
    requires z.Valid() && |n| == |z.t| && GoingUp(z, n) && i < |z.ch| && Answered(z, n[z.ch[i]], y, i)
    ensures GoingUp(z, n[z.ch[i] := y])
  {
    var n' := n[z.ch[i] := y];
    forall x: SubId | x < |z.t| && x !in z.ch ensures Stays(z, n', x) {
      AnsweredStays(z, n, i, y, x);
    }
    forall k: nat | k < |z.ch| ensures Climbs(z, n'[z.ch[k]], k) {
      AnsweredNode(z, n, i, y, k);
    }
    forall k: nat | k < z.Top() ensures Linked(z, n', k) {
      AnsweredLinked(z, n, i, y, k);
    }
  }

  lemma AnsweredStays(z: Case, n: Net, i: nat, y: Sub, x: SubId)
    requires z.Valid() && |n| == |z.t| && GoingUp(z, n) && i < |z.ch| && Answered(z, n[z.ch[i]], y, i)
    requires x < |z.t| && x !in z.ch
    ensures Stays(z, n[z.ch[i] := y], x)
  {
    AnsweredAlike(z, n[z.ch[i]], y, i);
    var n' := n[z.ch[i] := y];
    assert Stays(z, n, x) && n'[x] == n[x];
    forall k: nat | k < |z.ch| && x in z.t[z.ch[k]] ensures Kid(n'[x], n'[z.ch[k]], x, z.cl[k]) {
      assert Kid(n[x], n[z.ch[k]], x, z.cl[k]);
      if k != i {
        Apart(z, k, i);
      }
    }
  }
}
