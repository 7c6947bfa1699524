/**
 An explicit bound on how long a cascade of commands and reports can go on.  A report to
 a subsystem may be relayed to all its parents, a command to all its children and answered
 to all its parents, so both are weighed by what they can still set off in the graph.
 */
module CascadeMeasure {
  import opened States
  import opened ClientBits
  import opened Umbilicals
  import opened SubsystemModel
  import opened Network

  /** u times x, as repeated addition. */
  function Times(u: nat, x: nat): nat {
    if u == 0 then 0 else x + Times(u - 1, x)
  }

  lemma {:induction false} TimesAdd(u: nat, x: nat, y: nat)
    ensures Times(u, x + y) == Times(u, x) + Times(u, y)
  {
    if u > 0 { TimesAdd(u - 1, x, y); }
  }

  lemma {:induction false} TimesGrows(u: nat, v: nat, x: nat)
    requires u < v
    ensures Times(u, x) + x <= Times(v, x)
  {
    if u < v - 1 { TimesGrows(u, v - 1, x); }
  }

  /** What a report to subsystem p can set off: itself and one report to each parent, and so on. */
  function UpCost(t: Topology, p: SubId): nat
    requires p < |t|
    decreases |t| - p, 1
  {
    1 + UpSum(t, p, p + 1)
  }

  /** The cost of one report from s to each of its parents from k on. */
  function UpSum(t: Topology, s: SubId, k: nat): nat
    decreases |t| - k, 2
  {
    if k >= |t| then 0 else (if s in t[k] then UpCost(t, k) else 0) + UpSum(t, s, k + 1)
  }

  /** What a command to subsystem d can set off: an answer upwards and a command to each child. */
  function DownCost(t: Topology, d: SubId): nat
    requires d < |t|
    decreases d, 1
  {
    1 + UpSum(t, d, d + 1) + DownSum(t, d, d)
  }

  /** The cost of one command from s to each of its children below k. */
  function DownSum(t: Topology, s: SubId, k: nat): nat
    requires k <= s < |t|
    decreases k, 0
  {
    if k == 0 then 0 else DownSum(t, s, k - 1) + (if k - 1 in t[s] then DownCost(t, k - 1) else 0)
  }

  function MessageCost(t: Topology, i: SubId, m: Message): nat
    requires i < |t|
  {
    match m
    case ChangeAdmin(_, _) => DownCost(t, i)
    case ReportOper(_, _) => UpCost(t, i)
    case _ => 0
  }

  function QueueCost(t: Topology, i: SubId, q: seq<Message>): nat
    requires i < |t|
  {
    if q == [] then 0 else MessageCost(t, i, q[0]) + QueueCost(t, i, q[1..])
  }

  /** Answers StageZero still owes a subsystem. */
  function Owed(l: Local): nat {
    2 * |l.connectors| + 2 * |l.launched| + 2 * |l.stopRequested|
  }

  /** Enough for whatever entering one more state can set off. */
  function PhaseCost(t: Topology, l: Local, i: SubId): nat
    requires i < |t|
  {
    1 + 2 * UpSum(t, i, i + 1) + DownSum(t, i, i) + 6 * |l.procs|
  }

  /** How many states lie ahead of a subsystem in the cascade considered. */
  type Ranking = Local -> nat

  function NodeCost(t: Topology, x: Sub, i: SubId, rank: Ranking): nat
    requires i < |t|
  {
    Times(rank(x.l), PhaseCost(t, x.l, i)) + QueueCost(t, i, x.queue) + Owed(x.l) + |x.events|
  }

  /** The measure, over the first k subsystems. */
  function Total(t: Topology, n: Net, k: nat, rank: Ranking): nat
    requires |n| == |t| && k <= |t|
  {
    if k == 0 then 0 else Total(t, n, k - 1, rank) + NodeCost(t, n[k-1], k - 1, rank)
  }

  /** What made a coroutine run. */
  datatype Input = Entry | Msg(m: Message) | Ev(v: Event)

  /** A step that can be paid for: by entering a later state, or by the input it consumes. */
  predicate Economical(rank: Ranking, l: Local, input: Input, e: Effect) {
    && |e.l.procs| == |l.procs|
    && ( || (rank(e.l) < rank(l) && |e.ups| <= 2 && |e.downs| <= 1 && Owed(e.l) <= Owed(l) + 6 * |l.procs|)
         || (&& rank(e.l) == rank(l) && Owed(e.l) <= Owed(l)
             && match input
                case Entry => false
                case Msg(ChangeAdmin(_, _)) => |e.ups| <= 1 && |e.downs| <= 1
                case Msg(ReportOper(_, _)) => |e.ups| <= 1 && |e.downs| == 0
                case Msg(_) => false
                case Ev(_) => |e.ups| == 0 && |e.downs| == 0))
  }

  lemma {:induction false} QueueCostConcat(t: Topology, i: SubId, a: seq<Message>, b: seq<Message>)
    requires i < |t|
    ensures QueueCost(t, i, a + b) == QueueCost(t, i, a) + QueueCost(t, i, b)
  {
    if a == [] {
      assert a + b == b;
    } else {
      assert (a + b)[1..] == a[1..] + b;
      QueueCostConcat(t, i, a[1..], b);
    }
  }

  lemma {:induction false} ReportsCost(t: Topology, i: SubId, s: SubId, ups: seq<OperState>)
    requires i < |t|
    ensures QueueCost(t, i, Reports(s, ups)) == Times(|ups|, UpCost(t, i))
  {
    if ups != [] {
      assert Reports(s, ups)[1..] == Reports(s, ups[1..]);
      ReportsCost(t, i, s, ups[1..]);
    }
  }

  lemma {:induction false} CommandsCost(t: Topology, i: SubId, downs: seq<Down>)
    requires i < |t|
    ensures QueueCost(t, i, Commands(downs)) == Times(|downs|, DownCost(t, i))
  {
    if downs != [] {
      assert Commands(downs)[1..] == Commands(downs[1..]);
      CommandsCost(t, i, downs[1..]);
    }
  }

  /** The extra cost neighbour i takes on when s sends `ups` reports and `downs` commands. */
  function Extra(t: Topology, s: SubId, i: SubId, ups: nat, downs: nat): nat
    requires i < |t| && s < |t|
  {
    if i in t[s] then Times(downs, DownCost(t, i))
    else if s in t[i] then Times(ups, UpCost(t, i))
    else 0
  }

  ghost predicate Gains(t: Topology, n: Net, n': Net, s: SubId, i: SubId, ups: nat, downs: nat, rank: Ranking)
    requires |n| == |n'| == |t| && i < |t| && s < |t|
  {
    NodeCost(t, n'[i], i, rank) == NodeCost(t, n[i], i, rank) + Extra(t, s, i, ups, downs)
  }

  lemma ReceivedGains(t: Topology, n: Net, n': Net, s: SubId, i: SubId, e: Effect, rank: Ranking)
    requires |n| == |n'| == |t| && i < |t| && s < |t| && n'[i] == Received(t, n[i], i, s, e)
    ensures Gains(t, n, n', s, i, |e.ups|, |e.downs|, rank)
  {
    var x, y := n[i], n'[i];
    if i in t[s] {
      QueueCostConcat(t, i, x.queue, Commands(e.downs));
      CommandsCost(t, i, e.downs);
    } else if s in t[i] {
      QueueCostConcat(t, i, x.queue, Reports(s, e.ups));
      ReportsCost(t, i, s, e.ups);
    }
  }

  /** Below s only children can gain, above s only parents. */
  lemma {:induction false} TotalBelow(t: Topology, n: Net, n': Net, s: SubId, ups: nat, downs: nat, k: nat,
                                      rank: Ranking)
    requires Registered(t) && |n| == |n'| == |t| && s < |t| && k <= s
    requires forall i | 0 <= i < |t| && i != s :: Gains(t, n, n', s, i, ups, downs, rank)
    ensures Total(t, n', k, rank) == Total(t, n, k, rank) + Times(downs, DownSum(t, s, k))
  {
    if k == 0 {
      assert Times(downs, 0) == 0 by { TimesAdd(downs, 0, 0); }
    } else {
      TotalBelow(t, n, n', s, ups, downs, k - 1, rank);
      assert Gains(t, n, n', s, k - 1, ups, downs, rank);
      var c := if k - 1 in t[s] then DownCost(t, k - 1) else 0;
      TimesAdd(downs, DownSum(t, s, k - 1), c);
      TimesAdd(downs, 0, 0);
      assert s !in t[k-1];
    }
  }

  /** What the subsystems up to k gain, when s has taken a step. */
  ghost predicate GainsUpTo(t: Topology, n: Net, n': Net, s: SubId, ups: nat, downs: nat, k: nat, rank: Ranking)
    requires |n| == |n'| == |t| && s < k <= |t|
  {
    Total(t, n', k, rank) + Times(ups, UpSum(t, s, k)) + NodeCost(t, n[s], s, rank)
      == Total(t, n, k, rank) + Times(ups, UpSum(t, s, s + 1)) + NodeCost(t, n'[s], s, rank)
         + Times(downs, DownSum(t, s, s))
  }

  lemma GainsFirst(t: Topology, n: Net, n': Net, s: SubId, ups: nat, downs: nat, rank: Ranking)
    requires |n| == |n'| == |t| && s < |t|
    requires Total(t, n', s, rank) == Total(t, n, s, rank) + Times(downs, DownSum(t, s, s))
    ensures GainsUpTo(t, n, n', s, ups, downs, s + 1, rank)
  {
    TotalNext(t, n, s, rank);
    TotalNext(t, n', s, rank);
  }

  lemma TotalNext(t: Topology, n: Net, k: nat, rank: Ranking)
    requires |n| == |t| && k < |t|
    ensures Total(t, n, k + 1, rank) == Total(t, n, k, rank) + NodeCost(t, n[k], k, rank)
  {
  }

  lemma GainsOneMore(t: Topology, n: Net, n': Net, s: SubId, ups: nat, downs: nat, k: nat, rank: Ranking)
    requires Registered(t) && |n| == |n'| == |t| && s + 1 < k <= |t|
    requires GainsUpTo(t, n, n', s, ups, downs, k - 1, rank) && Gains(t, n, n', s, k - 1, ups, downs, rank)
    ensures GainsUpTo(t, n, n', s, ups, downs, k, rank)
  {
    var c := if s in t[k-1] then UpCost(t, k - 1) else 0;
    assert UpSum(t, s, k - 1) == c + UpSum(t, s, k);
    TimesAdd(ups, c, UpSum(t, s, k));
    ExtraAbove(t, s, k - 1, ups, downs);
  }

  lemma {:induction false} TotalAbove(t: Topology, n: Net, n': Net, s: SubId, ups: nat, downs: nat, k: nat,
                                      rank: Ranking)
    requires Registered(t) && |n| == |n'| == |t| && s < k <= |t|
    requires forall i | 0 <= i < |t| && i != s :: Gains(t, n, n', s, i, ups, downs, rank)
    ensures GainsUpTo(t, n, n', s, ups, downs, k, rank)
  {
    if k == s + 1 {
      TotalBelow(t, n, n', s, ups, downs, s, rank);
      GainsFirst(t, n, n', s, ups, downs, rank);
    } else {
      TotalAbove(t, n, n', s, ups, downs, k - 1, rank);
      GainsOneMore(t, n, n', s, ups, downs, k, rank);
    }
  }

  lemma ExtraAbove(t: Topology, s: SubId, i: SubId, ups: nat, downs: nat)
    requires Registered(t) && s < i < |t|
    ensures Extra(t, s, i, ups, downs) == Times(ups, if s in t[i] then UpCost(t, i) else 0)
  {
    assert i !in t[s];
    TimesAdd(ups, 0, 0);
  }

  /** What is left of the queue and the events once the input is consumed. */
  ghost predicate Consumes(x: Sub, input: Input, queue: seq<Message>, events: multiset<Event>) {
    match input
    case Entry => queue == x.queue && events == x.events
    case Msg(m) => x.queue != [] && m == x.queue[0] && queue == x.queue[1..] && events == x.events
    case Ev(v) => v in x.events && queue == x.queue && events == x.events - multiset{v}
  }

  lemma SmallTimes(u: nat, x: nat)
    ensures u == 0 ==> Times(u, x) == 0
    ensures u == 1 ==> Times(u, x) == x
    ensures u == 2 ==> Times(u, x) == 2 * x
  {
    if u == 2 {
      assert Times(1, x) == x + Times(0, x);
    }
  }

  /** The acting subsystem pays for everything it sends. */
  lemma ActorPays(t: Topology, x: Sub, s: SubId, input: Input, e: Effect, queue: seq<Message>,
                  events: multiset<Event>, rank: Ranking)
    requires s < |t| && Economical(rank, x.l, input, e) && Consumes(x, input, queue, events)
    ensures NodeCost(t, Sub(e.l, queue, events), s, rank)
            + Times(|e.ups|, UpSum(t, s, s + 1)) + Times(|e.downs|, DownSum(t, s, s)) < NodeCost(t, x, s, rank)
  {
    var up, down := UpSum(t, s, s + 1), DownSum(t, s, s);
    var phase := PhaseCost(t, x.l, s);
    assert phase == PhaseCost(t, e.l, s);
    if rank(e.l) < rank(x.l) {
      TimesGrows(rank(e.l), rank(x.l), phase);
    }
    SmallTimes(|e.ups|, up);
    SmallTimes(|e.downs|, down);
  }

  /** Every economical step of a coroutine lowers the measure. */
  lemma CoroutineLowers(t: Topology, n: Net, s: SubId, input: Input, e: Effect, queue: seq<Message>,
                        events: multiset<Event>, rank: Ranking)
    requires Registered(t) && |n| == |t| && s < |n|
    requires Economical(rank, n[s].l, input, e) && Consumes(n[s], input, queue, events)
    ensures Total(t, Deliver(t, n, s, e, queue, events), |t|, rank) < Total(t, n, |t|, rank)
  {
    var n' := Deliver(t, n, s, e, queue, events);
    forall i | 0 <= i < |t| && i != s ensures Gains(t, n, n', s, i, |e.ups|, |e.downs|, rank) {
      ReceivedGains(t, n, n', s, i, e, rank);
    }
    TotalAbove(t, n, n', s, |e.ups|, |e.downs|, |t|, rank);
    ActorPays(t, n[s], s, input, e, queue, events, rank);
  }

  /** A change of one subsystem alone changes the measure by as much. */
  lemma {:induction false} TotalLocal(t: Topology, n: Net, s: SubId, y: Sub, k: nat, rank: Ranking)
    requires |n| == |t| && s < |t| && k <= |t|
    ensures Total(t, n[s := y], k, rank) + (if s < k then NodeCost(t, n[s], s, rank) else 0)
         == Total(t, n, k, rank) + (if s < k then NodeCost(t, y, s, rank) else 0)
  {
    if k > 0 {
      TotalLocal(t, n, s, y, k - 1, rank);
    }
  }

  /** An answer of StageZero becomes one event, which is worth less than what was owed. */
  lemma AnswerLowers(t: Topology, n: Net, s: SubId, y: Sub, rank: Ranking)
    requires |n| == |t| && s < |n| && rank(y.l) == rank(n[s].l)
    requires |y.l.procs| == |n[s].l.procs| && y.queue == n[s].queue
    requires |y.events| == |n[s].events| + 1 && Owed(y.l) == Owed(n[s].l) - 2
    ensures Total(t, n[s := y], |t|, rank) < Total(t, n, |t|, rank)
  {
    TotalLocal(t, n, s, y, |t|, rank);
  }

  lemma AnswerOwed(x: Sub, a: Action)
    requires a.LinkUp? ==> a.compute in x.l.connectors && a.compute in x.l.umbilicals
    requires a.ProcStarts? ==> a.p in x.l.launched
    requires a.ProcStops? ==> a.p in x.l.stopRequested
    requires a.LinkUp? || a.ProcStarts? || a.ProcStops?
    ensures var y := Surround(x, a);
            && |y.l.procs| == |x.l.procs| && y.queue == x.queue
            && |y.events| == |x.events| + 1 && Owed(y.l) == Owed(x.l) - 2
  {
    match a
    case LinkUp(_, c) => assert |x.l.connectors - {c}| == |x.l.connectors| - 1;
    case ProcStarts(_, p) => assert |x.l.launched - {p}| == |x.l.launched| - 1;
    case ProcStops(_, p) => assert |x.l.stopRequested - {p}| == |x.l.stopRequested| - 1;
  }

  /** Steps from a set of states into itself, each lowering the size. */
  lemma {:induction false} Descends(ns: seq<Net>, i: nat, good: iset<Net>, size: Net -> int)
    requires i < |ns| && ns[0] in good
    requires forall k {:trigger ns[k]} | 0 <= k < i :: ns[k] in good ==> ns[k+1] in good && size(ns[k+1]) < size(ns[k])
    ensures ns[i] in good && size(ns[i]) + i <= size(ns[0])
  {
    if i > 0 {
      Descends(ns, i - 1, good, size);
      var j := i - 1;
      assert ns[j] in good ==> ns[j+1] in good && size(ns[j+1]) < size(ns[j]);
    }
  }
}
