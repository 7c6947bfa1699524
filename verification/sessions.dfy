/**
 * Whole sessions of any number of clients, each command settled before the next: what a client has asked
 * for is up with all it depends on, and what is left over when nobody asks for it any more.
 */
module Sessions {
  import opened States
  import opened ClientBits
  import opened SubsystemModel
  import opened Network
  import opened Configs
  import opened StartCascade
  import StopCascade
  import ReferenceCounts

  datatype Order = Start(c: ClientId, r: SubId) | Stop(c: ClientId, r: SubId)

  /** Who has each subsystem up once the order has been carried out. */
  ghost function After(t: Topology, w: Config, o: Order): (w': Config)
    requires |w| == |t|
    ensures |w'| == |t|
  {
    match o
    case Start(c, r) => AfterStart(t, w, r, c)
    case Stop(c, r) => StopCascade.AfterStop(t, w, r, c)
  }

  // ---------------------------------------------------------------- orders are carried out

  /** A run that carries out the order, from the moment the client sends it until nothing more can happen. */
  ghost predicate Carries(t: Topology, n: Net, o: Order, ns: seq<Net>, acts: seq<Action>)
    requires Registered(t)
  {
    && |n| == |t| && o.r < |t| && Run(t, ns, acts)
    && ns[0] == Apply(t, n, ClientSends(o.r, ChangeAdmin(if o.Start? then AdminOnline else AdminOffline, o.c)))
    && if o.Start? then StartCascade.Stuck(ns[|acts|]) && forall k | 0 <= k < |acts| :: StartAction(ns[k], acts[k])
       else StopCascade.Stuck(ns[|acts|]) && forall k | 0 <= k < |acts| :: StopCascade.StopAction(ns[k], acts[k])
  }

  lemma SentState(n: Net, m: Net, w: Config, r: SubId, msg: Message)
    requires AllResting(n, w) && r < |n| && m == n[r := n[r].(queue := n[r].queue + [msg])]
    ensures m[r].queue == [msg] && m[r := m[r].(queue := [])] == n
  {
    assert Resting(n[r], w[r]);
    assert [] + [msg] == [msg];
  }

  /** Whatever the interleaving, the order takes one configuration at rest to the next. */
  lemma OrderCarriedOut(t: Topology, n: Net, w: Config, o: Order, ns: seq<Net>, acts: seq<Action>)
    requires Registered(t) && |w| == |t| && o.c < 64 && Carries(t, n, o, ns, acts)
    requires AllResting(n, w) && ReferenceCounts.AllAccounted(n)
    ensures AllResting(ns[|acts|], After(t, w, o)) && ReferenceCounts.AllAccounted(ns[|acts|])
  {
    var msg := ChangeAdmin(if o.Start? then AdminOnline else AdminOffline, o.c);
    SentState(n, ns[0], w, o.r, msg);
    ReferenceCounts.StepAccounted(t, n, ClientSends(o.r, msg));
    ReferenceCounts.ReferencesAlwaysExact(t, ns, acts, |acts|);
    if o.Start? {
      forall i | 0 <= i < |n| ensures Ready(if i == o.r then ns[0][i].(queue := []) else ns[0][i], w[i]) {
        assert Resting(n[i], w[i]);
      }
      StartEnds(t, ns, acts, w, o.r, o.c);
    } else {
      StopCascade.StopEnds(t, ns, acts, w, o.r, o.c);
    }
  }

  // ---------------------------------------------------------------- configurations

  function Nobody(t: Topology): (w: Config)
    ensures |w| == |t| && forall i | 0 <= i < |w| :: w[i] == {}
  {
    seq(|t|, _ => {})
  }

  lemma StartKeepsClosed(t: Topology, w: Config, r: SubId, c: ClientId)
    requires Registered(t) && |w| == |t| && Closed(t, w)
    ensures Closed(t, AfterStart(t, w, r, c))
  {
    var w' := AfterStart(t, w, r, c);
    forall p, d | 0 <= p < |t| && d in t[p] && w'[p] != {} ensures w'[d] != {} {
      if w[p] == {} {
        assert Comes(t, w, r, p) && d < p;
        assert Comes(t, w, r, d);
      }
    }
  }

  lemma StopKeepsClosed(t: Topology, w: Config, r: SubId, c: ClientId)
    requires Registered(t) && |w| == |t| && Closed(t, w)
    ensures Closed(t, StopCascade.AfterStop(t, w, r, c))
  {
    var w' := StopCascade.AfterStop(t, w, r, c);
    forall p, d | 0 <= p < |t| && d in t[p] && w'[p] != {} ensures w'[d] != {} {
      assert w'[p] == StopCascade.Left(t, w, r, c, p) && w[p] != {} && d < p;
      assert w'[d] == StopCascade.Left(t, w, r, c, d) == w[d];
    }
  }

  lemma {:induction false} ReachDown(t: Topology, w: Config, q: SubId, i: SubId)
    requires Registered(t) && |w| == |t| && Closed(t, w) && q < |t| && w[q] != {} && Reach(t, q, i)
    ensures i <= q && w[i] != {}
    decreases |t| - i
  {
    if i != q {
      var p :| i < p < |t| && i in t[p] && Reach(t, q, p);
      ReachDown(t, w, q, p);
    }
  }

  lemma {:induction false} ComesReaches(t: Topology, w: Config, r: SubId, d: SubId)
    requires Registered(t) && |w| == |t|
    ensures Comes(t, w, r, d) ==> Reach(t, r, d)
    ensures Reach(t, r, d) && (forall i | 0 <= i < |w| :: w[i] == {}) ==> Comes(t, w, r, d)
    decreases |t| - d
  {
    forall p | d < p < |t| && d in t[p]
      ensures Comes(t, w, r, p) ==> Reach(t, r, p)
      ensures Reach(t, r, p) && (forall i | 0 <= i < |w| :: w[i] == {}) ==> Comes(t, w, r, p)
    {
      ComesReaches(t, w, r, p);
    }
  }

  /** Started from nothing, exactly r and what it depends on is up. */
  lemma FirstStart(t: Topology, r: SubId, c: ClientId, i: SubId)
    requires Registered(t) && i < |t|
    ensures AfterStart(t, Nobody(t), r, c)[i] == if Reach(t, r, i) then {c} else {}
  {
    ComesReaches(t, Nobody(t), r, i);
  }

  /** What another client holds stays up, with all it depends on, whoever else stops what. */
  lemma OthersStay(t: Topology, w: Config, r: SubId, c: ClientId, q: SubId, d: nat, i: SubId)
    requires Registered(t) && |w| == |t| && Closed(t, w) && q < |t| && d in w[q] && d != c && Reach(t, q, i)
    ensures i < |t| && StopCascade.AfterStop(t, w, r, c)[i] != {}
  {
    var w' := StopCascade.AfterStop(t, w, r, c);
    StopKeepsClosed(t, w, r, c);
    assert w'[q] == StopCascade.Left(t, w, r, c, q) && d in w'[q];
    ReachDown(t, w', q, i);
  }

  // ---------------------------------------------------------------- what has been asked for

  /** Which clients have started each subsystem itself and not stopped it since. */
  function Asked(asked: Config, o: Order): (r: Config)
    ensures |r| == |asked|
  {
    if o.r >= |asked| then asked
    else asked[o.r := if o.Start? then asked[o.r] + {o.c} else asked[o.r] - {o.c}]
  }

  /** Somebody has asked for something that depends on i. */
  ghost predicate Needed(t: Topology, asked: Config, i: SubId)
    requires |asked| == |t|
  {
    exists q :: 0 <= q < |t| && asked[q] != {} && Reach(t, q, i)
  }

  /** A client asks for one subsystem at a time. */
  predicate OneAtATime(asked: Config, o: Order) {
    forall q | 0 <= q < |asked| && q != o.r :: o.c !in asked[q]
  }

  /** Who has asked for something has it. */
  predicate Granted(asked: Config, w: Config) {
    |asked| == |w| && forall q | 0 <= q < |w| :: asked[q] <= w[q]
  }

  lemma StaysGranted(t: Topology, w: Config, asked: Config, o: Order)
    requires Registered(t) && |w| == |t| && Granted(asked, w) && OneAtATime(asked, o)
    ensures Granted(Asked(asked, o), After(t, w, o))
  {
    var asked', w' := Asked(asked, o), After(t, w, o);
    forall q | 0 <= q < |w| ensures asked'[q] <= w'[q] {
      match o {
        case Start(c, r) => assert q == r ==> Comes(t, w, r, q);
        case Stop(c, r) => assert w'[q] == StopCascade.Left(t, w, r, c, q);
      }
    }
  }

  ghost predicate Session(t: Topology, ws: seq<Config>, asked: seq<Config>, os: seq<Order>) {
    && |ws| == |asked| == |os| + 1 && ws[0] == asked[0] == Nobody(t)
    && (forall k | 0 <= k < |ws| :: |ws[k]| == |asked[k]| == |t|)
    && forall k {:trigger os[k]} | 0 <= k < |os| ::
         ws[k+1] == After(t, ws[k], os[k]) && asked[k+1] == Asked(asked[k], os[k]) && OneAtATime(asked[k], os[k])
  }

  lemma {:induction false} SessionKeeps(t: Topology, ws: seq<Config>, asked: seq<Config>, os: seq<Order>, k: nat)
    requires Registered(t) && Session(t, ws, asked, os) && k < |ws|
    ensures Granted(asked[k], ws[k]) && Closed(t, ws[k])
  {
    if k > 0 {
      SessionKeeps(t, ws, asked, os, k - 1);
      var o := os[k-1];
      assert ws[k-1+1] == After(t, ws[k-1], o) && asked[k-1+1] == Asked(asked[k-1], o);
      StaysGranted(t, ws[k-1], asked[k-1], o);
      if o.Start? {
        StartKeepsClosed(t, ws[k-1], o.r, o.c);
      } else {
        StopKeepsClosed(t, ws[k-1], o.r, o.c);
      }
    }
  }

  /** At every point of a session in which each client asks for one thing at a time, all that is needed is up. */
  lemma NeededIsUp(t: Topology, ws: seq<Config>, asked: seq<Config>, os: seq<Order>, k: nat, i: SubId)
    requires Registered(t) && Session(t, ws, asked, os) && k < |ws| && Needed(t, asked[k], i)
    ensures i < |t| && ws[k][i] != {}
  {
    SessionKeeps(t, ws, asked, os, k);
    var q :| 0 <= q < |t| && asked[k][q] != {} && Reach(t, q, i);
    assert asked[k][q] <= ws[k][q];
    ReachDown(t, ws[k], q, i);
  }

  // ---------------------------------------------------------------- what is left over

  /** Exactly what is needed is up. */
  ghost predicate Tight(t: Topology, w: Config, asked: Config)
    requires |w| == |asked| == |t|
  {
    forall i | 0 <= i < |t| :: w[i] != {} <==> Needed(t, asked, i)
  }

  /** Nobody else has what is no longer needed. */
  ghost predicate Exclusive(t: Topology, w: Config, asked: Config, c: ClientId)
    requires |w| == |asked| == |t|
  {
    forall i | 0 <= i < |t| && w[i] != {} && !Needed(t, asked, i) :: w[i] == {c}
  }

  ghost predicate Stopping(t: Topology, w: Config, asked: Config, r: SubId, c: ClientId)
    requires Registered(t)
  {
    && |w| == |asked| == |t| && r < |t| && Closed(t, w) && Granted(asked, w) && Tight(t, w, asked)
    && c in asked[r] && OneAtATime(asked, Stop(c, r))
  }

  lemma NeededBelow(t: Topology, asked: Config, p: SubId, i: SubId)
    requires Registered(t) && |asked| == |t| && i < p < |t| && i in t[p]
    ensures Needed(t, asked, p) ==> Needed(t, asked, i)
  {
    forall q | 0 <= q < |t| && asked[q] != {} && Reach(t, q, p) ensures Reach(t, q, i) {
    }
  }

  /** What only the stopped subsystem needed goes down, from the top. */
  lemma {:induction false} GoesDown(t: Topology, w: Config, asked: Config, r: SubId, c: ClientId, i: SubId)
    requires Registered(t) && Stopping(t, w, asked, r, c) && i < |t| && !Needed(t, Asked(asked, Stop(c, r)), i)
    requires Exclusive(t, w, Asked(asked, Stop(c, r)), c)
    ensures StopCascade.Left(t, w, r, c, i) == {}
    decreases |t| - i
  {
    var asked' := Asked(asked, Stop(c, r));
    if w[i] != {} {
      OnlyBelow(t, w, asked, r, c, i);
      forall p | i < p < |t| && i in t[p] ensures StopCascade.Left(t, w, r, c, p) == {} {
        NeededBelow(t, asked', p, i);
        GoesDown(t, w, asked, r, c, p);
      }
      if i != r {
        var p :| i < p < |t| && i in t[p] && Reach(t, r, p);
        ReachDown(t, w, r, p);
      }
      assert StopCascade.Concerns(t, w, r, i);
    }
  }

  /** What is up and needed by nobody else is r or below it. */
  lemma OnlyBelow(t: Topology, w: Config, asked: Config, r: SubId, c: ClientId, i: SubId)
    requires Registered(t) && Stopping(t, w, asked, r, c) && i < |t| && w[i] != {}
    requires !Needed(t, Asked(asked, Stop(c, r)), i)
    ensures Reach(t, r, i)
  {
    forall q | 0 <= q < |t| && q != r && asked[q] != {} ensures !Reach(t, q, i) {
      assert Asked(asked, Stop(c, r))[q] == asked[q];
    }
  }

  /**
   * A stop leaves nothing over exactly when nobody but its client has what is needed no longer: a client
   * that once shared a dependency without being its parent's client keeps it up for good.
   */
  lemma StopExactly(t: Topology, w: Config, asked: Config, r: SubId, c: ClientId)
    requires Registered(t) && Stopping(t, w, asked, r, c)
    ensures Tight(t, StopCascade.AfterStop(t, w, r, c), Asked(asked, Stop(c, r)))
       <==> Exclusive(t, w, Asked(asked, Stop(c, r)), c)
  {
    var w', asked' := StopCascade.AfterStop(t, w, r, c), Asked(asked, Stop(c, r));
    StaysGranted(t, w, asked, Stop(c, r));
    StopKeepsClosed(t, w, r, c);
    forall i | 0 <= i < |t| ensures Needed(t, asked', i) ==> w'[i] != {} {
      if Needed(t, asked', i) {
        var q :| 0 <= q < |t| && asked'[q] != {} && Reach(t, q, i);
        assert asked'[q] <= w'[q];
        ReachDown(t, w', q, i);
      }
    }
    forall i | 0 <= i < |t| ensures w'[i] == StopCascade.Left(t, w, r, c, i) && (w'[i] == w[i] || w'[i] == w[i] - {c}) {
    }
    if Exclusive(t, w, asked', c) {
      forall i | 0 <= i < |t| && !Needed(t, asked', i) ensures w'[i] == {} {
        GoesDown(t, w, asked, r, c, i);
      }
    }
  }

  /** A start leaves nothing over. */
  lemma StartTight(t: Topology, w: Config, asked: Config, r: SubId, c: ClientId)
    requires Registered(t) && |w| == |asked| == |t| && r < |t| && Closed(t, w) && Granted(asked, w)
    requires Tight(t, w, asked)
    ensures Tight(t, AfterStart(t, w, r, c), Asked(asked, Start(c, r)))
  {
    var w', asked' := AfterStart(t, w, r, c), Asked(asked, Start(c, r));
    forall i | 0 <= i < |t| ensures w'[i] != {} <==> Needed(t, asked', i) {
      StartNeeds(t, asked, r, c, i);
      ComesReaches(t, w, r, i);
      ReachComesOrUp(t, w, r, i);
    }
  }

  lemma StartNeeds(t: Topology, asked: Config, r: SubId, c: ClientId, i: SubId)
    requires Registered(t) && |asked| == |t| && r < |t|
    ensures Needed(t, Asked(asked, Start(c, r)), i) <==> Needed(t, asked, i) || Reach(t, r, i)
  {
    var asked' := Asked(asked, Start(c, r));
    assert c in asked'[r];
    forall q | 0 <= q < |t| ensures asked'[q] != {} <==> asked[q] != {} || q == r {
      assert q != r ==> asked'[q] == asked[q];
    }
  }

  lemma {:induction false} ReachComesOrUp(t: Topology, w: Config, r: SubId, i: SubId)
    requires Registered(t) && |w| == |t| && r < |t| && Closed(t, w)
    ensures Reach(t, r, i) && i < |t| ==> Comes(t, w, r, i) || w[i] != {}
    decreases |t| - i
  {
    forall p | i < p < |t| && i in t[p] ensures Reach(t, r, p) ==> Comes(t, w, r, p) || w[p] != {} {
      ReachComesOrUp(t, w, r, p);
    }
  }

  /** Before every stop of the session up to k, nobody but its client has what is needed no longer. */
  ghost predicate AllExclusive(t: Topology, ws: seq<Config>, asked: seq<Config>, os: seq<Order>, k: nat)
    requires Session(t, ws, asked, os)
  {
    forall j {:trigger os[j]} | 0 <= j < k && j < |os| && os[j].Stop? ::
      Exclusive(t, ws[j], Asked(asked[j], os[j]), os[j].c)
  }

  /** Each client stops what it has asked for. */
  predicate Paired(asked: seq<Config>, os: seq<Order>) {
    && |asked| == |os| + 1
    && forall k {:trigger os[k]} | 0 <= k < |os| ::
         os[k].r < |asked[k]| && (os[k].Stop? ==> os[k].c in asked[k][os[k].r])
  }

  lemma NobodyTight(t: Topology)
    requires Registered(t)
    ensures Tight(t, Nobody(t), Nobody(t))
  {
  }

  lemma OrderTight(t: Topology, ws: seq<Config>, asked: seq<Config>, os: seq<Order>, k: nat)
    requires Registered(t) && Session(t, ws, asked, os) && Paired(asked, os) && k < |os|
    requires Tight(t, ws[k], asked[k])
    ensures Tight(t, ws[k+1], asked[k+1])
       <==> os[k].Start? || Exclusive(t, ws[k], Asked(asked[k], os[k]), os[k].c)
  {
    SessionKeeps(t, ws, asked, os, k);
    var o := os[k];
    assert ws[k+1] == After(t, ws[k], o) && asked[k+1] == Asked(asked[k], o);
    match o {
      case Start(c, r) => StartTight(t, ws[k], asked[k], r, c);
      case Stop(c, r) => StopExactly(t, ws[k], asked[k], r, c);
    }
  }

  /**
   * Exactly what is needed is up all through a session, precisely when every stop of it finds what is
   * needed no longer in the hands of its own client alone.
   */
  lemma {:induction false} SessionTight(t: Topology, ws: seq<Config>, asked: seq<Config>, os: seq<Order>, k: nat)
    requires Registered(t) && Session(t, ws, asked, os) && Paired(asked, os) && k <= |os|
    ensures (forall j | 0 <= j <= k :: Tight(t, ws[j], asked[j])) <==> AllExclusive(t, ws, asked, os, k)
  {
    if k == 0 {
      NobodyTight(t);
    } else {
      SessionTight(t, ws, asked, os, k - 1);
      var j := k - 1;
      if Tight(t, ws[j], asked[j]) {
        OrderTight(t, ws, asked, os, j);
        assert ws[j+1] == ws[k] && asked[j+1] == asked[k];
      }
    }
  }

  // ---------------------------------------------------------------- whole sessions of the system

  /** The run of one order. */
  datatype Play = Play(ns: seq<Net>, acts: seq<Action>)

  ghost predicate Plays(t: Topology, n: Net, os: seq<Order>, plays: seq<Play>)
    requires Registered(t)
  {
    && |plays| == |os|
    && forall k {:trigger os[k]} | 0 <= k < |os| ::
         os[k].c < 64 && Carries(t, Before(n, plays, k), os[k], plays[k].ns, plays[k].acts)
  }

  /** The system when order k is given. */
  function Before(n: Net, plays: seq<Play>, k: nat): Net
    requires k <= |plays|
  {
    if k == 0 || |plays[k-1].ns| != |plays[k-1].acts| + 1 then n else plays[k-1].ns[|plays[k-1].acts|]
  }

  lemma PlayCarriedOut(t: Topology, n: Net, ws: seq<Config>, asked: seq<Config>, os: seq<Order>,
                       plays: seq<Play>, k: nat)
    requires Registered(t) && Session(t, ws, asked, os) && Plays(t, n, os, plays) && k < |os|
    requires AllResting(Before(n, plays, k), ws[k]) && ReferenceCounts.AllAccounted(Before(n, plays, k))
    ensures AllResting(Before(n, plays, k + 1), ws[k+1]) && ReferenceCounts.AllAccounted(Before(n, plays, k + 1))
  {
    var play := plays[k];
    assert os[k].c < 64 && Carries(t, Before(n, plays, k), os[k], play.ns, play.acts);
    OrderCarriedOut(t, Before(n, plays, k), ws[k], os[k], play.ns, play.acts);
  }

  /** However the steps of each order are interleaved, the system goes through the configurations of the session. */
  lemma {:induction false} SessionCarriedOut(t: Topology, n: Net, ws: seq<Config>, asked: seq<Config>, os: seq<Order>,
                                             plays: seq<Play>, k: nat)
    requires Registered(t) && Session(t, ws, asked, os) && Plays(t, n, os, plays) && k <= |os|
    requires AllResting(n, Nobody(t)) && ReferenceCounts.AllAccounted(n)
    ensures AllResting(Before(n, plays, k), ws[k]) && ReferenceCounts.AllAccounted(Before(n, plays, k))
  {
    if k > 0 {
      SessionCarriedOut(t, n, ws, asked, os, plays, k - 1);
      PlayCarriedOut(t, n, ws, asked, os, plays, k - 1);
    }
  }

  /** What some client has asked for, and all it depends on, is Online at the end of every order. */
  lemma NeededIsOnline(t: Topology, n: Net, ws: seq<Config>, asked: seq<Config>, os: seq<Order>,
                       plays: seq<Play>, k: nat, i: SubId)
    requires Registered(t) && Session(t, ws, asked, os) && Plays(t, n, os, plays) && k <= |os|
    requires AllResting(n, Nobody(t)) && ReferenceCounts.AllAccounted(n) && Needed(t, asked[k], i)
    ensures |Before(n, plays, k)| == |t| && i < |t| && Holding(Before(n, plays, k)[i].l)
  {
    SessionCarriedOut(t, n, ws, asked, os, plays, k);
    NeededIsUp(t, ws, asked, os, k, i);
    assert Resting(Before(n, plays, k)[i], ws[k][i]);
  }

  /** A client alone leaves nothing behind: after its stop all is down with every umbilical closed. */
  lemma StartThenStop(t: Topology, n: Net, r: SubId, c: ClientId, plays: seq<Play>)
    requires Registered(t) && r < |t| && Plays(t, n, [Start(c, r), Stop(c, r)], plays)
    requires AllResting(n, Nobody(t)) && ReferenceCounts.AllAccounted(n)
    ensures var up := Before(n, plays, 1);
            |up| == |t| && forall i | 0 <= i < |t| :: Resting(up[i], if Reach(t, r, i) then {c} else {})
    ensures AllResting(Before(n, plays, 2), Nobody(t))
  {
    var os := [Start(c, r), Stop(c, r)];
    var up := AfterStart(t, Nobody(t), r, c);
    assert os[0].c < 64 && os[1].c < 64;
    OrderCarriedOut(t, n, Nobody(t), os[0], plays[0].ns, plays[0].acts);
    OrderCarriedOut(t, Before(n, plays, 1), up, os[1], plays[1].ns, plays[1].acts);
    forall i | 0 <= i < |t| ensures up[i] == if Reach(t, r, i) then {c} else {} {
      FirstStart(t, r, c, i);
    }
    StopTakesAll(t, up, r, c);
  }

  lemma StopTakesAll(t: Topology, w: Config, r: SubId, c: ClientId)
    requires Registered(t) && |w| == |t| && r < |t|
    requires forall i | 0 <= i < |t| :: w[i] == if Reach(t, r, i) then {c} else {}
    ensures StopCascade.AfterStop(t, w, r, c) == Nobody(t)
  {
    forall i | 0 <= i < |t| ensures StopCascade.Left(t, w, r, c, i) == {} {
      StopTakes(t, w, r, c, i);
    }
  }

  lemma {:induction false} StopTakes(t: Topology, w: Config, r: SubId, c: ClientId, i: SubId)
    requires Registered(t) && |w| == |t| && r < |t| && i < |t|
    requires forall i | 0 <= i < |t| :: w[i] == if Reach(t, r, i) then {c} else {}
    ensures StopCascade.Left(t, w, r, c, i) == {}
    decreases |t| - i
  {
    forall p | i < p < |t| && i in t[p] ensures StopCascade.Left(t, w, r, c, p) == {} {
      StopTakes(t, w, r, c, p);
    }
    if Reach(t, r, i) && i != r {
      var p :| i < p < |t| && i in t[p] && Reach(t, r, p);
      assert w[p] != {};
    }
  }

  // ---------------------------------------------------------------- two witnesses

  /** Subsystems 1 and 2 both depend on 0. */
  const SHARED: Topology := [{}, {0}, {0}]

  /** What a start of one of the two and a stop of one of the two do. */
  lemma SharedOrders(w: Config, r: SubId, c: ClientId)
    requires |w| == 3 && (r == 1 || r == 2)
    ensures AfterStart(SHARED, w, r, c) ==
      [if w[r] == {} then w[0] + {c} else w[0], if r == 1 then w[1] + {c} else w[1], if r == 2 then w[2] + {c} else w[2]]
    ensures w[r] == {c} && w[0] != {} ==>
      StopCascade.AfterStop(SHARED, w, r, c) ==
      [if w[3-r] == {} then w[0] - {c} else w[0], if r == 1 then {} else w[1], if r == 2 then {} else w[2]]
  {
    assert SHARED[1] == {0} && SHARED[2] == {0};
    assert (Comes(SHARED, w, r, 1) <==> r == 1) && (Comes(SHARED, w, r, 2) <==> r == 2);
    assert Comes(SHARED, w, r, 0) <==> w[r] == {} by {
      assert 0 in SHARED[r];
    }
    assert w[r] == {c} ==> StopCascade.Left(SHARED, w, r, c, r) == {} && StopCascade.Left(SHARED, w, r, c, 3 - r) == w[3-r] by {
      assert forall p | 1 < p < 3 :: 1 !in SHARED[p];
    }
    assert w[r] == {c} ==> StopCascade.Concerns(SHARED, w, r, 0) by {
      assert 0 in SHARED[r];
    }
  }

  /**
   * The leftover of a shared dependency: client 0 starts 1 and client 1 starts 2, so 0 has both.  When client
   * 0 stops 1, 0 is still needed and keeps both clients; when client 1 stops 2, it loses that one alone.
   */
  lemma SharedLeftOver(ws: seq<Config>)
    requires |ws| == 5 && ws[0] == Nobody(SHARED)
    requires ws[1] == After(SHARED, ws[0], Start(0, 1)) && ws[2] == After(SHARED, ws[1], Start(1, 2))
    requires ws[3] == After(SHARED, ws[2], Stop(0, 1)) && ws[4] == After(SHARED, ws[3], Stop(1, 2))
    ensures ws[2] == [{0, 1}, {0}, {1}] && ws[3] == [{0, 1}, {}, {1}] && ws[4] == [{0}, {}, {}]
  {
    SharedOrders(ws[0], 1, 0);
    assert ws[1][0] == {0} && ws[1][1] == {0} && ws[1] == [{0}, {0}, {}];
    SharedOrders(ws[1], 2, 1);
    assert ws[2][0] == {0, 1} && ws[2][2] == {1} && ws[2] == [{0, 1}, {0}, {1}];
    SharedOrders(ws[2], 1, 0);
    assert ws[3] == [{0, 1}, {}, {1}];
    SharedOrders(ws[3], 2, 1);
    assert {0, 1} - {1} == {0};
  }

  /** Why a client may ask for one thing at a time only: its stop of 1 takes 0 from it, which it has started itself. */
  lemma OwnDependencyLost(ws: seq<Config>)
    requires |ws| == 4 && ws[0] == Nobody([{}, {0}])
    requires ws[1] == After([{}, {0}], ws[0], Start(0, 1)) && ws[2] == After([{}, {0}], ws[1], Start(0, 0))
    requires ws[3] == After([{}, {0}], ws[2], Stop(0, 1))
    ensures ws[2] == [{0}, {0}] && ws[3] == [{}, {}]
  {
    ChainOrders(ws[0], 1, 0);
    assert ws[1][0] == {0} && ws[1][1] == {0} && ws[1] == [{0}, {0}];
    ChainOrders(ws[1], 0, 0);
    assert ws[2][0] == {0} && ws[2] == [{0}, {0}];
    ChainOrders(ws[2], 1, 0);
  }

  lemma ChainOrders(w: Config, r: SubId, c: ClientId)
    requires |w| == 2 && r < 2
    ensures AfterStart([{}, {0}], w, r, c)
         == [if r == 0 || w[1] == {} then w[0] + {c} else w[0], if r == 1 then w[1] + {c} else w[1]]
    ensures r == 1 && w == [{c}, {c}] ==> StopCascade.AfterStop([{}, {0}], w, r, c) == [{}, {}]
  {
    var t: Topology := [{}, {0}];
    assert t[1] == {0} && 0 in t[1];
    assert (Comes(t, w, r, 1) <==> r == 1) && (Comes(t, w, r, 0) <==> r == 0 || (r == 1 && w[1] == {}));
    assert r == 1 && w == [{c}, {c}] ==> StopCascade.Left(t, w, r, c, 1) == {};
    assert r == 1 && w == [{c}, {c}] ==> StopCascade.Concerns(t, w, r, 0);
  }
}
