/**
 * Capcom's parameters and the copy on every StageZero: local writes, update events in flight,
 * broadcasts, and connections that come and go.
 */
module Replication {
  import opened ParameterNames
  import opened ParameterTrees
  import opened ParameterLaws
  import opened ParameterRebuild
  import opened Umbilicals

  type Compute = string

  datatype Update = Update(path: Path, value: Value)

  /** While Capcom sends an update to its StageZeros, one after the other, it does nothing else. */
  datatype Sending = Idle | Broadcast(update: Update, remaining: set<Compute>)

  datatype System = System(
    cap: Tree,
    copies: map<Compute, Tree>,
    links: map<Compute, Umb>,
    events: multiset<Update>,
    sending: Sending)

  datatype Step =
    /** A process writes on its StageZero, which tells Capcom. */
    | LocalWrite(compute: Compute, update: Update)
    /** A client writes on Capcom. */
    | ClientWrite(update: Update)
    /** Capcom takes an event out of the connections; any one of those in flight. */
    | Receive(update: Update)
    | Send(compute: Compute)
    | Finish
    /** A subsystem asks for a connection. */
    | Ask(compute: Compute)
    /** The connection is made and everything is uploaded in one go. */
    | Upload(compute: Compute, leaves: seq<Path>)
    | Fail(compute: Compute)
    | Disconnect(compute: Compute, dynamicOnly: bool)
    | Drop(compute: Compute)

  /** Updates of scalars, at paths that names can have. */
  predicate Scalar(u: Update) {
    Canonical(u.path) && !u.value.Map?
  }

  ghost predicate Enabled(s: System, step: Step) {
    match step
    case LocalWrite(c, u) => c in s.copies && Scalar(u)
    case ClientWrite(u) => s.sending == Idle && Scalar(u)
    case Receive(u) => s.sending == Idle && u in s.events
    case Send(c) => s.sending.Broadcast? && c in s.sending.remaining && c in s.copies && c in s.links
    case Finish => s.sending.Broadcast? && s.sending.remaining == {}
    case Ask(c) => s.sending == Idle && c in s.links
    case Upload(c, leaves) => s.sending == Idle && c in s.links && c in s.copies && ListsLeaves(s.cap, leaves)
    case Fail(c) => s.sending == Idle && c in s.links
    case Disconnect(c, _) => s.sending == Idle && c in s.links
    case Drop(c) => c in s.links
  }

  /** Capcom stores an update and starts sending it to all its StageZeros. */
  function Propagate(s: System, u: Update): System {
    s.(cap := Set(s.cap, u.path, u.value), sending := Broadcast(u, s.links.Keys))
  }

  function SetLink(s: System, c: Compute, umb: Umb): System {
    s.(links := s.links[c := umb])
  }

  ghost function Apply(s: System, step: Step): System
    requires Enabled(s, step)
  {
    match step
    case LocalWrite(c, u) =>
      s.(copies := s.copies[c := Set(s.copies[c], u.path, u.value)], events := s.events + multiset{u})
    case ClientWrite(u) => Propagate(s, u)
    case Receive(u) => Propagate(s.(events := s.events - multiset{u}), u)
    case Send(c) =>
      var rest := Broadcast(s.sending.update, s.sending.remaining - {c});
      if s.links[c].IsConnected()
      then s.(copies := s.copies[c := Set(s.copies[c], s.sending.update.path, s.sending.update.value)], sending := rest)
      else s.(sending := rest)
    case Finish => s.(sending := Idle)
    case Ask(c) => SetLink(s, c, s.links[c].Precondition())
    case Upload(c, leaves) =>
      SetLink(s, c, s.links[c].(state := LinkConnected, alive := true))
      .(copies := s.copies[c := Uploaded(Flattened(s.cap, leaves))])
    case Fail(c) => SetLink(s, c, s.links[c].Fail())
    case Disconnect(c, dynamicOnly) => SetLink(s, c, s.links[c].Disconnect(dynamicOnly))
    case Drop(c) => SetLink(s, c, s.links[c].Lose())
  }

  // ---------------------------------------------------------------- the invariant

  /** No holes, and only paths that names can have. */
  ghost predicate Clean(t: Tree) {
    Closed(t) && t.holes == {} && forall p | p in t.values :: Canonical(p)
  }

  predicate Leaf(t: Tree, p: Path) {
    p in t.values && Names(t.values.Keys, p) == {}
  }

  /** Some write on its way is to a path related to q. */
  ghost predicate Touched(ps: iset<Path>, q: Path) {
    exists r :: r in ps && Comparable(r, q)
  }

  /** Some write on its way is to q or to a path above it. */
  ghost predicate Overridden(ps: iset<Path>, q: Path) {
    exists r :: r in ps && r <= q
  }

  ghost predicate CoveredAt(a: Tree, b: Tree, ps: iset<Path>, q: Path) {
    && ((q in a.values <==> q in b.values) || Touched(ps, q))
    && (Leaf(a, q) && Leaf(b, q) && a.values[q] != b.values[q] ==> Overridden(ps, q))
  }

  /** Every difference between the two trees is covered by a write on its way. */
  ghost predicate Covered(a: Tree, b: Tree, ps: iset<Path>) {
    forall q :: CoveredAt(a, b, ps, q)
  }

  /** The paths of the writes that will still reach the copy: events in flight, the broadcast if it has yet to be sent there. */
  ghost function OnTheWay(s: System, c: Compute): iset<Path> {
    iset u: Update | u in s.events || (s.sending.Broadcast? && c in s.sending.remaining && u == s.sending.update) :: u.path
  }

  ghost predicate Inv(s: System) {
    && Clean(s.cap)
    && s.copies.Keys == s.links.Keys
    && (forall c | c in s.copies :: Clean(s.copies[c]))
    && (forall u | u in s.events :: Scalar(u))
    && (s.sending.Broadcast? ==>
          && Scalar(s.sending.update)
          && Leaf(s.cap, s.sending.update.path) && s.cap.values[s.sending.update.path] == s.sending.update.value)
    && (forall c | c in s.links && c in s.copies && s.links[c].IsConnected() :: Covered(s.cap, s.copies[c], OnTheWay(s, c)))
  }

  // ---------------------------------------------------------------- writes

  lemma SetClean(t: Tree, u: Update)
    requires Clean(t) && Scalar(u)
    ensures Clean(Set(t, u.path, u.value))
    ensures Leaf(Set(t, u.path, u.value), u.path) && Set(t, u.path, u.value).values[u.path] == u.value
  {
    var w := Set(t, u.path, u.value);
    SetKeeps(t, u.path, u.value);
    forall q | q in w.values ensures Canonical(q) {
      InPrefixes(u.path, q);
    }
    forall k ensures k !in Names(w.values.Keys, u.path) {
      NamesAre(w.values.Keys, u.path, k);
      InPrefixes(u.path, u.path + [k]);
      assert u.path < u.path + [k];
    }
    InPrefixes(u.path, u.path);
  }

  /** What a scalar write does at one path. */
  lemma WrittenAt(t: Tree, p: Path, v: Value, q: Path)
    requires p != [] && !v.Map?
    ensures p < q ==> q !in Set(t, p, v).values
    ensures q != [] && q <= p ==> q in Set(t, p, v).values
    ensures !Comparable(p, q) ==> (q in Set(t, p, v).values <==> q in t.values)
    ensures !(p <= q) && q in t.values ==> q in Set(t, p, v).values && Set(t, p, v).values[q] == t.values[q]
  {
    InPrefixes(p, q);
  }

  /** A write makes no other leaf than the one it writes. */
  lemma LeafBefore(t: Tree, p: Path, v: Value, q: Path)
    requires p != [] && !v.Map? && q != p && Leaf(Set(t, p, v), q)
    ensures !(p <= q) && !(q <= p)
    ensures Leaf(t, q)
  {
    var u := Set(t, p, v);
    WrittenAt(t, p, v, q);
    assert p <= q && !(p < q) ==> p == q;
    if q < p {
      var k := p[|q|];
      WrittenAt(t, p, v, q + [k]);
      NamesAre(u.values.Keys, q, k);
    }
    forall k ensures k !in Names(t.values.Keys, q) {
      NamesAre(t.values.Keys, q, k);
      NamesAre(u.values.Keys, q, k);
      assert p <= q + [k] && !(p <= q) ==> p == q + [k];
      assert q < q + [k];
      WrittenAt(t, p, v, q + [k]);
    }
  }

  /** A write on one side is covered by itself. */
  lemma WriteCovered(a: Tree, b: Tree, ps: iset<Path>, more: iset<Path>, p: Path, v: Value)
    requires Covered(a, b, ps) && ps <= more && p in more && p != [] && !v.Map?
    ensures Covered(Set(a, p, v), b, more)
  {
    var w := Set(a, p, v);
    forall q ensures CoveredAt(w, b, more, q) {
      WrittenAt(a, p, v, q);
      assert CoveredAt(a, b, ps, q);
      if Comparable(p, q) {
        assert Touched(more, q);
      }
      if Leaf(w, q) && q != p {
        LeafBefore(a, p, v, q);
      }
      assert p <= p;
    }
  }

  lemma CoveredSymmetric(a: Tree, b: Tree, ps: iset<Path>)
    requires Covered(a, b, ps)
    ensures Covered(b, a, ps)
  {
    forall q ensures CoveredAt(b, a, ps, q) {
      assert CoveredAt(a, b, ps, q);
    }
  }

  /** Once a copy has applied the write being sent, that write need not cover anything any more. */
  lemma AppliedUncovers(a: Tree, b: Tree, ps: iset<Path>, fewer: iset<Path>, p: Path, v: Value)
    requires Closed(a) && Closed(b) && Covered(a, b, ps) && p != [] && !v.Map?
    requires forall r :: r in ps && r != p ==> r in fewer
    requires Leaf(a, p) && a.values[p] == v
    ensures Covered(a, Set(b, p, v), fewer)
  {
    var w := Set(b, p, v);
    forall q ensures CoveredAt(a, w, fewer, q) {
      AppliedAt(a, b, ps, fewer, p, v, q);
    }
  }

  lemma AppliedAt(a: Tree, b: Tree, ps: iset<Path>, fewer: iset<Path>, p: Path, v: Value, q: Path)
    requires Closed(a) && Closed(b) && CoveredAt(a, b, ps, q) && p != [] && !v.Map?
    requires forall r :: r in ps && r != p ==> r in fewer
    requires Leaf(a, p) && a.values[p] == v
    ensures CoveredAt(a, Set(b, p, v), fewer, q)
  {
    var w := Set(b, p, v);
    WrittenAt(b, p, v, q);
    if Comparable(p, q) {
      if p < q {
        BelowLeaf(a, p, q);
      } else if q != [] {
        PrefixIn(a, p, q);
      } else {
        SetKeeps(b, p, v);
        assert Rooted(w.values, p);
        assert q in w.values ==> Rooted(w.values, q);
        assert q in a.values ==> Rooted(a.values, q);
      }
    }
    if Leaf(w, q) && q != p {
      LeafBefore(b, p, v, q);
    }
    if q == p {
      SetThenGet(b, p, v);
    }
  }

  lemma BelowLeaf(t: Tree, p: Path, q: Path)
    requires Closed(t) && Leaf(t, p) && p < q
    ensures q !in t.values
  {
    NamesAre(t.values.Keys, p, q[|p|]);
    if q in t.values {
      PrefixIn(t, q, p + [q[|p|]]);
    }
  }

  // ---------------------------------------------------------------- uploads

  lemma UploadCovers(t: Tree, leaves: seq<Path>, ps: iset<Path>)
    requires Clean(t) && ListsLeaves(t, leaves)
    ensures Clean(Uploaded(Flattened(t, leaves)))
    ensures Covered(t, Uploaded(Flattened(t, leaves)), ps)
  {
    assert forall p | p in leaves :: IsLeaf(t, p);
    var params := Flattened(t, leaves);
    var u := Uploaded(params);
    PlaceAll(t, leaves, |leaves|);
    assert params[..|leaves|] == params;
    forall i | 0 <= i < |params| ensures !params[i].value.Map? {
      AmongLeaves(t, leaves, i);
    }
    SetEachKeeps(EMPTY_TREE, params);
    RebuiltAlike(t, u, leaves);
    SameNodesCovered(t, u, ps);
  }

  lemma SameNodesCovered(t: Tree, u: Tree, ps: iset<Path>)
    requires t.holes == {}
    requires forall q :: q in t.values <==> q in u.values
    requires forall q :: q in t.values && IsLeaf(t, q) ==> u.values[q] == t.values[q]
    ensures Covered(t, u, ps)
  {
    forall q ensures CoveredAt(t, u, ps, q) {
      if Leaf(t, q) {
        assert Names(t.holes, q) == {};
        assert IsLeaf(t, q);
      }
    }
  }

  // ---------------------------------------------------------------- steps

  lemma LocalWriteKeeps(s: System, c: Compute, u: Update)
    requires Inv(s) && Enabled(s, LocalWrite(c, u))
    ensures Inv(Apply(s, LocalWrite(c, u)))
  {
    var t := Apply(s, LocalWrite(c, u));
    SetClean(s.copies[c], u);
    assert u.path != [];
    forall d | d in t.links && t.links[d].IsConnected() ensures Covered(t.cap, t.copies[d], OnTheWay(t, d)) {
      assert OnTheWay(s, d) <= OnTheWay(t, d);
      if d == c {
        assert u in t.events;
        CoveredSymmetric(s.cap, s.copies[c], OnTheWay(s, c));
        WriteCovered(s.copies[c], s.cap, OnTheWay(s, c), OnTheWay(t, c), u.path, u.value);
        CoveredSymmetric(t.copies[c], t.cap, OnTheWay(t, c));
      } else {
        CoveredMore(s.cap, s.copies[d], OnTheWay(s, d), OnTheWay(t, d));
      }
    }
  }

  lemma CoveredMore(a: Tree, b: Tree, ps: iset<Path>, more: iset<Path>)
    requires Covered(a, b, ps) && ps <= more
    ensures Covered(a, b, more)
  {
    forall q ensures CoveredAt(a, b, more, q) {
      assert CoveredAt(a, b, ps, q);
    }
  }

  /** All but the sending of the update: what Capcom does with a write of a client, or with an event. */
  lemma PropagateKeeps(s: System, s0: System, u: Update)
    requires Inv(s0) && s0.sending == Idle && Scalar(u)
    requires s == s0.(events := s.events) && s.events <= s0.events && s0.events <= s.events + multiset{u}
    ensures Inv(Propagate(s, u))
  {
    var t := Propagate(s, u);
    SetClean(s.cap, u);
    forall w | w in t.events ensures Scalar(w) {
      assert w in s0.events;
    }
    forall c | c in t.links && t.links[c].IsConnected() ensures Covered(t.cap, t.copies[c], OnTheWay(t, c)) {
      forall r | r in OnTheWay(s0, c) ensures r in OnTheWay(t, c) {
        var w :| w in s0.events && w.path == r;
        assert w in s.events || w == u;
      }
      assert u.path in OnTheWay(t, c);
      WriteCovered(s0.cap, s0.copies[c], OnTheWay(s0, c), OnTheWay(t, c), u.path, u.value);
    }
  }

  lemma SendKeeps(s: System, c: Compute)
    requires Inv(s) && Enabled(s, Send(c))
    ensures Inv(Apply(s, Send(c)))
  {
    var t := Apply(s, Send(c));
    var u := s.sending.update;
    SetClean(s.copies[c], u);
    forall d | d in t.links && t.links[d].IsConnected() ensures Covered(t.cap, t.copies[d], OnTheWay(t, d)) {
      if d == c {
        AppliedUncovers(s.cap, s.copies[c], OnTheWay(s, c), OnTheWay(t, c), u.path, u.value);
      } else {
        assert OnTheWay(s, d) <= OnTheWay(t, d);
        CoveredMore(s.cap, s.copies[d], OnTheWay(s, d), OnTheWay(t, d));
      }
    }
  }

  lemma UploadKeeps(s: System, c: Compute, leaves: seq<Path>)
    requires Inv(s) && Enabled(s, Upload(c, leaves))
    ensures Inv(Apply(s, Upload(c, leaves)))
  {
    var t := Apply(s, Upload(c, leaves));
    UploadCovers(s.cap, leaves, OnTheWay(t, c));
    forall d | d in t.links && t.links[d].IsConnected() ensures Covered(t.cap, t.copies[d], OnTheWay(t, d)) {
      assert OnTheWay(s, d) == OnTheWay(t, d);
    }
  }

  /** Steps that only change whether a StageZero counts as connected, never to connected. */
  lemma LinkKeeps(s: System, c: Compute, umb: Umb)
    requires Inv(s) && c in s.links
    requires umb.IsConnected() ==> s.links[c].IsConnected()
    ensures Inv(SetLink(s, c, umb))
  {
    var t := SetLink(s, c, umb);
    forall d | d in t.links && t.links[d].IsConnected() ensures Covered(t.cap, t.copies[d], OnTheWay(t, d)) {
      assert OnTheWay(s, d) == OnTheWay(t, d);
      assert s.links[d].IsConnected();
    }
  }

  lemma FinishKeeps(s: System)
    requires Inv(s) && Enabled(s, Finish)
    ensures Inv(Apply(s, Finish))
  {
    var t := Apply(s, Finish);
    forall d | d in t.links && t.links[d].IsConnected() ensures Covered(t.cap, t.copies[d], OnTheWay(t, d)) {
      assert OnTheWay(s, d) == OnTheWay(t, d);
    }
  }

  /** Every step keeps every difference covered by a write on its way. */
  lemma StepKeeps(s: System, step: Step)
    requires Inv(s) && Enabled(s, step)
    ensures Inv(Apply(s, step))
  {
    match step
    case LocalWrite(c, u) => LocalWriteKeeps(s, c, u);
    case ClientWrite(u) => PropagateKeeps(s, s, u);
    case Receive(u) => PropagateKeeps(s.(events := s.events - multiset{u}), s, u);
    case Send(c) => SendKeeps(s, c);
    case Finish => FinishKeeps(s);
    case Upload(c, leaves) => UploadKeeps(s, c, leaves);
    case Ask(c) => LinkKeeps(s, c, s.links[c].Precondition());
    case Fail(c) =>
      LinkKeeps(s, c, s.links[c].Fail());
    case Disconnect(c, dynamicOnly) => LinkKeeps(s, c, s.links[c].Disconnect(dynamicOnly));
    case Drop(c) => LinkKeeps(s, c, s.links[c].Lose());
  }

  // ---------------------------------------------------------------- whole runs

  /** Nothing on its way, no StageZero connected yet; the trees may hold anything. */
  ghost predicate Start(s: System) {
    && Clean(s.cap)
    && s.copies.Keys == s.links.Keys
    && (forall c | c in s.copies :: Clean(s.copies[c]))
    && s.events == multiset{} && s.sending == Idle
    && (forall c | c in s.links :: !s.links[c].IsConnected())
  }

  ghost predicate Run(ss: seq<System>, steps: seq<Step>) {
    && |ss| == |steps| + 1
    && Start(ss[0])
    && forall i {:trigger steps[i]} | 0 <= i < |steps| :: Enabled(ss[i], steps[i]) && ss[i+1] == Apply(ss[i], steps[i])
  }

  lemma {:induction false} InvAlways(ss: seq<System>, steps: seq<Step>, i: nat)
    requires Run(ss, steps) && i < |ss|
    ensures Inv(ss[i])
    decreases i
  {
    if i > 0 {
      InvAlways(ss, steps, i - 1);
      StepKeeps(ss[i-1], steps[i-1]);
    }
  }

  lemma RelatedBelow(r: Path, q: Path, w: Path)
    requires q <= w && Comparable(r, w)
    ensures Comparable(r, q)
  {
  }

  /** With no write on its way to a related path, a lookup finds the same on both sides. */
  lemma UntouchedAgrees(a: Tree, b: Tree, ps: iset<Path>, q: Path)
    requires Clean(a) && Clean(b) && Covered(a, b, ps) && !Touched(ps, q)
    ensures Get(a, q) == Get(b, q)
  {
    assert CoveredAt(a, b, ps, q);
    forall w | q <= w
      ensures w in a.values <==> w in b.values
    {
      assert CoveredAt(a, b, ps, w);
      if Touched(ps, w) {
        var r :| r in ps && Comparable(r, w);
        RelatedBelow(r, q, w);
      }
    }
    if q in a.values {
      forall w | q <= w && Leaf(a, w) && Leaf(b, w) ensures a.values[w] == b.values[w] {
        assert CoveredAt(a, b, ps, w);
        if Overridden(ps, w) {
          var r :| r in ps && r <= w;
          RelatedBelow(r, q, w);
        }
      }
      AlikeWhenLeavesAgree(a, b, q);
      SameValueAt(a.values, b.values, q);
    }
  }

  lemma AlikeWhenLeavesAgree(a: Tree, b: Tree, q: Path)
    requires forall w :: q <= w ==> (w in a.values <==> w in b.values)
    requires forall w :: q <= w && Leaf(a, w) && Leaf(b, w) ==> a.values[w] == b.values[w]
    ensures Alike(a.values, b.values, q)
  {
    forall w | q <= w && w in a.values && Names(a.values.Keys, w) == {} ensures Leaf(a, w) && Leaf(b, w) {
      forall k ensures k !in Names(b.values.Keys, w) {
        NamesAre(a.values.Keys, w, k);
        NamesAre(b.values.Keys, w, k);
        assert q <= w + [k];
      }
    }
  }

  /**
   * At any moment of any run, a lookup that answers differently on Capcom and on a connected
   * StageZero has a write to a related path still on its way there; so with nothing on its way all
   * connected StageZeros answer every lookup as Capcom does.
   */
  lemma DifferencesAreOnTheirWay(ss: seq<System>, steps: seq<Step>, i: nat, c: Compute, q: Path)
    requires Run(ss, steps) && i < |ss| && c in ss[i].links && ss[i].links[c].IsConnected()
    ensures c in ss[i].copies
    ensures Get(ss[i].cap, q) != Get(ss[i].copies[c], q) ==> Touched(OnTheWay(ss[i], c), q)
    ensures ss[i].events == multiset{} && ss[i].sending == Idle ==> Get(ss[i].cap, q) == Get(ss[i].copies[c], q)
  {
    InvAlways(ss, steps, i);
    var s := ss[i];
    if !Touched(OnTheWay(s, c), q) {
      UntouchedAgrees(s.cap, s.copies[c], OnTheWay(s, c), q);
    }
  }

  /** One StageZero neither gets an upload nor writes on its own. */
  predicate LeftAlone(steps: seq<Step>, c: Compute) {
    forall i | 0 <= i < |steps| :: !(steps[i].Upload? && steps[i].compute == c) && !(steps[i].LocalWrite? && steps[i].compute == c)
  }

  /**
   * Asking again for a connection that is already there puts it back to connecting, with its socket
   * up; from then on no update reaches that StageZero until everything is uploaded again.
   */
  lemma {:induction false} AskingAgainSilences(ss: seq<System>, steps: seq<Step>, c: Compute, i: nat)
    requires |ss| == |steps| + 1 && i < |ss| && |steps| > 0 && steps[0] == Ask(c) && LeftAlone(steps, c)
    requires c in ss[0].copies && c in ss[0].links
    requires forall j {:trigger steps[j]} | 0 <= j < |steps| :: Enabled(ss[j], steps[j]) && ss[j+1] == Apply(ss[j], steps[j])
    ensures c in ss[i].copies && c in ss[i].links && ss[i].copies[c] == ss[0].copies[c]
    ensures i > 0 ==> !ss[i].links[c].IsConnected() && ss[i].links[c].state != LinkConnected
    decreases i
  {
    if i > 0 {
      AskingAgainSilences(ss, steps, c, i - 1);
      var step := steps[i-1];
      assert Enabled(ss[i-1], step) && ss[i-1+1] == Apply(ss[i-1], step);
    }
  }

  // ---------------------------------------------------------------- who gets updates

  /** The step puts an end to the connection of c. */
  predicate Cuts(s: System, step: Step, c: Compute)
    requires c in s.links
  {
    match step
    case Ask(d) => d == c
    case Fail(d) => d == c
    case Drop(d) => d == c
    case Disconnect(d, dynamicOnly) => d == c && s.links[c].Disconnect(dynamicOnly).WasClosed()
    case _ => false
  }

  lemma StepConnects(s: System, step: Step, c: Compute)
    requires Enabled(s, step) && c in s.links
    ensures c in Apply(s, step).links
    ensures Apply(s, step).links[c].IsConnected() <==>
      (step.Upload? && step.compute == c) || (s.links[c].IsConnected() && !Cuts(s, step, c))
  {
  }

  /** Since its upload in step j nothing has cut the connection. */
  ghost predicate Uncut(ss: seq<System>, steps: seq<Step>, c: Compute, j: nat, i: nat)
    requires |ss| == |steps| + 1 && i <= |steps|
  {
    && j < i && steps[j].Upload? && steps[j].compute == c
    && forall k {:trigger steps[k]} | j < k < i :: c in ss[k].links ==> !Cuts(ss[k], steps[k], c)
  }

  ghost predicate Served(ss: seq<System>, steps: seq<Step>, c: Compute, i: nat)
    requires |ss| == |steps| + 1 && i <= |steps|
  {
    exists j: nat :: Uncut(ss, steps, c, j, i)
  }

  /**
   * A StageZero counts as connected, and so gets updates, exactly when it has had an upload that no
   * second request, failure, loss or last disconnection has followed.
   */
  lemma {:induction false} ConnectedExactly(ss: seq<System>, steps: seq<Step>, c: Compute, i: nat)
    requires Run(ss, steps) && i < |ss| && c in ss[0].links
    ensures c in ss[i].links
    ensures ss[i].links[c].IsConnected() <==> Served(ss, steps, c, i)
  {
    if i > 0 {
      ConnectedExactly(ss, steps, c, i - 1);
      assert Enabled(ss[i-1], steps[i-1]) && ss[i-1+1] == Apply(ss[i-1], steps[i-1]);
      StepConnects(ss[i-1], steps[i-1], c);
      UncutFurther(ss, steps, c, i - 1);
    }
  }

  lemma UncutFurther(ss: seq<System>, steps: seq<Step>, c: Compute, i: nat)
    requires |ss| == |steps| + 1 && i < |steps| && c in ss[i].links
    ensures Served(ss, steps, c, i + 1) <==>
      (steps[i].Upload? && steps[i].compute == c) || (Served(ss, steps, c, i) && !Cuts(ss[i], steps[i], c))
  {
    var next := i + 1;
    forall j: nat | Uncut(ss, steps, c, j, next) && j < i ensures Uncut(ss, steps, c, j, i) && !Cuts(ss[i], steps[i], c) {
    }
    if steps[i].Upload? && steps[i].compute == c {
      assert Uncut(ss, steps, c, i, next);
    }
    forall j: nat | Uncut(ss, steps, c, j, i) && !Cuts(ss[i], steps[i], c) ensures Uncut(ss, steps, c, j, next) {
    }
  }

  // ---------------------------------------------------------------- a StageZero left behind

  const NAME: Path := ["a"]
  const UPDATE := Update(NAME, Bool(true))

  /** One StageZero, to which Capcom is connecting for the first time. */
  function Before(): System {
    System(EMPTY_TREE, map["c" := EMPTY_TREE], map["c" := FRESH_UMB.Precondition()], multiset{}, Idle)
  }

  function Silent(cap: Tree, sending: Sending): System {
    System(cap, map["c" := EMPTY_TREE], map["c" := Umb(LinkConnecting, 2, false, true)], multiset{}, sending)
  }

  lemma BeforeStarts()
    ensures Start(Before()) && ListsLeaves(EMPTY_TREE, [])
  {
  }

  lemma ConnectsAndAsks(s: System)
    requires s == Before().(links := map["c" := Umb(LinkConnected, 1, false, true)])
    ensures Enabled(Before(), Upload("c", [])) && Apply(Before(), Upload("c", [])) == s
    ensures Enabled(s, Ask("c")) && Apply(s, Ask("c")) == Silent(EMPTY_TREE, Idle)
  {
    BeforeStarts();
    assert Flattened(EMPTY_TREE, []) == [];
    assert Before().copies["c" := EMPTY_TREE] == Before().copies;
    assert Before().links["c" := Umb(LinkConnected, 1, false, true)] == s.links;
    assert s.links["c" := Umb(LinkConnecting, 2, false, true)] == Silent(EMPTY_TREE, Idle).links;
  }

  lemma WritesUnheard(cap: Tree)
    requires cap == Set(EMPTY_TREE, NAME, Bool(true))
    ensures Enabled(Silent(EMPTY_TREE, Idle), ClientWrite(UPDATE))
    ensures Apply(Silent(EMPTY_TREE, Idle), ClientWrite(UPDATE)) == Silent(cap, Broadcast(UPDATE, {"c"}))
    ensures Enabled(Silent(cap, Broadcast(UPDATE, {"c"})), Send("c"))
    ensures Apply(Silent(cap, Broadcast(UPDATE, {"c"})), Send("c")) == Silent(cap, Broadcast(UPDATE, {}))
    ensures Enabled(Silent(cap, Broadcast(UPDATE, {})), Finish)
    ensures Apply(Silent(cap, Broadcast(UPDATE, {})), Finish) == Silent(cap, Idle)
  {
    assert Silent(EMPTY_TREE, Idle).links.Keys == {"c"};
    assert {"c"} - {"c"} == {};
  }

  ghost predicate Leads(s: System, step: Step, t: System) {
    Enabled(s, step) && t == Apply(s, step)
  }

  lemma GoesOn(ss: seq<System>, steps: seq<Step>, s: System, step: Step, t: System)
    requires Run(ss, steps) && s == ss[|steps|] && Leads(s, step, t)
    ensures Run(ss + [t], steps + [step])
  {
    var ss', steps' := ss + [t], steps + [step];
    forall i {:trigger steps'[i]} | 0 <= i < |steps'|
      ensures Enabled(ss'[i], steps'[i]) && ss'[i+1] == Apply(ss'[i], steps'[i])
    {
      if i < |steps| {
        assert steps'[i] == steps[i] && ss'[i] == ss[i] && ss'[i+1] == ss[i+1];
      }
    }
  }

  ghost predicate RunsTo(s: System) {
    exists ss, steps :: Run(ss, steps) && ss[|steps|] == s
  }

  /** The states some run leads to. */
  ghost function Reached(): iset<System> {
    iset s | RunsTo(s)
  }

  lemma Onward(s: System, step: Step, t: System)
    requires s in Reached() && Leads(s, step, t)
    ensures t in Reached()
  {
    var ss, steps :| Run(ss, steps) && ss[|steps|] == s;
    GoesOn(ss, steps, s, step, t);
    assert (ss + [t])[|steps + [step]|] == t;
  }

  /** Nothing is on its way, the socket is up, and the two servers answer differently. */
  ghost predicate LeftBehind(s: System, c: Compute, q: Path) {
    && s.events == multiset{} && s.sending == Idle
    && c in s.links && s.links[c].alive && !s.links[c].IsConnected()
    && c in s.copies && Get(s.cap, q) != Get(s.copies[c], q)
  }

  lemma SilentLeftBehind(cap: Tree)
    requires cap == Set(EMPTY_TREE, NAME, Bool(true))
    ensures LeftBehind(Silent(cap, Idle), "c", NAME)
  {
    SetThenGet(EMPTY_TREE, NAME, Bool(true));
  }

  lemma BeforeReached()
    ensures Before() in Reached()
  {
    BeforeStarts();
    var ss: seq<System>, steps: seq<Step> := [Before()], [];
    assert Run(ss, steps) && ss[|steps|] == Before();
  }

  /** A run leaves a StageZero behind: connected, asked for again, and never told of a write. */
  lemma SilencedReachable() returns (s: System)
    ensures s in Reached() && LeftBehind(s, "c", NAME)
  {
    var cap := Set(EMPTY_TREE, NAME, Bool(true));
    BeforeReached();
    var up := Before().(links := map["c" := Umb(LinkConnected, 1, false, true)]);
    ConnectsAndAsks(up);
    Onward(Before(), Upload("c", []), up);
    Onward(up, Ask("c"), Silent(EMPTY_TREE, Idle));
    WritesUnheard(cap);
    Onward(Silent(EMPTY_TREE, Idle), ClientWrite(UPDATE), Silent(cap, Broadcast(UPDATE, {"c"})));
    Onward(Silent(cap, Broadcast(UPDATE, {"c"})), Send("c"), Silent(cap, Broadcast(UPDATE, {})));
    Onward(Silent(cap, Broadcast(UPDATE, {})), Finish, Silent(cap, Idle));
    s := Silent(cap, Idle);
    SilentLeftBehind(cap);
  }

  // ---------------------------------------------------------------- the loop

  /** A connected StageZero to which the update cannot be sent: its socket turns out to be gone. */
  predicate Unreached(s: System, broken: set<Compute>, c: Compute) {
    c in s.links && s.links[c].IsConnected() && c in broken
  }

  /** A connected StageZero that can be reached applies the update, any other does not see it. */
  function CopyAfter(s: System, u: Update, broken: set<Compute>, c: Compute): Tree
    requires c in s.copies
  {
    if c in s.links && s.links[c].IsConnected() && c !in broken then Set(s.copies[c], u.path, u.value) else s.copies[c]
  }

  function LinkAfter(s: System, broken: set<Compute>, c: Compute): Umb
    requires c in s.links
  {
    if Unreached(s, broken, c) then s.links[c].Lose() else s.links[c]
  }

  function Everywhere(s: System, u: Update, broken: set<Compute>): map<Compute, Tree> {
    map c | c in s.copies :: CopyAfter(s, u, broken, c)
  }

  function LinksAfter(s: System, broken: set<Compute>): map<Compute, Umb> {
    map c | c in s.links :: LinkAfter(s, broken, c)
  }

  /** One turn of the loop is a sending step, after the loss of the socket when the send fails. */
  method SendOne(s: System, c: Compute, broken: set<Compute>) returns (t: System, ok: bool)
    requires Enabled(s, Send(c))
    ensures Enabled(s, Drop(c)) && Enabled(Apply(s, Drop(c)), Send(c))
    ensures t == Apply(if Unreached(s, broken, c) then Apply(s, Drop(c)) else s, Send(c))
    ensures t == s.(copies := s.copies[c := CopyAfter(s, s.sending.update, broken, c)],
                    links := s.links[c := LinkAfter(s, broken, c)],
                    sending := Broadcast(s.sending.update, s.sending.remaining - {c}))
    ensures ok <==> !Unreached(s, broken, c)
  {
    var u := s.sending.update;
    t := s.(sending := Broadcast(u, s.sending.remaining - {c}));
    ok := true;
    if s.links[c].IsConnected() {
      if c in broken {
        ok := false;
        t := t.(links := s.links[c := s.links[c].Lose()]);
      } else {
        t := t.(copies := s.copies[c := Set(s.copies[c], u.path, u.value)]);
      }
    }
    assert s.copies[c := s.copies[c]] == s.copies && s.links[c := s.links[c]] == s.links;
  }

  /** All but the rest have been sent the update. */
  ghost predicate Partway(s: System, t: System, u: Update, broken: set<Compute>, rest: set<Compute>) {
    && t == s.(cap := Set(s.cap, u.path, u.value), copies := t.copies, links := t.links, sending := Broadcast(u, rest))
    && t.copies.Keys == s.copies.Keys && t.links.Keys == s.links.Keys
    && (forall c :: c in s.copies ==> t.copies[c] == if c in rest then s.copies[c] else CopyAfter(s, u, broken, c))
    && (forall c :: c in s.links ==> t.links[c] == if c in rest then s.links[c] else LinkAfter(s, broken, c))
  }

  lemma PartwayOn(s: System, t: System, u: Update, broken: set<Compute>, rest: set<Compute>, c: Compute, n: System)
    requires Partway(s, t, u, broken, rest) && c in rest && c in s.copies && c in s.links
    requires n == t.(copies := t.copies[c := CopyAfter(t, u, broken, c)], links := t.links[c := LinkAfter(t, broken, c)],
                     sending := Broadcast(u, rest - {c}))
    ensures Partway(s, n, u, broken, rest - {c})
  {
    assert CopyAfter(t, u, broken, c) == CopyAfter(s, u, broken, c);
    assert LinkAfter(t, broken, c) == LinkAfter(s, broken, c);
  }

  /** The loop over the umbilicals goes on after a failed send, and leaves nothing to send. */
  method PropagateUpdate(s: System, u: Update, broken: set<Compute>) returns (t: System, ok: bool)
    requires s.sending == Idle && s.copies.Keys == s.links.Keys
    ensures t == s.(cap := Set(s.cap, u.path, u.value), copies := Everywhere(s, u, broken), links := LinksAfter(s, broken))
    ensures ok <==> forall c :: !Unreached(s, broken, c)
  {
    t := Propagate(s, u);
    ok := true;
    var rest := s.links.Keys;
    while rest != {}
      invariant rest <= s.links.Keys
      invariant Partway(s, t, u, broken, rest)
      invariant ok <==> forall c :: Unreached(s, broken, c) ==> c in rest
      decreases |rest|
    {
      var c :| c in rest;
      ghost var before := t;
      var sent;
      t, sent := SendOne(t, c, broken);
      PartwayOn(s, before, u, broken, rest, c, t);
      ok := ok && sent;
      rest := rest - {c};
    }
    t := t.(sending := Idle);
    assert t.copies == Everywhere(s, u, broken) && t.links == LinksAfter(s, broken);
  }
}
