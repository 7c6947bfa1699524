/** What the single steps of the server's loops do to its tree. */
module ParameterSteps {
  import opened ParameterNames
  import opened ParameterTrees
  import opened ParameterLaws
  import opened ParameterRebuild

  /** The tree with a node at one more path. */
  function Created(t: Tree, q: Path): Tree {
    Tree(if q in t.values then t.values else t.values[q := Unset], t.holes - {q})
  }

  lemma ReachedNothing(t: Tree)
    ensures Reached(t, []) == t
  {
    assert Prefixes([]) == {};
  }

  lemma ReachedStep(t: Tree, p: Path, i: nat)
    requires i < |p|
    ensures p[..i] + [p[i]] == p[..i+1]
    ensures Reached(t, p[..i+1]) == Created(Reached(t, p[..i]), p[..i+1])
  {
    forall q ensures q in Prefixes(p[..i+1]) <==> q in Prefixes(p[..i]) || q == p[..i+1] {
      InPrefixes(p[..i], q);
      InPrefixes(p[..i+1], q);
    }
    assert Prefixes(p[..i+1]) == Prefixes(p[..i]) + {p[..i+1]};
  }

  lemma MergeNothing(t: Tree, p: Path)
    requires p in t.values && p !in t.holes
    ensures Merge(t, p, Map(map[])) == t
  {
    assert Under(p, Map(map[])) == {p} by {
      assert p + [] == p;
      forall q ensures q in Under(p, Map(map[])) <==> q == p {
        UnderAre(p, Map(map[]), q);
      }
    }
  }

  /** What storing one entry of a map below a node does. */
  function Stored(t: Tree, q: Path, v: Value): Tree {
    var u := Created(t, q);
    if v.Map? then Merge(u, q, v) else Tree(u.values[q := v], u.holes)
  }

  lemma AtOneMore(done: map<string, Value>, k: string, v: Value, r: Path)
    requires k !in done && r != []
    ensures At(Map(done[k := v]), r) == if r[0] == k then At(v, r[1..]) else At(Map(done), r)
    ensures r[0] == k ==> At(Map(done), r) == []
  {
  }

  lemma UnderOneMore(p: Path, done: map<string, Value>, k: string, v: Value, q: Path)
    requires k !in done
    ensures q in Under(p, Map(done[k := v])) <==> q in Under(p, Map(done)) || q in Under(p + [k], v)
    ensures p + [k] in Under(p + [k], v)
  {
    UnderAre(p, Map(done[k := v]), q);
    UnderAre(p, Map(done), q);
    UnderAre(p + [k], v, q);
    UnderAre(p + [k], v, p + [k]);
    if p < q {
      var r := q[|p|..];
      AtOneMore(done, k, v, r);
      assert p + [k] <= q <==> r[0] == k;
      assert p + [k] <= q ==> q[|p|+1..] == r[1..];
    }
  }

  lemma MergedOneMore(values: map<Path, Value>, p: Path, done: map<string, Value>, k: string, v: Value, q: Path)
    requires k !in done
    ensures p + [k] <= q ==> Merged(values, p, Map(done), q) == ValueOr(values, q)
    ensures p + [k] < q ==> Merged(values, p, Map(done[k := v]), q) == Merged(values, p + [k], v, q)
    ensures q == p + [k] ==>
      Merged(values, p, Map(done[k := v]), q) == if v.Map? then ValueOr(values, q) else v
    ensures !(p + [k] <= q) ==> Merged(values, p, Map(done[k := v]), q) == Merged(values, p, Map(done), q)
  {
    if p < q {
      var r := q[|p|..];
      AtOneMore(done, k, v, r);
      assert p + [k] <= q <==> r[0] == k;
      assert p + [k] <= q ==> q[|p|+1..] == r[1..];
    }
  }

  lemma MergeStepValue(t: Tree, p: Path, done: map<string, Value>, k: string, v: Value, q: Path)
    requires k !in done && q in Merge(t, p, Map(done[k := v])).values
    ensures q in Stored(Merge(t, p, Map(done)), p + [k], v).values
    ensures Merge(t, p, Map(done[k := v])).values[q] == Stored(Merge(t, p, Map(done)), p + [k], v).values[q]
  {
    UnderOneMore(p, done, k, v, q);
    MergedOneMore(t.values, p, done, k, v, q);
    UnderAre(p + [k], v, q);
    UnderAre(p, Map(done), q);
    if p + [k] <= q {
      AtOneMore(done, k, v, q[|p|..]);
      assert q !in Under(p, Map(done));
      if !v.Map? && q != p + [k] {
        assert At(v, q[|p|+1..]) == [];
      }
    }
  }

  /** Merging one more entry stores it below what was merged already. */
  lemma MergeStep(t: Tree, p: Path, done: map<string, Value>, k: string, v: Value)
    requires k !in done
    ensures Merge(t, p, Map(done[k := v])) == Stored(Merge(t, p, Map(done)), p + [k], v)
  {
    var a := Merge(t, p, Map(done[k := v]));
    var b := Stored(Merge(t, p, Map(done)), p + [k], v);
    forall q ensures q in a.values <==> q in b.values
      ensures q in a.holes <==> q in b.holes
    {
      UnderOneMore(p, done, k, v, q);
      UnderAre(p + [k], v, q);
      if !v.Map? && p + [k] <= q && q != p + [k] {
        assert At(v, q[|p|+1..]) == [];
      }
    }
    forall q | q in a.values ensures a.values[q] == b.values[q] {
      MergeStepValue(t, p, done, k, v, q);
    }
    assert a.values == b.values && a.holes == b.holes;
  }

  /** A lookup stops at the first prefix that is missing. */
  lemma MissingOnWay(t: Tree, p: Path, i: nat)
    requires Closed(t) && 1 <= i <= |p| && p[..i] !in t.values
    requires i > 1 ==> p[..i-1] in t.values
    ensures p !in t.values && Looked(t, p) == Tree(t.values, t.holes + {p[..i]})
  {
    if p in t.values {
      PrefixIn(t, p, p[..i]);
    }
    forall j | 1 <= j < i ensures p[..j] in t.values {
      PrefixIn(t, p[..i-1], p[..j]);
    }
    GapStops(t.values, p, 1, i);
  }

  lemma {:induction false} GapStops(values: map<Path, Value>, p: Path, j: nat, i: nat)
    requires 1 <= j <= i <= |p| && p[..i] !in values
    requires forall k | j <= k < i :: p[..k] in values
    ensures Gap(values, p, j) == p[..i]
    decreases i - j
  {
    if j < i {
      GapStops(values, p, j + 1, i);
    }
  }

  /** With no entry under a node there is no hole below it, and its value is its own. */
  lemma LeafNoHole(t: Tree, p: Path)
    requires Closed(t) && p in t.values
    ensures Names(t.values.Keys, p) == {} && Names(t.holes, p) == {} ==>
      !HoleBelow(t, p) && ValueAt(t.values, p) == t.values[p]
  {
    if Names(t.values.Keys, p) == {} && Names(t.holes, p) == {} {
      forall h | h in t.holes ensures !(p < h) {
        if p < h {
          HoleUnder(t, p, h);
          NamesAre(t.values.Keys, p, h[|p|]);
          NamesAre(t.holes, p, h[|p|]);
        }
      }
    }
  }

  /** The entry through which a hole below a node is reached. */
  lemma HoleUnder(t: Tree, p: Path, h: Path)
    requires Closed(t) && h in t.holes && p < h
    ensures p + [h[|p|]] in t.holes || (p + [h[|p|]] in t.values && HoleBelow(t, p + [h[|p|]]))
  {
    var q := p + [h[|p|]];
    assert q <= h;
    if q != h {
      AboveHole(t, h, q);
    } else {
      assert q in t.holes;
    }
  }

  lemma HoleFurther(t: Tree, p: Path, k: string)
    requires HoleBelow(t, p + [k])
    ensures HoleBelow(t, p)
  {
    var h :| h in t.holes && p + [k] < h;
    assert p < h;
  }

  /** The map holds the right values of some of a node's children, none of them above a hole. */
  ghost predicate Gathered(t: Tree, p: Path, m: map<string, Value>) {
    forall k :: k in m ==> p + [k] in t.values && m[k] == ValueAt(t.values, p + [k]) && !HoleBelow(t, p + [k])
  }

  lemma NoHoleThrough(t: Tree, p: Path, m: map<string, Value>, h: Path)
    requires Closed(t) && Gathered(t, p, m)
    requires forall k :: k in m <==> p + [k] in t.values || p + [k] in t.holes
    ensures h in t.holes ==> !(p < h)
  {
    if h in t.holes && p < h {
      var k := h[|p|];
      HoleUnder(t, p, h);
    }
  }

  lemma Assembled(t: Tree, p: Path, m: map<string, Value>)
    requires Closed(t) && p in t.values && m != map[] && Gathered(t, p, m)
    requires forall k :: k in m <==> p + [k] in t.values || p + [k] in t.holes
    ensures !HoleBelow(t, p) && ValueAt(t.values, p) == Map(m)
  {
    forall h ensures h in t.holes ==> !(p < h) {
      NoHoleThrough(t, p, m, h);
    }
    NamesOfMap(t.values.Keys, p, m);
    AssembledValue(t.values, p, m);
  }

  lemma NamesOfMap(keys: set<Path>, p: Path, m: map<string, Value>)
    requires forall k :: k in m <==> p + [k] in keys
    ensures Names(keys, p) == m.Keys
  {
    forall k ensures k in Names(keys, p) <==> k in m {
      NamesAre(keys, p, k);
    }
  }

  /** No entry where the way to a path needs one: there is nothing to delete. */
  lemma NothingToDelete(t: Tree, p: Path, i: nat)
    requires Closed(t) && i < |p| && (i == 0 || p[..i] in t.values)
    requires p[..i+1] !in t.values && p[..i+1] !in t.holes
    ensures Delete(t, p) == (NoSuchParameter, t)
  {
    var g := p[..i+1];
    assert g <= p;
    assert p in t.values ==> g in t.values by {
      if p in t.values {
        PrefixIn(t, p, g);
      }
    }
    assert p in t.holes ==> p == g || g in t.values by {
      if p in t.holes && g < p {
        AboveHole(t, p, g);
      }
    }
    forall h | h in t.holes ensures !(h < p) {
      OnTheWay(t, p, i, h);
    }
  }

  lemma OnTheWay(t: Tree, p: Path, i: nat, h: Path)
    requires Closed(t) && i < |p| && (i == 0 || p[..i] in t.values)
    requires p[..i+1] !in t.values && p[..i+1] !in t.holes && h in t.holes
    ensures !(h < p)
  {
    var g := p[..i+1];
    assert h != [];
    assert |h| == |g| && h < p ==> h == g;
    if h < p {
      if h < g {
        assert h <= p[..i];
        PrefixIn(t, p[..i], h);
      } else if g < h {
        AboveHole(t, h, g);
      }
    }
  }

  /** A node or a hole hanging from a node can be deleted. */
  lemma PresentToDelete(t: Tree, p: Path)
    requires Closed(t) && (p in t.values || p in t.holes)
    ensures Delete(t, p).0 == Deleted
  {
    forall h | h in t.holes ensures !(h < p) {
      if h < p {
        assert h <= Parent(p);
        PrefixIn(t, Parent(p), h);
      }
    }
  }

  predicate AtOrBelow(p: Path, q: Path) {
    p <= q
  }

  /** Below p, but not through an entry that is still to come. */
  predicate ThroughDone(p: Path, rest: set<string>, q: Path) {
    p < q && q[|p|] !in rest
  }

  /** The leaves of a part of the tree, each once. */
  ghost predicate LeavesAmong(t: Tree, leaves: seq<Path>, part: iset<Path>) {
    && (forall i, j | 0 <= i < j < |leaves| :: leaves[i] != leaves[j])
    && (forall q :: q in leaves <==> IsLeaf(t, q) && q in part)
  }

  lemma OneLeaf(t: Tree, p: Path)
    requires Closed(t) && IsLeaf(t, p)
    ensures LeavesAmong(t, [p], iset q | AtOrBelow(p, q))
    ensures Flattened(t, [p]) == [Parameter(FullName(p), t.values[p])]
  {
    forall q ensures q in [p] <==> IsLeaf(t, q) && AtOrBelow(p, q) {
      assert p <= q && !(p < q) ==> q == p;
      if p < q {
        NothingBelowLeaf(t, p, q);
      }
    }
  }

  lemma LeavesNone(t: Tree, p: Path, rest: set<string>)
    requires Closed(t) && forall k :: p + [k] in t.values ==> k in rest
    ensures LeavesAmong(t, [], iset q | ThroughDone(p, rest, q))
  {
    forall q ensures !(IsLeaf(t, q) && ThroughDone(p, rest, q)) {
      if q in t.values && p < q {
        PrefixIn(t, q, p + [q[|p|]]);
      }
    }
  }

  lemma LeavesMore(t: Tree, p: Path, rest: set<string>, k: string, leaves: seq<Path>, more: seq<Path>)
    requires k in rest && LeavesAmong(t, leaves, iset q | ThroughDone(p, rest, q))
    requires LeavesAmong(t, more, iset q | AtOrBelow(p + [k], q))
    ensures LeavesAmong(t, leaves + more, iset q | ThroughDone(p, rest - {k}, q))
    ensures Flattened(t, leaves + more) == Flattened(t, leaves) + Flattened(t, more)
  {
    var all := leaves + more;
    forall q ensures AtOrBelow(p + [k], q) <==> p < q && q[|p|] == k {
    }
    forall q ensures q in all <==> IsLeaf(t, q) && ThroughDone(p, rest - {k}, q) {
      assert q in all <==> q in leaves || q in more;
    }
    forall i, j | 0 <= i < j < |all| ensures all[i] != all[j] {
      if i < |leaves| && |leaves| <= j {
        assert all[i] in leaves && all[j] in more;
      }
    }
  }

  lemma LeavesSkip(t: Tree, p: Path, rest: set<string>, k: string, leaves: seq<Path>)
    requires Closed(t) && LeavesAmong(t, leaves, iset q | ThroughDone(p, rest, q))
    requires p + [k] !in t.values
    ensures LeavesAmong(t, leaves, iset q | ThroughDone(p, rest - {k}, q))
  {
    forall q ensures q in leaves <==> IsLeaf(t, q) && ThroughDone(p, rest - {k}, q) {
      if q in t.values && p < q && q[|p|] == k {
        PrefixIn(t, q, p + [k]);
      }
    }
  }

  lemma LeavesAll(t: Tree, p: Path, leaves: seq<Path>)
    requires LeavesAmong(t, leaves, iset q | ThroughDone(p, {}, q)) && !IsLeaf(t, p)
    ensures LeavesAmong(t, leaves, iset q | AtOrBelow(p, q))
  {
    forall q ensures q in leaves <==> IsLeaf(t, q) && AtOrBelow(p, q) {
      assert p <= q && !(p < q) ==> q == p;
    }
  }
}
