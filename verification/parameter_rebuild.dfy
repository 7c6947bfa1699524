/**
 * A server flattened into its leaves and rebuilt elsewhere by setting each of them, in any order.
 */
module ParameterRebuild {
  import opened ParameterNames
  import opened ParameterTrees
  import opened ParameterLaws

  datatype Parameter = Parameter(name: string, value: Value)

  /** A node with no entry under it, not even an empty one. */
  predicate IsLeaf(t: Tree, p: Path) {
    p in t.values && Names(t.values.Keys, p) == {} && Names(t.holes, p) == {}
  }

  /** The paths are the leaves of the tree, each once. */
  ghost predicate ListsLeaves(t: Tree, leaves: seq<Path>) {
    && (forall i, j | 0 <= i < j < |leaves| :: leaves[i] != leaves[j])
    && (forall p :: p in leaves <==> IsLeaf(t, p))
  }

  function Flattened(t: Tree, leaves: seq<Path>): seq<Parameter>
    requires forall p | p in leaves :: p in t.values
  {
    seq(|leaves|, i requires 0 <= i < |leaves| => Parameter(FullName(leaves[i]), t.values[leaves[i]]))
  }

  /** Setting the parameters one after the other. */
  function SetEach(t: Tree, params: seq<Parameter>): Tree {
    if params == [] then t
    else
      var before := params[..|params|-1];
      var last := params[|params|-1];
      Set(SetEach(t, before), Parse(last.name), last.value)
  }

  /** Clearing and setting each: what an upload leaves on the receiving server. */
  function Uploaded(params: seq<Parameter>): Tree {
    SetEach(EMPTY_TREE, params)
  }

  lemma {:induction false} SetEachKeeps(t: Tree, params: seq<Parameter>)
    requires Closed(t)
    ensures Closed(SetEach(t, params)) && SetEach(t, params).holes <= t.holes
    ensures (forall p | p in t.values :: Canonical(p)) && (forall i | 0 <= i < |params| :: !params[i].value.Map?)
        ==> forall p | p in SetEach(t, params).values :: Canonical(p)
    decreases |params|
  {
    if params != [] {
      var before := params[..|params|-1];
      var last := params[|params|-1];
      var p := Parse(last.name);
      SetEachKeeps(t, before);
      ParseCanonical(last.name);
      var u := SetEach(t, before);
      SetKeeps(u, p, last.value);
      if (forall q | q in u.values :: Canonical(q)) && !last.value.Map? {
        forall q | q in Set(u, p, last.value).values ensures Canonical(q) {
          InPrefixes(p, q);
        }
      }
    }
  }

  // ---------------------------------------------------------------- the rebuilt tree

  /** The path is on the way to one of the first n. */
  ghost predicate Leads(q: Path, leaves: seq<Path>, n: nat)
    requires n <= |leaves|
  {
    q != [] && exists i :: 0 <= i < n && q <= leaves[i]
  }

  /** The first n leaves are in place, and nothing but what leads to them. */
  ghost predicate Placed(t: Tree, u: Tree, leaves: seq<Path>, n: nat)
    requires n <= |leaves|
  {
    && u.holes == {}
    && (forall q :: q in u.values <==> Leads(q, leaves, n))
    && (forall i | 0 <= i < n :: leaves[i] in t.values && leaves[i] in u.values && u.values[leaves[i]] == t.values[leaves[i]])
  }

  lemma LeadsStep(q: Path, leaves: seq<Path>, n: nat)
    requires n < |leaves|
    ensures Leads(q, leaves, n + 1) <==> Leads(q, leaves, n) || (q != [] && q <= leaves[n])
  {
    if Leads(q, leaves, n + 1) {
      var i :| 0 <= i < n + 1 && q <= leaves[i];
    }
    if Leads(q, leaves, n) {
      var i :| 0 <= i < n && q <= leaves[i];
      assert 0 <= i < n + 1;
    }
    if q != [] && q <= leaves[n] {
      assert 0 <= n < n + 1;
    }
  }

  /** No leaf lies above another node. */
  lemma NothingBelowLeaf(t: Tree, p: Path, q: Path)
    requires Closed(t) && IsLeaf(t, p) && p < q
    ensures q !in t.values
  {
    NamesAre(t.values.Keys, p, q[|p|]);
    if q in t.values {
      PrefixIn(t, q, p + [q[|p|]]);
    }
  }

  lemma AmongLeaves(t: Tree, leaves: seq<Path>, i: nat)
    requires Closed(t) && ListsLeaves(t, leaves) && i < |leaves|
    ensures IsLeaf(t, leaves[i]) && !t.values[leaves[i]].Map? && leaves[i] != []
  {
    assert leaves[i] in leaves;
    assert IsLeaf(t, leaves[i]);
    assert Rooted(t.values, leaves[i]);
  }

  /** Where a scalar set at a path with nothing below puts nodes. */
  lemma SetAtLeaf(u: Tree, p: Path, v: Value, q: Path)
    requires p != [] && !v.Map? && !(p < q)
    ensures q in Set(u, p, v).values <==> q in u.values || (q != [] && q <= p)
    ensures q in u.values && q != p ==> Set(u, p, v).values[q] == u.values[q]
  {
    InPrefixes(p, q);
  }

  lemma SetBelowLeaf(u: Tree, p: Path, v: Value, q: Path)
    requires p != [] && !v.Map? && p < q
    ensures q !in Set(u, p, v).values
  {
  }

  lemma SetSelf(u: Tree, p: Path, v: Value)
    requires p != [] && !v.Map?
    ensures p in Set(u, p, v).values && Set(u, p, v).values[p] == v
  {
  }

  /** Leaves are not on the way to each other. */
  lemma LeavesApart(t: Tree, leaves: seq<Path>, n: nat, q: Path)
    requires Closed(t) && ListsLeaves(t, leaves) && n < |leaves| && leaves[n] < q
    ensures !Leads(q, leaves, n) && q !in leaves
  {
    AmongLeaves(t, leaves, n);
    forall i | 0 <= i < |leaves| ensures !(q <= leaves[i]) {
      AmongLeaves(t, leaves, i);
      if q <= leaves[i] {
        NothingBelowLeaf(t, leaves[n], leaves[i]);
      }
    }
  }

  lemma PlaceShape(t: Tree, u: Tree, leaves: seq<Path>, n: nat, v: Value, q: Path)
    requires Closed(t) && ListsLeaves(t, leaves) && n < |leaves| && Placed(t, u, leaves, n) && !v.Map?
    ensures q in Set(u, leaves[n], v).values <==> Leads(q, leaves, n + 1)
  {
    AmongLeaves(t, leaves, n);
    LeadsStep(q, leaves, n);
    if leaves[n] < q {
      LeavesApart(t, leaves, n, q);
      SetBelowLeaf(u, leaves[n], v, q);
    } else {
      SetAtLeaf(u, leaves[n], v, q);
    }
  }

  lemma PlaceShapes(t: Tree, u: Tree, leaves: seq<Path>, n: nat, v: Value)
    requires Closed(t) && ListsLeaves(t, leaves) && n < |leaves| && Placed(t, u, leaves, n) && !v.Map?
    ensures Set(u, leaves[n], v).holes == {}
    ensures forall q :: q in Set(u, leaves[n], v).values <==> Leads(q, leaves, n + 1)
  {
    forall q ensures q in Set(u, leaves[n], v).values <==> Leads(q, leaves, n + 1) {
      PlaceShape(t, u, leaves, n, v, q);
    }
  }

  lemma PlaceValue(t: Tree, u: Tree, leaves: seq<Path>, n: nat, i: nat)
    requires Closed(t) && ListsLeaves(t, leaves) && i <= n < |leaves| && Placed(t, u, leaves, n)
    ensures leaves[i] in t.values && leaves[n] in t.values
    ensures var w := Set(u, leaves[n], t.values[leaves[n]]); leaves[i] in w.values && w.values[leaves[i]] == t.values[leaves[i]]
  {
    var p := leaves[n];
    AmongLeaves(t, leaves, n);
    AmongLeaves(t, leaves, i);
    if i == n {
      SetSelf(u, p, t.values[p]);
    } else {
      if p < leaves[i] {
        LeavesApart(t, leaves, n, leaves[i]);
      }
      SetAtLeaf(u, p, t.values[p], leaves[i]);
    }
  }

  lemma PlaceNext(t: Tree, u: Tree, leaves: seq<Path>, n: nat)
    requires Closed(t) && ListsLeaves(t, leaves) && n < |leaves| && Placed(t, u, leaves, n)
    ensures leaves[n] in t.values && !t.values[leaves[n]].Map?
    ensures Placed(t, Set(u, leaves[n], t.values[leaves[n]]), leaves, n + 1)
  {
    var p := leaves[n];
    AmongLeaves(t, leaves, n);
    var v := t.values[p];
    var w := Set(u, p, v);
    PlaceShapes(t, u, leaves, n, v);
    forall i | 0 <= i < n + 1
      ensures leaves[i] in t.values && leaves[i] in w.values && w.values[leaves[i]] == t.values[leaves[i]]
    {
      PlaceValue(t, u, leaves, n, i);
    }
  }

  lemma FlattenedAt(t: Tree, leaves: seq<Path>, n: nat)
    requires forall p | p in leaves :: p in t.values
    requires 0 < n <= |leaves|
    ensures |Flattened(t, leaves)| == |leaves| && leaves[n-1] in leaves
    ensures Flattened(t, leaves)[..n][..n-1] == Flattened(t, leaves)[..n-1]
    ensures Flattened(t, leaves)[..n][n-1] == Parameter(FullName(leaves[n-1]), t.values[leaves[n-1]])
  {
  }

  lemma UploadedNext(t: Tree, leaves: seq<Path>, n: nat)
    requires forall p | p in leaves :: p in t.values && Canonical(p)
    requires 0 < n <= |leaves|
    ensures |Flattened(t, leaves)| == |leaves| && leaves[n-1] in leaves
    ensures Uploaded(Flattened(t, leaves)[..n])
         == Set(Uploaded(Flattened(t, leaves)[..n-1]), leaves[n-1], t.values[leaves[n-1]])
  {
    FlattenedAt(t, leaves, n);
    FullNameRoundTrip(leaves[n-1]);
  }

  lemma {:induction false} PlaceAll(t: Tree, leaves: seq<Path>, n: nat)
    requires Closed(t) && ListsLeaves(t, leaves) && n <= |leaves|
    requires forall p | p in leaves :: p in t.values && Canonical(p)
    ensures |Flattened(t, leaves)| == |leaves|
    ensures Placed(t, Uploaded(Flattened(t, leaves)[..n]), leaves, n)
    decreases n
  {
    if n > 0 {
      PlaceAll(t, leaves, n - 1);
      UploadedNext(t, leaves, n);
      PlaceNext(t, Uploaded(Flattened(t, leaves)[..n-1]), leaves, n - 1);
    } else {
      assert Uploaded(Flattened(t, leaves)[..0]) == EMPTY_TREE;
      assert forall q :: !Leads(q, leaves, 0);
    }
  }

  /** Lookups have left empty entries with the server itself at most, not with a node. */
  predicate Unpoisoned(t: Tree) {
    forall h | h in t.holes :: |h| == 1
  }

  lemma NoHoleUnder(t: Tree, p: Path)
    requires Unpoisoned(t) && p != []
    ensures Names(t.holes, p) == {} && !HoleBelow(t, p)
  {
  }

  /** Below every node of such a tree there is a leaf. */
  lemma {:induction false} LeafBelow(t: Tree, p: Path) returns (leaf: Path)
    requires p in t.values && p != [] && Unpoisoned(t)
    ensures p <= leaf && IsLeaf(t, leaf)
    decreases BelowIn(t.values.Keys, p)
  {
    NoHoleUnder(t, p);
    if Names(t.values.Keys, p) == {} {
      leaf := p;
    } else {
      var k :| k in Names(t.values.Keys, p);
      NamesAre(t.values.Keys, p, k);
      BelowShrinks(t.values.Keys, p, k);
      leaf := LeafBelow(t, p + [k]);
    }
  }

  lemma RebuiltHas(t: Tree, leaves: seq<Path>, q: Path)
    requires Closed(t) && Unpoisoned(t) && ListsLeaves(t, leaves)
    ensures q in t.values <==> Leads(q, leaves, |leaves|)
  {
    if q in t.values {
      assert Rooted(t.values, q);
      var leaf := LeafBelow(t, q);
      assert leaf in leaves;
    }
    if Leads(q, leaves, |leaves|) {
      var i :| 0 <= i < |leaves| && q <= leaves[i];
      AmongLeaves(t, leaves, i);
      PrefixIn(t, leaves[i], q);
    }
  }

  lemma RebuiltAlike(t: Tree, u: Tree, leaves: seq<Path>)
    requires Closed(t) && Unpoisoned(t) && ListsLeaves(t, leaves) && Placed(t, u, leaves, |leaves|)
    ensures forall q :: q in t.values <==> q in u.values
    ensures forall q :: q in t.values && IsLeaf(t, q) ==> u.values[q] == t.values[q]
  {
    forall q ensures q in t.values <==> q in u.values {
      RebuiltHas(t, leaves, q);
    }
    forall q | q in t.values && IsLeaf(t, q) ensures u.values[q] == t.values[q] {
      assert q in leaves;
    }
  }

  lemma SameAnswers(t: Tree, u: Tree, q: Path)
    requires Closed(t) && Unpoisoned(t) && u.holes == {}
    requires forall p :: p in t.values <==> p in u.values
    requires forall p :: p in t.values && IsLeaf(t, p) ==> u.values[p] == t.values[p]
    ensures Get(u, q) == Get(t, q)
  {
    if q in t.values {
      assert Rooted(t.values, q);
      NoHoleUnder(t, q);
      LeavesAlike(t, u, q);
      SameValueAt(t.values, u.values, q);
    }
  }

  lemma LeavesAlike(t: Tree, u: Tree, q: Path)
    requires Closed(t) && Unpoisoned(t)
    requires forall p :: p in t.values <==> p in u.values
    requires forall p :: p in t.values && IsLeaf(t, p) ==> u.values[p] == t.values[p]
    ensures Alike(t.values, u.values, q)
  {
    forall w | w in t.values && Names(t.values.Keys, w) == {} ensures IsLeaf(t, w) {
      assert Rooted(t.values, w);
      NoHoleUnder(t, w);
    }
  }

  /** A server rebuilt from its leaves, in whatever order, answers every lookup as the original. */
  lemma RebuildAnswersAlike(t: Tree, leaves: seq<Path>, q: Path)
    requires Closed(t) && Unpoisoned(t) && ListsLeaves(t, leaves)
    requires forall p | p in leaves :: Canonical(p)
    ensures Get(Uploaded(Flattened(t, leaves)), q) == Get(t, q)
  {
    ListedPresent(t, leaves);
    PlaceAll(t, leaves, |leaves|);
    assert Flattened(t, leaves)[..|leaves|] == Flattened(t, leaves);
    RebuiltAlike(t, Uploaded(Flattened(t, leaves)), leaves);
    SameAnswers(t, Uploaded(Flattened(t, leaves)), q);
  }

  /** What some name would be answered on two servers. */
  predicate AnswersAlike(t: Tree, u: Tree, name: string) {
    Get(t, Parse(name)) == Get(u, Parse(name))
  }

  lemma RootName(k: string)
    requires SlashFree(k)
    ensures Parse(k) == [k]
  {
    FullNameRoundTrip([k]);
    assert Canonical([k]) && Join([k]) == k;
  }

  lemma OddLeafLost(t: Tree, u: Tree, p: Path)
    requires Closed(t) && Unpoisoned(t) && p in t.values && !Canonical(p) && p != [] && SlashFree(p[0])
    requires Closed(u) && u.holes == {} && forall q | q in u.values :: Canonical(q)
    ensures !AnswersAlike(t, u, p[0])
  {
    var root := [p[0]];
    RootName(p[0]);
    PrefixIn(t, p, root);
    NoHoleUnder(t, root);
    assert p == root + p[1..];
    assert Found(ValueAt(t.values, root)) == Get(t, root);
    AtValueAt(t, root, p[1..]);
    if root in u.values {
      AtValueAt(u, root, p[1..]);
    }
  }

  /** An empty entry with a node is a null pointer that only the original follows. */
  lemma DeepHoleLost(t: Tree, u: Tree, h: Path)
    requires Closed(t) && NamedRoots(t) && h in t.holes && |h| != 1 && u.holes == {}
    ensures h != [] && !AnswersAlike(t, u, h[0])
  {
    var root := [h[0]];
    AboveHole(t, h, root);
    assert SlashFree(root[0]);
    RootName(h[0]);
    assert HoleBelow(t, root) by { assert root < h; }
  }

  /** What an upload carries over: no empty entry with a node, and every leaf at a path that parsing can produce. */
  ghost predicate Uploadable(t: Tree) {
    Unpoisoned(t) && forall p | IsLeaf(t, p) :: Canonical(p)
  }

  /**
   * The rebuilt server answers every name as the original exactly when no failed lookup has left an
   * empty entry with a node, and every leaf's path is one that parsing can produce; a map key with a
   * slash, or an empty one that is not last, breaks it.
   */
  lemma RebuildExactly(t: Tree, leaves: seq<Path>)
    requires Closed(t) && NamedRoots(t) && ListsLeaves(t, leaves)
    ensures forall p | p in leaves :: p in t.values
    ensures (forall name :: AnswersAlike(t, Uploaded(Flattened(t, leaves)), name)) <==> Uploadable(t)
  {
    ListedPresent(t, leaves);
    if !Unpoisoned(t) {
      var h :| h in t.holes && |h| != 1;
      SetEachKeeps(EMPTY_TREE, Flattened(t, leaves));
      DeepHoleLost(t, Uploaded(Flattened(t, leaves)), h);
    } else if Uploadable(t) {
      AnswersAll(t, leaves);
    } else {
      var p :| IsLeaf(t, p) && !Canonical(p);
      assert p in leaves;
      OddLeafShows(t, leaves, p);
    }
  }

  lemma ListedPresent(t: Tree, leaves: seq<Path>)
    requires ListsLeaves(t, leaves)
    ensures forall p | p in leaves :: p in t.values
  {
    forall p | p in leaves ensures p in t.values {
      assert IsLeaf(t, p);
    }
  }

  lemma AnswersAll(t: Tree, leaves: seq<Path>)
    requires Closed(t) && Uploadable(t) && ListsLeaves(t, leaves)
    requires forall p | p in leaves :: p in t.values
    ensures forall name :: AnswersAlike(t, Uploaded(Flattened(t, leaves)), name)
  {
    forall p | p in leaves ensures Canonical(p) {
      assert IsLeaf(t, p);
    }
    forall name ensures AnswersAlike(t, Uploaded(Flattened(t, leaves)), name) {
      RebuildAnswersAlike(t, leaves, Parse(name));
    }
  }

  lemma FlattenedScalar(t: Tree, leaves: seq<Path>)
    requires Closed(t) && forall p | p in leaves :: p in t.values
    ensures forall i | 0 <= i < |Flattened(t, leaves)| :: !Flattened(t, leaves)[i].value.Map?
  {
    forall i | 0 <= i < |leaves| ensures !t.values[leaves[i]].Map? {
      assert leaves[i] in leaves;
    }
  }

  lemma OddLeafShows(t: Tree, leaves: seq<Path>, p: Path)
    requires Closed(t) && NamedRoots(t) && Unpoisoned(t)
    requires IsLeaf(t, p) && !Canonical(p) && forall q | q in leaves :: q in t.values
    ensures p != [] && !AnswersAlike(t, Uploaded(Flattened(t, leaves)), p[0])
  {
    assert Rooted(t.values, p);
    FlattenedScalar(t, leaves);
    SetEachKeeps(EMPTY_TREE, Flattened(t, leaves));
    OddLeafLost(t, Uploaded(Flattened(t, leaves)), p);
  }

  /** A lookup hides exactly the leaves above the path looked up from flattening. */
  lemma LookupHidesLeaf(t: Tree, p: Path, q: Path)
    requires Closed(t) && p != []
    ensures IsLeaf(Looked(t, p), q) <==> IsLeaf(t, q) && !(q < p)
  {
    if IsLeaf(t, q) {
      assert Rooted(t.values, q);
      if p in t.values {
        if q < p {
          NothingBelowLeaf(t, q, p);
        }
      } else {
        HiddenExactly(t, p, q);
      }
    }
  }

  lemma GapJustBelow(t: Tree, p: Path, q: Path, g: Path)
    requires Closed(t) && q in t.values && q != [] && q < p && g != [] && g <= p && g !in t.values
    requires q + [p[|q|]] !in t.values && forall r :: r != [] && r < g ==> r in t.values
    ensures g == q + [p[|q|]]
  {
    var r := q + [p[|q|]];
    assert r <= p;
    assert |g| <= |q| ==> g <= q;
    assert |r| < |g| ==> r < g;
    assert |r| == |g| ==> r == g;
    if g <= q {
      PrefixIn(t, q, g);
    }
  }

  lemma HiddenExactly(t: Tree, p: Path, q: Path)
    requires Closed(t) && p != [] && p !in t.values && IsLeaf(t, q) && q != []
    ensures Names(Looked(t, p).holes, q) == {} <==> !(q < p)
  {
    var g := Gap(t.values, p, 1);
    GapIs(t.values, p, 1);
    forall k ensures k in Names(Looked(t, p).holes, q) <==> g == q + [k] {
      NamesAre(Looked(t, p).holes, q, k);
      NamesAre(t.holes, q, k);
    }
    if q < p {
      var k := p[|q|];
      assert q + [k] <= p;
      NamesAre(t.values.Keys, q, k);
      assert q + [k] !in t.values;
      GapJustBelow(t, p, q, g);
      assert k in Names(Looked(t, p).holes, q);
    }
  }
}
