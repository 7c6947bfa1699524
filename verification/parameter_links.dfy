/** How the nodes of a parameter server hang together, as a value taken from the heap. */
module ParameterLinks {
  import opened ParameterNames
  import opened ParameterTrees
  import opened ParameterLaws

  class ParameterNode {
    const name: string
    var value: Value
    var children: map<string, ParameterNode?>
    var parent: ParameterNode?

    constructor (name: string, parent: ParameterNode?)
      ensures this.name == name && value == Unset && children == map[] && this.parent == parent
    {
      this.name := name;
      this.value := Unset;
      this.children := map[];
      this.parent := parent;
    }
  }

  /** The fields of all nodes by path; the entries at the empty path are the server's own. */
  datatype Links = Links(
    at: map<Path, ParameterNode>,
    holes: set<Path>,
    entries: map<Path, map<string, ParameterNode?>>,
    parents: map<Path, ParameterNode?>,
    values: map<Path, Value>)

  function Child(p: Path, k: string): (q: Path)
    ensures q != [] && Parent(q) == p && Last(q) == k
  {
    p + [k]
  }

  /** The maps have the right paths. */
  ghost predicate Complete(l: Links) {
    && (forall p :: p in l.entries <==> p == [] || p in l.at)
    && (forall p :: p in l.parents <==> p in l.at)
    && (forall p :: p in l.values <==> p in l.at)
  }

  /** The node hangs from the entry its path names, and points back to its parent. */
  ghost predicate NodeAt(l: Links, p: Path)
  {
    && p in l.at && p in l.parents && p in l.values && p != []
    && Parent(p) in l.entries
    && Last(p) in l.entries[Parent(p)] && l.entries[Parent(p)][Last(p)] == l.at[p]
    && l.at[p].name == Last(p)
    && (if Parent(p) == [] then l.parents[p] == null else Parent(p) in l.at && l.parents[p] == l.at[Parent(p)])
    && !l.values[p].Map?
  }

  ghost predicate HoleAt(l: Links, h: Path) {
    && h != [] && h !in l.at
    && Parent(h) in l.entries
    && Last(h) in l.entries[Parent(h)] && l.entries[Parent(h)][Last(h)] == null
  }

  ghost predicate EntryAt(l: Links, p: Path, k: string)
    requires p in l.entries && k in l.entries[p]
  {
    if l.entries[p][k] == null then Child(p, k) in l.holes
    else Child(p, k) in l.at && l.at[Child(p, k)] == l.entries[p][k]
  }

  /** No node is at two paths. */
  ghost predicate OneToOne(at: map<Path, ParameterNode>) {
    forall p, q :: p in at && q in at && at[p] == at[q] ==> p == q
  }

  /** Nodes, holes and entries agree, and no node is at two paths. */
  ghost predicate Sound(l: Links) {
    && Complete(l)
    && (forall p {:trigger NodeAt(l, p)} :: p in l.at ==> NodeAt(l, p))
    && (forall h {:trigger HoleAt(l, h)} :: h in l.holes ==> HoleAt(l, h))
    && (forall p, k {:trigger EntryAt(l, p, k)} :: p in l.entries && k in l.entries[p] ==> EntryAt(l, p, k))
    && OneToOne(l.at)
  }

  function TreeOf(l: Links): Tree {
    Tree(l.values, l.holes)
  }

  lemma SoundClosed(l: Links)
    requires Sound(l)
    ensures Closed(TreeOf(l))
  {
    forall p | p in l.values ensures Rooted(l.values, p) && !l.values[p].Map? {
      assert NodeAt(l, p);
    }
    forall h | h in l.holes ensures Rooted(l.values, h) && h !in l.values {
      assert HoleAt(l, h);
    }
  }

  lemma NoEmptyPath(l: Links)
    requires Sound(l)
    ensures [] !in l.at && [] !in l.holes
  {
    assert [] in l.at ==> NodeAt(l, []);
    assert [] in l.holes ==> HoleAt(l, []);
  }

  lemma NodeNoHole(l: Links, p: Path)
    requires Sound(l) && p in l.at
    ensures p !in l.holes && p in l.values && p in l.entries && p != []
  {
    assert NodeAt(l, p);
    assert p in l.holes ==> HoleAt(l, p);
  }

  /** What an entry says about the path it stands for. */
  lemma EntryFacts(l: Links, p: Path, k: string)
    requires Sound(l) && p in l.entries
    ensures k in l.entries[p] <==> p + [k] in l.at || p + [k] in l.holes
    ensures k in l.entries[p] ==> l.entries[p][k] == if p + [k] in l.at then l.at[p + [k]] else null
    ensures p + [k] in l.at ==> p + [k] !in l.holes
    ensures p + [k] in l.at <==> p + [k] in l.values
  {
    var q := Child(p, k);
    if q in l.at {
      assert NodeAt(l, q);
    }
    if q in l.holes {
      assert HoleAt(l, q);
    }
    if k in l.entries[p] {
      assert EntryAt(l, p, k);
    }
  }

  /** A node has children entries exactly when there is a node or a hole directly under it. */
  lemma NoEntries(l: Links, p: Path)
    requires Sound(l) && p in l.at
    ensures l.entries[p] == map[] <==> Names(l.values.Keys, p) == {} && Names(l.holes, p) == {}
  {
    forall k ensures k in l.entries[p] <==> k in Names(l.values.Keys, p) || k in Names(l.holes, p) {
      EntryFacts(l, p, k);
      NamesAre(l.values.Keys, p, k);
      NamesAre(l.holes, p, k);
    }
    assert l.entries[p] == map[] <==> l.entries[p].Keys == {};
    assert l.entries[p].Keys == Names(l.values.Keys, p) + Names(l.holes, p);
  }

  // ---------------------------------------------------------------- changes

  function WithHole(l: Links, p: Path, k: string): Links
    requires p in l.entries
  {
    l.(entries := l.entries[p := l.entries[p][k := null]], holes := l.holes + {Child(p, k)})
  }

  lemma WithHoleSound(l: Links, p: Path, k: string)
    requires Sound(l) && p in l.entries && k !in l.entries[p]
    ensures Sound(WithHole(l, p, k))
  {
    var u := WithHole(l, p, k);
    EntryFacts(l, p, k);
    forall q | q in u.at ensures NodeAt(u, q) {
      assert NodeAt(l, q);
    }
    forall h | h in u.holes ensures HoleAt(u, h) {
      if h != Child(p, k) {
        assert HoleAt(l, h);
      }
    }
    forall q, j | q in u.entries && j in u.entries[q] ensures EntryAt(u, q, j) {
      if !(q == p && j == k) {
        assert EntryAt(l, q, j);
      }
    }
  }

  /** A new node takes the place of a hole, or of no entry at all. */
  function WithNode(l: Links, p: Path, k: string, node: ParameterNode, parent: ParameterNode?): Links
    requires p in l.entries
  {
    PutNode(l, p, k, Child(p, k), node, parent)
  }

  function PutNode(l: Links, p: Path, k: string, q: Path, node: ParameterNode, parent: ParameterNode?): Links
    requires p in l.entries
  {
    Links(l.at[q := node], l.holes - {q}, l.entries[p := l.entries[p][k := node]][q := map[]],
          l.parents[q := parent], l.values[q := Unset])
  }

  lemma SamePath(p: Path, q: Path)
    requires p != [] && q != [] && Parent(p) == Parent(q) && Last(p) == Last(q)
    ensures p == q
  {
    assert p == Parent(p) + [Last(p)] && q == Parent(q) + [Last(q)];
  }

  lemma WithNodeKeepsNode(l: Links, p: Path, k: string, node: ParameterNode, parent: ParameterNode?, r: Path)
    requires Sound(l) && p in l.entries && Child(p, k) !in l.at && Complete(WithNode(l, p, k, node, parent))
    requires r in l.at
    ensures NodeAt(WithNode(l, p, k, node, parent), r)
  {
    var q := Child(p, k);
    assert NodeAt(l, r);
    assert r != q && Parent(r) != q;
    if Parent(r) == p && Last(r) == k {
      SamePath(r, q);
    }
  }

  lemma WithNodeKeepsHole(l: Links, p: Path, k: string, node: ParameterNode, parent: ParameterNode?, h: Path)
    requires Sound(l) && p in l.entries && Child(p, k) !in l.at && Complete(WithNode(l, p, k, node, parent))
    requires h in l.holes && h != Child(p, k)
    ensures HoleAt(WithNode(l, p, k, node, parent), h)
  {
    var q := Child(p, k);
    assert HoleAt(l, h);
    assert Parent(h) != q;
    if Parent(h) == p && Last(h) == k {
      SamePath(h, q);
    }
  }

  lemma WithNodeKeepsEntry(l: Links, p: Path, k: string, node: ParameterNode, parent: ParameterNode?, r: Path,
                           j: string)
    requires Sound(l) && p in l.entries && Child(p, k) !in l.at && Complete(WithNode(l, p, k, node, parent))
    requires r in l.entries && j in l.entries[r] && !(r == p && j == k)
    ensures EntryAt(WithNode(l, p, k, node, parent), r, j)
  {
    var q := Child(p, k);
    assert EntryAt(l, r, j);
    assert r != q;
  }

  lemma WithNodeItself(l: Links, p: Path, k: string, node: ParameterNode, parent: ParameterNode?)
    requires Sound(l) && p in l.entries && Child(p, k) !in l.at && Complete(WithNode(l, p, k, node, parent))
    requires node.name == k && parent == if p == [] then null else l.at[p]
    ensures NodeAt(WithNode(l, p, k, node, parent), Child(p, k))
    ensures EntryAt(WithNode(l, p, k, node, parent), p, k)
  {
    assert |Child(p, k)| == |p| + 1;
  }

  lemma StillOneToOne(at: map<Path, ParameterNode>, q: Path, node: ParameterNode)
    requires OneToOne(at) && node !in at.Values
    ensures OneToOne(at[q := node])
  {
    assert forall r :: r in at ==> at[r] in at.Values;
  }

  lemma WithNodeComplete(l: Links, p: Path, k: string, node: ParameterNode, parent: ParameterNode?)
    requires Sound(l) && p in l.entries && node !in l.at.Values
    ensures Complete(WithNode(l, p, k, node, parent))
    ensures OneToOne(WithNode(l, p, k, node, parent).at)
  {
    StillOneToOne(l.at, Child(p, k), node);
  }

  lemma WithNodeEntries(l: Links, p: Path, k: string, node: ParameterNode, parent: ParameterNode?, u: Links)
    requires Sound(l) && p in l.entries && Child(p, k) !in l.at && node.name == k
    requires parent == if p == [] then null else l.at[p]
    requires u == WithNode(l, p, k, node, parent) && Complete(u)
    ensures forall r, j {:trigger EntryAt(u, r, j)} :: r in u.entries && j in u.entries[r] ==> EntryAt(u, r, j)
  {
    WithNodeItself(l, p, k, node, parent);
    forall r, j | r in u.entries && j in u.entries[r] ensures EntryAt(u, r, j) {
      if !(r == p && j == k) {
        assert r in l.entries && j in l.entries[r];
        WithNodeKeepsEntry(l, p, k, node, parent, r, j);
      }
    }
  }

  lemma WithNodeSound(l: Links, p: Path, k: string, node: ParameterNode, parent: ParameterNode?)
    requires Sound(l) && p in l.entries && Child(p, k) !in l.at && node !in l.at.Values
    requires node.name == k && parent == if p == [] then null else l.at[p]
    ensures Sound(WithNode(l, p, k, node, parent))
  {
    var q := Child(p, k);
    var u := WithNode(l, p, k, node, parent);
    WithNodeComplete(l, p, k, node, parent);
    WithNodeItself(l, p, k, node, parent);
    WithNodeEntries(l, p, k, node, parent, u);
    forall r | r in u.at ensures NodeAt(u, r) {
      if r != q {
        assert r in l.at;
        WithNodeKeepsNode(l, p, k, node, parent, r);
      }
    }
    forall h | h in u.holes ensures HoleAt(u, h) {
      WithNodeKeepsHole(l, p, k, node, parent, h);
    }
  }

  /** A node becomes a leaf with a value: whatever hung from it is gone. */
  function AsLeaf(l: Links, p: Path, v: Value): Links
  {
    Links(map q | q in l.at && !(p < q) :: l.at[q],
          set h | h in l.holes && !(p < h),
          (map q | q in l.entries && !(p < q) :: l.entries[q])[p := map[]],
          map q | q in l.parents && !(p < q) :: l.parents[q],
          (map q | q in l.values && !(p < q) :: l.values[q])[p := v])
  }

  lemma AsLeafComplete(l: Links, p: Path, v: Value)
    requires Sound(l) && p in l.at
    ensures Complete(AsLeaf(l, p, v))
  {
    assert NodeAt(l, p);
  }

  lemma NotBelow(p: Path, q: Path)
    requires q != [] && !(p < q)
    ensures !(p <= Parent(q))
  {
  }

  lemma BelowChild(p: Path, q: Path, j: string)
    requires !(p < q) && p < Child(q, j)
    ensures p == q
  {
  }

  lemma AsLeafNode(l: Links, p: Path, v: Value, q: Path)
    requires Sound(l) && p in l.at && !v.Map? && Complete(AsLeaf(l, p, v)) && q in AsLeaf(l, p, v).at
    ensures NodeAt(AsLeaf(l, p, v), q)
  {
    assert NodeAt(l, q);
    NotBelow(p, q);
  }

  lemma AsLeafHole(l: Links, p: Path, v: Value, h: Path)
    requires Sound(l) && p in l.at && !v.Map? && Complete(AsLeaf(l, p, v)) && h in AsLeaf(l, p, v).holes
    ensures HoleAt(AsLeaf(l, p, v), h)
  {
    assert HoleAt(l, h);
    NotBelow(p, h);
  }

  lemma AsLeafEntry(l: Links, p: Path, v: Value, q: Path, j: string)
    requires Sound(l) && p in l.at && Complete(AsLeaf(l, p, v))
    requires q in AsLeaf(l, p, v).entries && j in AsLeaf(l, p, v).entries[q]
    ensures EntryAt(AsLeaf(l, p, v), q, j)
  {
    assert EntryAt(l, q, j);
    if p < Child(q, j) {
      BelowChild(p, q, j);
    }
  }

  lemma AsLeafSound(l: Links, p: Path, v: Value)
    requires Sound(l) && p in l.at && !v.Map?
    ensures Sound(AsLeaf(l, p, v))
    ensures TreeOf(AsLeaf(l, p, v)) == Overwrite(TreeOf(l), p, v)
  {
    var u := AsLeaf(l, p, v);
    AsLeafComplete(l, p, v);
    forall q | q in u.at ensures NodeAt(u, q) {
      AsLeafNode(l, p, v, q);
    }
    forall h | h in u.holes ensures HoleAt(u, h) {
      AsLeafHole(l, p, v, h);
    }
    forall q, j | q in u.entries && j in u.entries[q] ensures EntryAt(u, q, j) {
      AsLeafEntry(l, p, v, q, j);
    }
  }

  /** One node of the pruned links: as before, but for the node that became a leaf. */
  ghost predicate PrunedAt(l: Links, p: Path, v: Value, u: Links, r: Path) {
    && r in u.at && r in u.entries && r in u.parents && r in u.values
    && r in l.at && r in l.entries && r in l.parents && r in l.values
    && u.at[r] == l.at[r] && u.parents[r] == l.parents[r]
    && u.entries[r] == (if r == p then map[] else l.entries[r])
    && u.values[r] == (if r == p then v else l.values[r])
  }

  lemma AsLeafPrunes(l: Links, p: Path, v: Value)
    requires Sound(l) && p in l.at
    ensures Complete(AsLeaf(l, p, v)) && AsLeaf(l, p, v).entries[[]] == l.entries[[]]
    ensures forall r | r in AsLeaf(l, p, v).at :: PrunedAt(l, p, v, AsLeaf(l, p, v), r)
  {
    AsLeafComplete(l, p, v);
    NoEmptyPath(l);
  }

  /** An entry is erased, and what hung from it is gone. */
  function Without(l: Links, p: Path, k: string): Links
    requires p in l.entries
  {
    var q := Child(p, k);
    Links(map r | r in l.at && !(q <= r) :: l.at[r],
          set h | h in l.holes && !(q <= h),
          (map r | r in l.entries && !(q <= r) :: l.entries[r])[p := l.entries[p] - {k}],
          map r | r in l.parents && !(q <= r) :: l.parents[r],
          map r | r in l.values && !(q <= r) :: l.values[r])
  }

  lemma WithoutKeepsNode(l: Links, p: Path, k: string, r: Path)
    requires Sound(l) && p in l.entries && Complete(Without(l, p, k)) && r in Without(l, p, k).at
    ensures NodeAt(Without(l, p, k), r)
  {
    var q := Child(p, k);
    assert NodeAt(l, r);
    NotBelow(q, r);
    if Parent(r) == p && Last(r) == k {
      SamePath(r, q);
    }
  }

  lemma WithoutKeepsHole(l: Links, p: Path, k: string, h: Path)
    requires Sound(l) && p in l.entries && Complete(Without(l, p, k)) && h in Without(l, p, k).holes
    ensures HoleAt(Without(l, p, k), h)
  {
    var q := Child(p, k);
    assert HoleAt(l, h);
    NotBelow(q, h);
    if Parent(h) == p && Last(h) == k {
      SamePath(h, q);
    }
  }

  lemma OnlyChild(p: Path, k: string, r: Path, j: string)
    ensures Child(p, k) <= Child(r, j) && !(Child(p, k) <= r) ==> r == p && j == k
    ensures Child(p, k) == Child(r, j) ==> r == p && j == k
  {
  }

  lemma WithoutKeepsEntry(l: Links, p: Path, k: string, r: Path, j: string)
    requires Sound(l) && p in l.entries && Complete(Without(l, p, k))
    requires r in Without(l, p, k).entries && j in Without(l, p, k).entries[r]
    ensures EntryAt(Without(l, p, k), r, j)
  {
    assert EntryAt(l, r, j);
    OnlyChild(p, k, r, j);
  }

  lemma WithoutSound(l: Links, p: Path, k: string)
    requires Sound(l) && p in l.entries
    ensures Sound(Without(l, p, k))
  {
    var u := Without(l, p, k);
    assert |Child(p, k)| == |p| + 1;
    assert Complete(u);
    forall r | r in u.at ensures NodeAt(u, r) {
      WithoutKeepsNode(l, p, k, r);
    }
    forall h | h in u.holes ensures HoleAt(u, h) {
      WithoutKeepsHole(l, p, k, h);
    }
    forall r, j | r in u.entries && j in u.entries[r] ensures EntryAt(u, r, j) {
      WithoutKeepsEntry(l, p, k, r, j);
    }
  }

  function WithValue(l: Links, p: Path, v: Value): Links {
    l.(values := l.values[p := v])
  }

  lemma WithValueSound(l: Links, p: Path, v: Value)
    requires Sound(l) && p in l.at && !v.Map?
    ensures Sound(WithValue(l, p, v))
  {
    var u := WithValue(l, p, v);
    forall q | q in u.at ensures NodeAt(u, q) {
      assert NodeAt(l, q);
    }
    forall h | h in u.holes ensures HoleAt(u, h) {
      assert HoleAt(l, h);
    }
    forall q, j | q in u.entries && j in u.entries[q] ensures EntryAt(u, q, j) {
      assert EntryAt(l, q, j);
    }
  }
}
