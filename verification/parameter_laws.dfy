/** What the operations of a parameter server promise each other. */
module ParameterLaws {
  import opened ParameterNames
  import opened ParameterTrees

  // ---------------------------------------------------------------- prefixes

  lemma InPrefixes(p: Path, q: Path)
    ensures q in Prefixes(p) <==> q != [] && q <= p
  {
    if q != [] && q <= p {
      assert q == p[..|q|];
    }
  }

  /** Every prefix of a node is a node. */
  lemma {:induction false} PrefixIn(t: Tree, p: Path, q: Path)
    requires Closed(t) && p in t.values && q <= p && q != []
    ensures q in t.values
    decreases |p|
  {
    if q != p {
      assert q <= Parent(p);
      PrefixIn(t, Parent(p), q);
    }
  }

  lemma AboveHole(t: Tree, h: Path, q: Path)
    requires Closed(t) && h in t.holes && q < h && q != []
    ensures q in t.values
  {
    assert q <= Parent(h);
    PrefixIn(t, Parent(h), q);
  }

  /** The first missing node is on the way, and everything before it is present. */
  lemma {:induction false} GapIs(values: map<Path, Value>, p: Path, i: nat)
    requires 0 < i <= |p| && p !in values
    requires forall j | 1 <= j < i :: p[..j] in values
    ensures Gap(values, p, i) != [] && Gap(values, p, i) <= p && Gap(values, p, i) !in values
    ensures Rooted(values, Gap(values, p, i))
    ensures forall q :: q != [] && q < Gap(values, p, i) ==> q in values
    decreases |p| - i
  {
    assert p[..|p|] == p;
    if p[..i] !in values || i == |p| {
      var g := p[..i];
      if i > 1 {
        assert Parent(g) == p[..i-1];
      }
      forall q | q != [] && q < g ensures q in values {
        assert q == p[..|q|];
      }
    } else {
      GapIs(values, p, i + 1);
    }
  }

  // ---------------------------------------------------------------- invariants

  lemma ReachedClosed(t: Tree, p: Path)
    requires Closed(t) && p != []
    ensures Closed(Reached(t, p)) && p in Reached(t, p).values
  {
    var u := Reached(t, p);
    InPrefixes(p, p);
    forall q | q in u.values ensures Rooted(u.values, q) {
      InPrefixes(p, q);
      if |q| > 1 {
        InPrefixes(p, Parent(q));
      }
    }
  }

  lemma OverwriteClosed(t: Tree, p: Path, v: Value)
    requires Closed(t) && p in t.values && !v.Map?
    ensures Closed(Overwrite(t, p, v))
  {
    var u := Overwrite(t, p, v);
    forall q | q in u.values || q in u.holes ensures Rooted(u.values, q) {
      if |q| > 1 {
        assert p < Parent(q) ==> p < q;
      }
    }
  }

  lemma MergeClosed(t: Tree, p: Path, v: Value)
    requires Closed(t) && p in t.values
    ensures Closed(Merge(t, p, v))
  {
    var u := Merge(t, p, v);
    forall q | q in u.values ensures Rooted(u.values, q) && !u.values[q].Map? {
      UnderAre(p, v, q);
      if q !in t.values && |q| > 1 {
        var r := q[|p|..];
        assert q != p && r != [];
        AtParent(v, r);
        assert Parent(q)[|p|..] == Parent(r);
        UnderAre(p, v, Parent(q));
      }
    }
  }

  lemma {:induction false} AtParent(v: Value, r: Path)
    requires r != [] && At(v, r) != []
    ensures At(v, Parent(r)) != []
    decreases |r|
  {
    if |r| > 1 {
      AtParent(v.entries[r[0]], r[1..]);
      assert Parent(r)[1..] == Parent(r[1..]);
    }
  }

  /** Setting keeps the tree closed and makes no hole, so a tree without holes stays without. */
  lemma SetKeeps(t: Tree, p: Path, v: Value)
    requires Closed(t) && p != []
    ensures Closed(Set(t, p, v)) && Set(t, p, v).holes <= t.holes
  {
    ReachedClosed(t, p);
    if v.Map? {
      MergeClosed(Reached(t, p), p, v);
    } else {
      OverwriteClosed(Reached(t, p), p, v);
    }
  }

  /** A failed lookup keeps the tree closed but adds one hole, at the first missing node. */
  lemma LookedKeeps(t: Tree, p: Path)
    requires Closed(t) && p != []
    ensures Closed(Looked(t, p)) && Looked(t, p).values == t.values
    ensures p !in t.values ==> exists h :: h in Looked(t, p).holes && h <= p
  {
    if p !in t.values {
      GapIs(t.values, p, 1);
      assert Gap(t.values, p, 1) in Looked(t, p).holes;
    }
  }

  /** The first components come from parsing names, so no name fails to reach them. */
  predicate NamedRoots(t: Tree) {
    && (forall p | p in t.values :: p != [] && SlashFree(p[0]))
    && (forall h | h in t.holes :: h != [] && SlashFree(h[0]))
  }

  /** Every operation by name keeps that. */
  lemma NamedRootsKept(t: Tree, name: string, v: Value)
    requires Closed(t) && NamedRoots(t)
    ensures NamedRoots(EMPTY_TREE)
    ensures NamedRoots(Set(t, Parse(name), v))
    ensures NamedRoots(Delete(t, Parse(name)).1)
    ensures NamedRoots(Looked(t, Parse(name)))
  {
    var p := Parse(name);
    ParseCanonical(name);
    var u := Set(t, p, v);
    SetKeeps(t, p, v);
    forall q | q in u.values ensures q != [] && SlashFree(q[0]) {
      InPrefixes(p, q);
      UnderAre(p, v, q);
      assert Rooted(u.values, q);
      assert p <= q ==> q[0] == p[0];
    }
    if p !in t.values {
      GapIs(t.values, p, 1);
      assert Gap(t.values, p, 1)[0] == p[0];
    }
  }

  /**
   * Deleting removes the path and its extensions and nothing else; without holes it succeeds exactly
   * when the path is there.
   */
  lemma DeleteExact(t: Tree, p: Path)
    requires Closed(t) && p != []
    ensures Closed(Delete(t, p).1) && Delete(t, p).1.holes <= t.holes
    ensures t.holes == {} ==> (Delete(t, p).0.Deleted? <==> p in t.values)
    ensures t.holes == {} ==> !Delete(t, p).0.NullTraversed?
    ensures t.holes == {} ==> forall q :: q in Delete(t, p).1.values <==> q in t.values && !(p <= q)
    ensures forall q :: q in Delete(t, p).1.values ==> Delete(t, p).1.values[q] == t.values[q]
  {
    var u := Delete(t, p).1;
    forall q | q in u.values || q in u.holes ensures Rooted(u.values, q) {
      if |q| > 1 {
        assert p <= Parent(q) ==> p <= q;
      }
    }
    forall q | t.holes == {} && q in t.values && p <= q ensures p in t.values {
      PrefixIn(t, q, p);
    }
  }

  // ---------------------------------------------------------------- values of nodes

  /** From a path downwards two trees have the same nodes, and the same values at the leaves. */
  ghost predicate Alike(a: map<Path, Value>, b: map<Path, Value>, p: Path) {
    && (forall q :: p <= q ==> (q in a <==> q in b))
    && (forall q :: p <= q && q in a && q in b && Names(a.Keys, q) == {} ==> a[q] == b[q])
  }

  lemma AlikeBelow(a: map<Path, Value>, b: map<Path, Value>, p: Path, k: string)
    requires Alike(a, b, p)
    ensures Alike(a, b, p + [k])
    ensures p + [k] in a <==> p + [k] in b
    ensures k in Names(a.Keys, p) <==> k in Names(b.Keys, p)
    ensures k in Names(a.Keys, p) <==> p + [k] in a
  {
    NamesAre(a.Keys, p, k);
    NamesAre(b.Keys, p, k);
    assert p <= p + [k];
  }

  lemma SameNames(a: map<Path, Value>, b: map<Path, Value>, p: Path)
    requires Alike(a, b, p)
    ensures Names(a.Keys, p) == Names(b.Keys, p)
  {
    forall k ensures k in Names(a.Keys, p) <==> k in Names(b.Keys, p) {
      AlikeBelow(a, b, p, k);
    }
  }

  /** The map of the children's values is the value of the node. */
  lemma AssembledValue(values: map<Path, Value>, p: Path, m: map<string, Value>)
    requires p in values && m != map[] && Names(values.Keys, p) == m.Keys
    requires forall k :: k in m ==> p + [k] in values && m[k] == ValueAt(values, p + [k])
    ensures ValueAt(values, p) == Map(m)
  {
  }

  /** A node's value only depends on the paths from it downwards, and on the leaves among them. */
  lemma {:induction false} SameValueAt(a: map<Path, Value>, b: map<Path, Value>, p: Path)
    requires p in a && p in b && Alike(a, b, p)
    ensures ValueAt(a, p) == ValueAt(b, p)
    decreases BelowIn(a.Keys, p)
  {
    SameNames(a, b, p);
    assert p <= p;
    if Names(a.Keys, p) != {} {
      var m := ChildValues(a, p);
      forall k | k in m ensures p + [k] in b && m[k] == ValueAt(b, p + [k]) {
        AlikeBelow(a, b, p, k);
        BelowShrinks(a.Keys, p, k);
        SameValueAt(a, b, p + [k]);
      }
      AssembledValue(b, p, m);
    }
  }

  function ChildValues(values: map<Path, Value>, p: Path): (m: map<string, Value>)
    requires p in values && Names(values.Keys, p) != {}
    ensures m.Keys == Names(values.Keys, p) && m != map[] && ValueAt(values, p) == Map(m)
    ensures forall k | k in m :: p + [k] in values && m[k] == ValueAt(values, p + [k])
  {
    assert forall k :: k in Names(values.Keys, p) <==> p + [k] in values by {
      forall k ensures k in Names(values.Keys, p) <==> p + [k] in values {
        NamesAre(values.Keys, p, k);
      }
    }
    ValueAt(values, p).entries
  }

  /** Following names from a node's value is the same as descending the tree. */
  lemma {:induction false} AtValueAt(t: Tree, p: Path, r: Path)
    requires Closed(t) && p in t.values
    ensures At(ValueAt(t.values, p), r) == if p + r in t.values then [ValueAt(t.values, p + r)] else []
    decreases |r|
  {
    if r == [] {
      assert p + r == p;
    } else {
      NamesAre(t.values.Keys, p, r[0]);
      assert p + [r[0]] + r[1..] == p + r;
      if p + [r[0]] in t.values {
        AtValueAt(t, p + [r[0]], r[1..]);
      } else {
        if p + r in t.values {
          PrefixIn(t, p + r, p + [r[0]]);
        }
        assert p + r !in t.values;
      }
    }
  }

  // ---------------------------------------------------------------- set, then get

  /** A scalar that was set is what a lookup finds. */
  lemma SetThenGet(t: Tree, p: Path, v: Value)
    requires p != [] && !v.Map?
    ensures Get(Set(t, p, v), p) == Found(v)
  {
    var u := Set(t, p, v);
    forall k ensures k !in Names(u.values.Keys, p) {
      NamesAre(u.values.Keys, p, k);
      assert p < p + [k];
      InPrefixes(p, p + [k]);
    }
    assert Names(u.values.Keys, p) == {};
  }

  /** Nothing outside the paths through, to or below the one being set is touched. */
  lemma SetElsewhere(t: Tree, p: Path, v: Value, q: Path)
    requires !Comparable(p, q)
    ensures q in Set(t, p, v).values <==> q in t.values
    ensures q in t.values ==> Set(t, p, v).values[q] == t.values[q]
    ensures q in Set(t, p, v).holes <==> q in t.holes
  {
    InPrefixes(p, q);
    UnderAre(p, v, q);
  }

  lemma GetUnmoved(t: Tree, u: Tree, q: Path)
    requires forall r :: q <= r ==> (r in t.values <==> r in u.values)
    requires forall r :: q <= r && r in t.values ==> t.values[r] == u.values[r]
    requires forall r :: q <= r ==> (r in t.holes <==> r in u.holes)
    ensures Get(t, q) == Get(u, q)
  {
    assert q <= q;
    if q in t.values {
      SameValueAt(t.values, u.values, q);
    }
  }

  /** What a lookup of an incomparable path finds is unchanged, whatever is set. */
  lemma SetThenGetElsewhere(t: Tree, p: Path, v: Value, q: Path)
    requires !Comparable(p, q)
    ensures Get(Set(t, p, v), q) == Get(t, q)
  {
    forall r | q <= r ensures !Comparable(p, r) {
      assert p <= r ==> p <= q || q <= p;
      assert r <= p ==> q <= p;
    }
    forall r | q <= r
      ensures r in Set(t, p, v).values <==> r in t.values
      ensures r in t.values ==> Set(t, p, v).values[r] == t.values[r]
      ensures r in Set(t, p, v).holes <==> r in t.holes
    {
      SetElsewhere(t, p, v, r);
    }
    GetUnmoved(t, Set(t, p, v), q);
  }

  /** What a lookup of an incomparable path finds is unchanged by a deletion. */
  lemma DeleteThenGetElsewhere(t: Tree, p: Path, q: Path)
    requires !Comparable(p, q)
    ensures Get(Delete(t, p).1, q) == Get(t, q)
  {
    forall r | q <= r ensures !Comparable(p, r) {
      assert p <= r ==> p <= q || q <= p;
      assert r <= p ==> q <= p;
    }
    GetUnmoved(t, Delete(t, p).1, q);
  }

  /** No map inside, at any depth, is empty. */
  predicate Solid(v: Value) {
    v.Map? ==> v.entries != map[] && forall k | k in v.entries :: Solid(v.entries[k])
  }

  /** The nodes from p downwards are exactly those of the value, holding its scalars. */
  ghost predicate Spread(values: map<Path, Value>, p: Path, v: Value) {
    && (forall r :: p + r in values <==> At(v, r) != [])
    && (forall r :: At(v, r) != [] ==> p + r in values && values[p + r] == (if At(v, r)[0].Map? then Unset else At(v, r)[0]))
  }

  lemma SpreadBelow(values: map<Path, Value>, p: Path, v: Value, k: string)
    requires Spread(values, p, v) && v.Map? && k in v.entries
    ensures Spread(values, p + [k], v.entries[k])
  {
    forall r
      ensures p + [k] + r in values <==> At(v.entries[k], r) != []
      ensures At(v.entries[k], r) != [] ==> values[p + [k] + r] == (if At(v.entries[k], r)[0].Map? then Unset else At(v.entries[k], r)[0])
    {
      assert ([k] + r)[1..] == r;
      assert p + [k] + r == p + ([k] + r);
      assert At(v, [k] + r) == At(v.entries[k], r);
    }
  }

  lemma EntriesReadBack(values: map<Path, Value>, p: Path, v: Value)
    requires p in values && v.Map? && v.entries != map[] && Names(values.Keys, p) == v.entries.Keys
    requires forall k | k in v.entries ::
      p + [k] in values && (ValueAt(values, p + [k]) == v.entries[k] <==> Solid(v.entries[k]))
    ensures ValueAt(values, p) == v <==> Solid(v)
  {
    var k0 :| k0 in v.entries;
    var got := ValueAt(values, p);
    assert got.Map? && got.entries.Keys == v.entries.Keys;
    if got == v {
      forall k | k in v.entries ensures Solid(v.entries[k]) {
        assert got.entries[k] == ValueAt(values, p + [k]);
      }
    }
    if Solid(v) {
      assert got.entries == v.entries;
    }
  }

  /** Reading back a value spread over the tree gives the value exactly when no map in it is empty. */
  lemma {:induction false} ReadBack(values: map<Path, Value>, p: Path, v: Value)
    requires p in values && Spread(values, p, v)
    ensures ValueAt(values, p) == v <==> Solid(v)
    decreases v
  {
    assert p + [] == p && At(v, []) == [v];
    forall k ensures k in Names(values.Keys, p) <==> v.Map? && k in v.entries {
      NamesAre(values.Keys, p, k);
      assert At(v, [k]) == if v.Map? && k in v.entries then [v.entries[k]] else [];
    }
    if v.Map? && v.entries != map[] {
      assert Names(values.Keys, p) == v.entries.Keys;
      forall k | k in v.entries
        ensures p + [k] in values && (ValueAt(values, p + [k]) == v.entries[k] <==> Solid(v.entries[k]))
      {
        SpreadBelow(values, p, v, k);
        assert At(v, [k]) != [];
        ReadBack(values, p + [k], v.entries[k]);
      }
      EntriesReadBack(values, p, v);
    } else {
      assert Names(values.Keys, p) == {};
    }
  }

  lemma FreshSpread(t: Tree, p: Path, v: Value)
    requires Closed(t) && p != [] && p !in t.values && v.Map?
    ensures Spread(Set(t, p, v).values, p, v)
  {
    var u := Set(t, p, v);
    forall r
      ensures p + r in u.values <==> At(v, r) != []
      ensures At(v, r) != [] ==> u.values[p + r] == (if At(v, r)[0].Map? then Unset else At(v, r)[0])
    {
      assert (p + r)[|p|..] == r && p <= p + r;
      UnderAre(p, v, p + r);
      InPrefixes(p, p + r);
      if p + r in t.values {
        PrefixIn(t, p + r, p);
      }
      if r == [] {
        assert p + r == p;
      }
    }
  }

  /** A map set at a fresh path is what a lookup finds exactly when no map in it is empty. */
  lemma SetMapThenGet(t: Tree, p: Path, v: Value)
    requires Closed(t) && p != [] && p !in t.values && v.Map?
    ensures Get(Set(t, p, v), p) == Found(v) <==> Solid(v)
  {
    var u := Set(t, p, v);
    SetKeeps(t, p, v);
    FreshSpread(t, p, v);
    assert p + [] == p && At(v, []) != [];
    ReadBack(u.values, p, v);
    forall h | h in u.holes ensures !(p < h) {
      if p < h {
        AboveHole(t, h, p);
      }
    }
  }

  lemma HoleAside(t: Tree, p: Path, h: Path)
    requires Closed(t) && p != [] && p !in t.values && p !in t.holes && Rooted(t.values, p) && h in t.holes
    ensures !(p <= h) && !(h <= p)
  {
    assert Rooted(t.values, h) && h !in t.values;
    assert h <= p && !(h < p) ==> h == p;
    if p < h {
      AboveHole(t, h, p);
    }
    if h < p {
      assert h <= Parent(p) && |p| > 1;
      PrefixIn(t, Parent(p), h);
    }
  }

  lemma NodeAside(t: Tree, p: Path, q: Path)
    requires Closed(t) && p != [] && p !in t.values && Rooted(t.values, p)
    ensures q in t.values ==> !(p <= q)
    ensures q != [] && q < p ==> q in t.values
  {
    if q in t.values && p <= q {
      PrefixIn(t, q, p);
    }
    if q != [] && q < p {
      assert q <= Parent(p) && |p| > 1;
      PrefixIn(t, Parent(p), q);
    }
  }

  /** Where setting puts nodes and holes. */
  lemma SetWhere(t: Tree, p: Path, v: Value, q: Path)
    requires p != [] && !(p <= q)
    ensures q in Set(t, p, v).values <==> q in t.values || (q != [] && q <= p)
    ensures q in t.values ==> Set(t, p, v).values[q] == t.values[q]
    ensures q in Set(t, p, v).holes <==> q in t.holes && !(q != [] && q <= p)
  {
    InPrefixes(p, q);
    UnderAre(p, v, q);
  }

  lemma DeleteSet(t: Tree, p: Path, v: Value)
    requires Closed(t) && p != []
    ensures Delete(Set(t, p, v), p).0 == Deleted
    ensures forall q :: q in Delete(Set(t, p, v), p).1.values <==> !(p <= q) && (q in t.values || (q != [] && q <= p))
    ensures forall q :: q in t.values && !(p <= q) ==> q in Delete(Set(t, p, v), p).1.values && Delete(Set(t, p, v), p).1.values[q] == t.values[q]
    ensures forall q :: q in Delete(Set(t, p, v), p).1.holes <==> !(p <= q) && q in t.holes && !(q != [] && q <= p)
  {
    var u := Set(t, p, v);
    SetKeeps(t, p, v);
    SetHas(t, p, v);
    forall q | !(p <= q)
      ensures q in u.values <==> q in t.values || (q != [] && q <= p)
      ensures q in t.values ==> u.values[q] == t.values[q]
      ensures q in u.holes <==> q in t.holes && !(q != [] && q <= p)
    {
      SetWhere(t, p, v, q);
    }
    assert forall h :: h in u.holes ==> Rooted(u.values, h);
    assert !exists h :: h in u.holes && h < p;
  }

  lemma SetThenDeleteUndoes(t: Tree, p: Path, v: Value)
    requires Closed(t) && p != [] && p !in t.values && p !in t.holes && Rooted(t.values, p)
    ensures Delete(Set(t, p, v), p).1 == t
  {
    var d := Delete(Set(t, p, v), p).1;
    DeleteSet(t, p, v);
    forall q ensures q in d.values <==> q in t.values {
      NodeAside(t, p, q);
    }
    forall h ensures h in d.holes <==> h in t.holes {
      if h in t.holes {
        HoleAside(t, p, h);
      }
    }
    assert d.values == t.values && d.holes == t.holes;
  }

  /** Deleting undoes setting exactly when the path was new and its parent was already there. */
  lemma SetThenDelete(t: Tree, p: Path, v: Value)
    requires Closed(t) && p != []
    ensures Delete(Set(t, p, v), p) == (Deleted, t)
       <==> p !in t.values && p !in t.holes && Rooted(t.values, p)
  {
    var d := Delete(Set(t, p, v), p).1;
    DeleteSet(t, p, v);
    if p !in t.values && p !in t.holes && Rooted(t.values, p) {
      SetThenDeleteUndoes(t, p, v);
    } else if |p| > 1 {
      assert Parent(p) in d.values;
    }
  }

  lemma SetHas(t: Tree, p: Path, v: Value)
    requires p != []
    ensures p in Set(t, p, v).values && p !in Set(t, p, v).holes
  {
    InPrefixes(p, p);
  }

  // ---------------------------------------------------------------- failed lookups

  /**
   * On a tree without holes, looking up a path changes what is found later exactly for the nodes
   * above the path, and only when the path is missing: those can no longer be read.
   */
  lemma FailedLookupPoisons(t: Tree, p: Path, q: Path)
    requires Closed(t) && t.holes == {} && p != []
    ensures Get(Looked(t, p), q) == Get(t, q) <==> (p in t.values || q !in t.values || !(q < p))
    ensures p !in t.values && q in t.values && q < p ==> Get(Looked(t, p), q) == NullDereference
  {
    if p !in t.values {
      GapIs(t.values, p, 1);
      var g := Gap(t.values, p, 1);
      var u := Looked(t, p);
      assert u.holes == {g};
      if q in t.values {
        if q < p {
          assert q < g by {
            if |g| <= |q| {
              assert g <= q;
              PrefixIn(t, q, g);
            }
          }
          assert HoleBelow(u, q);
        } else {
          assert !(q < g);
        }
      }
    }
  }
}
