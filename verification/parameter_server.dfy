/**
 * The parameter server: a tree of nodes on the heap that every operation changes in place.  Its
 * abstract value, Model, is the tree of module ParameterTrees.
 */
module ParameterServers {
  import opened ParameterNames
  import opened ParameterTrees
  import opened ParameterLaws
  import opened ParameterRebuild
  import opened ParameterLinks
  import opened ParameterSteps

  class ParameterServer {
    var nodes: map<string, ParameterNode?>

    /** The fields of all nodes, by path. */
    ghost var links: Links

    constructor ()
      ensures Valid() && Model() == EMPTY_TREE && links.at == map[]
    {
      nodes := map[];
      links := Links(map[], {}, map[[] := map[]], map[], map[]);
      new;
      Closing();
    }

    ghost predicate Mirrors()
      reads this, links.at.Values
    {
      && Complete(links)
      && nodes == links.entries[[]]
      && (forall p {:trigger links.at[p]} :: p in links.at ==> MirrorsNode(p))
    }

    ghost predicate MirrorsNode(p: Path)
      reads this, links.at.Values
    {
      && p in links.at && p in links.entries && p in links.parents && p in links.values
      && links.at[p].children == links.entries[p]
      && links.at[p].parent == links.parents[p]
      && links.at[p].value == links.values[p]
    }

    /** What holds at one path: the maps, the node or hole there, its entries, and the fields on the heap. */
    ghost predicate ConsistentAt(p: Path)
      reads this, links.at.Values
    {
      && (p in links.entries <==> p == [] || p in links.at)
      && (p in links.parents <==> p in links.at) && (p in links.values <==> p in links.at)
      && (p in links.at ==> NodeAt(links, p) && MirrorsNode(p))
      && (p in links.holes ==> HoleAt(links, p))
      && (forall k {:trigger EntryAt(links, p, k)} :: p in links.entries && k in links.entries[p] ==> EntryAt(links, p, k))
      && (forall q :: p in links.at && q in links.at && links.at[p] == links.at[q] ==> p == q)
      && (p == [] ==> p in links.entries && nodes == links.entries[p])
    }

    /** The links are sound and the nodes on the heap are as they say, path by path. */
    ghost predicate Valid()
      reads this, links.at.Values
    {
      forall p {:trigger ConsistentAt(p)} :: ConsistentAt(p)
    }

    lemma LinksComplete()
      requires Valid()
      ensures Complete(links) && nodes == links.entries[[]]
    {
      assert ConsistentAt([]);
      forall p
        ensures p in links.entries <==> p == [] || p in links.at
        ensures p in links.parents <==> p in links.at
        ensures p in links.values <==> p in links.at
      {
        assert ConsistentAt(p);
      }
    }

    lemma LinksOneToOne()
      requires Valid()
      ensures OneToOne(links.at)
    {
      forall p, q | p in links.at && q in links.at && links.at[p] == links.at[q] ensures p == q {
        assert ConsistentAt(p);
      }
    }

    lemma Opened()
      requires Valid()
      ensures Sound(links) && Mirrors()
    {
      LinksComplete();
      LinksOneToOne();
      forall p | p in links.at ensures NodeAt(links, p) && MirrorsNode(p) {
        assert ConsistentAt(p);
      }
      forall p | p in links.holes ensures HoleAt(links, p) {
        assert ConsistentAt(p);
      }
      forall p, k | p in links.entries && k in links.entries[p] ensures EntryAt(links, p, k) {
        assert ConsistentAt(p);
      }
    }

    lemma Closing()
      requires Sound(links) && Mirrors()
      ensures Valid()
    {
      forall p ensures ConsistentAt(p) {
        assert p in links.at ==> NodeAt(links, p);
        assert p in links.holes ==> HoleAt(links, p);
      }
    }

    ghost function Model(): Tree
      reads this
    {
      TreeOf(links)
    }

    /** The object that holds an entry: a node, or for the empty path the server itself. */
    ghost predicate Holder(parent: ParameterNode?, p: Path)
      reads this
    {
      if p == [] then parent == null else p in links.at && parent == links.at[p]
    }

    lemma PresentNode(p: Path)
      requires Valid() && p in links.at
      ensures p in Model().values && p !in Model().holes
    {
      Opened();
      NodeNoHole(links, p);
    }

    // -------------------------------------------------------------- entries

    /** Storing an entry of one holder leaves the entries of all others. */
    method Store(parent: ParameterNode?, k: string, node: ParameterNode?, ghost p: Path)
      requires Mirrors() && OneToOne(links.at) && [] !in links.at && Holder(parent, p)
      modifies this`nodes, links.at.Values`children
      ensures nodes == if p == [] then links.entries[p][k := node] else links.entries[[]]
      ensures forall r {:trigger links.at[r]} :: r in links.at ==>
        links.at[r].children == if r == p then links.entries[p][k := node] else links.entries[r]
    {
      assert forall r :: r in links.at ==> MirrorsNode(r);
      if parent == null {
        nodes := nodes[k := node];
      } else {
        parent.children := parent.children[k := node];
      }
    }

    /** Reading an entry with the indexing operator makes an empty one when there is none. */
    method Entry(parent: ParameterNode?, k: string, ghost p: Path) returns (node: ParameterNode?)
      requires Valid() && Holder(parent, p)
      modifies this, links.at.Values
      ensures Valid() && links.at == old(links.at)
      ensures node == if p + [k] in links.at then links.at[p + [k]] else null
      ensures p + [k] in links.at ==> Model() == old(Model())
      ensures p + [k] !in links.at ==> Model() == Tree(old(Model()).values, old(Model()).holes + {p + [k]})
    {
      Opened();
      EntryFacts(links, p, k);
      NoEmptyPath(links);
      var entries := if parent == null then nodes else parent.children;
      if k in entries {
        node := entries[k];
        assert p + [k] !in links.at ==> links.holes + {p + [k]} == links.holes;
      } else {
        WithHoleSound(links, p, k);
        if parent == null {
          nodes := nodes[k := null];
        } else {
          parent.children := parent.children[k := null];
        }
        links := WithHole(links, p, k);
        node := null;
        Closing();
      }
    }

    /** A childless node is put where there is none. */
    method Attach(parent: ParameterNode?, k: string, node: ParameterNode, ghost p: Path)
      requires Mirrors() && OneToOne(links.at) && [] !in links.at && Holder(parent, p)
      requires Child(p, k) !in links.at && node !in links.at.Values
      requires Complete(WithNode(links, p, k, node, parent))
      requires node.parent == parent && node.children == map[] && node.value == Unset
      modifies this, links.at.Values`children
      ensures p in old(links).entries && links == WithNode(old(links), p, k, node, parent)
      ensures Mirrors()
    {
      ghost var u := WithNode(links, p, k, node, parent);
      Store(parent, k, node, p);
      assert nodes == u.entries[[]];
      forall r | r in links.at
        ensures links.at[r].children == u.entries[r] && links.at[r].parent == u.parents[r]
        ensures links.at[r].value == u.values[r]
      {
        assert old(MirrorsNode(r));
        assert r != Child(p, k);
      }
      links := u;
    }

    /** The node of an entry, made when there is none. */
    method EntryNode(parent: ParameterNode?, k: string, ghost p: Path) returns (node: ParameterNode)
      requires Valid() && Holder(parent, p)
      modifies this, links.at.Values
      ensures Valid() && Model() == Created(old(Model()), p + [k])
      ensures Holder(node, p + [k])
      ensures links.at == old(links.at)[p + [k] := node]
      ensures p + [k] !in old(links.at) ==> fresh(node)
      ensures p + [k] in old(links.at) ==> node == old(links.at)[p + [k]]
    {
      Opened();
      EntryFacts(links, p, k);
      var entries := if parent == null then nodes else parent.children;
      if k in entries && entries[k] != null {
        node := entries[k];
        assert links.holes - {p + [k]} == links.holes;
      } else {
        node := new ParameterNode(k, parent);
        NoEmptyPath(links);
        WithNodeSound(links, p, k, node, parent);
        Attach(parent, k, node, p);
        Closing();
      }
    }

    /** The children of a node go and the scalar is stored; the links are brought up to date. */
    method Prune(node: ParameterNode, value: Value, ghost p: Path, ghost u: Links)
      requires Mirrors() && OneToOne(links.at) && p in links.at && node == links.at[p]
      requires Complete(u) && u.entries[[]] == links.entries[[]]
      requires forall r | r in u.at :: PrunedAt(links, p, value, u, r)
      modifies this`links, node
      ensures links == u && Mirrors()
    {
      assert forall r :: r in links.at ==> MirrorsNode(r);
      node.children := map[];
      node.value := value;
      forall r | r in u.at
        ensures u.at[r].children == u.entries[r] && u.at[r].parent == u.parents[r] && u.at[r].value == u.values[r]
      {
        assert PrunedAt(links, p, value, u, r);
        assert r != p ==> links.at[r] != node;
      }
      links := u;
    }

    /** The node becomes a leaf holding the scalar. */
    method SetLeaf(node: ParameterNode, value: Value, ghost p: Path)
      requires Valid() && p in links.at && node == links.at[p] && !value.Map?
      modifies this, links.at.Values
      ensures Valid() && Model() == Overwrite(old(Model()), p, value)
      ensures fresh(links.at.Values - old(links.at.Values))
    {
      Opened();
      NoEmptyPath(links);
      AsLeafSound(links, p, value);
      AsLeafPrunes(links, p, value);
      Prune(node, value, p, AsLeaf(links, p, value));
      Closing();
    }

    /** One entry of a map is stored below a node, with all that hangs from it. */
    method ExpandEntry(name: string, value: Value, parent: ParameterNode, ghost p: Path)
      requires Valid() && Holder(parent, p) && p != []
      modifies this, links.at.Values
      ensures Valid() && Model() == Stored(old(Model()), p + [name], value)
      ensures forall q :: q in old(links.at) ==> q in links.at && links.at[q] == old(links.at)[q]
      ensures fresh(links.at.Values - old(links.at.Values))
      decreases value, 2
    {
      var node := EntryNode(parent, name, p);
      StoreBelow(value, node, p + [name]);
    }

    method StoreBelow(value: Value, node: ParameterNode, ghost q: Path)
      requires Valid() && Holder(node, q) && q != []
      modifies this, links.at.Values
      ensures Valid()
      ensures Model() == if value.Map? then Merge(old(Model()), q, value) else Tree(old(Model()).values[q := value], old(Model()).holes)
      ensures forall r :: r in old(links.at) ==> r in links.at && links.at[r] == old(links.at)[r]
      ensures fresh(links.at.Values - old(links.at.Values))
      decreases value, 1
    {
      if value.Map? {
        ExpandMap(value, node, q);
      } else {
        SetValue(node, value, q);
      }
    }

    /** A map is stored below a node, entry by entry; children already there stay. */
    method ExpandMap(m: Value, parent: ParameterNode, ghost p: Path)
      requires Valid() && Holder(parent, p) && p != [] && m.Map?
      modifies this, links.at.Values
      ensures Valid() && Model() == Merge(old(Model()), p, m)
      ensures forall q :: q in old(links.at) ==> q in links.at && links.at[q] == old(links.at)[q]
      ensures fresh(links.at.Values - old(links.at.Values))
      decreases m, 0
    {
      var rest := m.entries.Keys;
      ghost var done: map<string, Value> := map[];
      PresentNode(p);
      MergeNothing(Model(), p);
      while rest != {}
        invariant Valid()
        invariant forall q :: q in old(links.at) ==> q in links.at && links.at[q] == old(links.at)[q]
        invariant fresh(links.at.Values - old(links.at.Values))
        invariant rest <= m.entries.Keys
        invariant done == map k | k in m.entries && k !in rest :: m.entries[k]
        invariant Model() == Merge(old(Model()), p, Map(done))
        decreases |rest|
      {
        var name :| name in rest;
        MergeStep(old(Model()), p, done, name, m.entries[name]);
        ExpandEntry(name, m.entries[name], parent, p);
        rest := rest - {name};
        done := done[name := m.entries[name]];
      }
      assert done == m.entries;
    }

    /** Only the value of the node changes. */
    method SetValue(node: ParameterNode, value: Value, ghost p: Path)
      requires Valid() && p in links.at && node == links.at[p] && !value.Map?
      modifies this`links, node`value
      ensures Valid() && links.at == old(links.at)
      ensures Model() == Tree(old(Model()).values[p := value], old(Model()).holes)
    {
      Opened();
      WithValueSound(links, p, value);
      node.value := value;
      links := WithValue(links, p, value);
      Closing();
    }

    /** The loop down the components, making the nodes that are missing. */
    method Descend(parts: Path) returns (node: ParameterNode)
      requires Valid() && parts != []
      modifies this, links.at.Values
      ensures Valid() && Holder(node, parts)
      ensures Model() == Reached(old(Model()), parts)
      ensures fresh(links.at.Values - old(links.at.Values))
    {
      ReachedNothing(Model());
      ReachedStep(Model(), parts, 0);
      node := EntryNode(null, parts[0], []);
      var i := 1;
      while i < |parts|
        invariant 1 <= i <= |parts|
        invariant Valid() && Holder(node, parts[..i])
        invariant Model() == Reached(old(Model()), parts[..i])
        invariant fresh(links.at.Values - old(links.at.Values))
      {
        ReachedStep(old(Model()), parts, i);
        node := EntryNode(node, parts[i], parts[..i]);
        i := i + 1;
      }
      assert parts[..i] == parts;
    }

    method SetParameter(name: string, value: Value)
      requires Valid()
      modifies this, links.at.Values
      ensures Valid() && Model() == Set(old(Model()), Parse(name), value)
      ensures fresh(links.at.Values - old(links.at.Values))
    {
      var parts := ParseParameterName(name);
      ParseCanonical(name);
      var node := Descend(parts);
      if value.Map? {
        ExpandMap(value, node, parts);
      } else {
        SetLeaf(node, value, parts);
      }
    }

    // -------------------------------------------------------------- lookups

    lemma ModelFacts()
      requires Valid()
      ensures Closed(Model())
      ensures forall p :: p in links.at <==> p in Model().values
    {
      Opened();
      SoundClosed(links);
    }

    lemma NodeFacts(p: Path)
      requires Valid() && p in links.at
      ensures p in Model().values && p != [] && Last(p) == links.at[p].name
      ensures links.at[p].value == Model().values[p]
      ensures Parent(p) == [] || Parent(p) in links.at
      ensures links.at[p].parent == if Parent(p) == [] then null else links.at[Parent(p)]
      ensures links.at[p].children == map[] <==> Names(Model().values.Keys, p) == {} && Names(Model().holes, p) == {}
    {
      Opened();
      assert MirrorsNode(p);
      assert NodeAt(links, p);
      NoEntries(links, p);
    }

    lemma ChildFacts(p: Path, k: string)
      requires Valid() && p in links.at
      ensures k in links.at[p].children <==> p + [k] in links.at || p + [k] in Model().holes
      ensures k in links.at[p].children ==> links.at[p].children[k] == if p + [k] in links.at then links.at[p + [k]] else null
      ensures p + [k] in links.at <==> p + [k] in Model().values
    {
      Opened();
      assert MirrorsNode(p);
      EntryFacts(links, p, k);
    }

    /** The loop of a lookup: down the components with the indexing operator, until a node is missing. */
    method FindParameter(name: string) returns (node: ParameterNode?)
      requires Valid()
      modifies this, links.at.Values
      ensures Valid() && links.at == old(links.at)
      ensures Model() == Looked(old(Model()), Parse(name))
      ensures node == if Parse(name) in links.at then links.at[Parse(name)] else null
    {
      var parts := ParseParameterName(name);
      ParseCanonical(name);
      ModelFacts();
      ghost var t := Model();
      node := Entry(null, parts[0], []);
      var i := 1;
      assert [] + [parts[0]] == parts[..1];
      if node == null {
        MissingOnWay(t, parts, 1);
      }
      while node != null && i < |parts|
        invariant 1 <= i <= |parts|
        invariant Valid() && links.at == old(links.at)
        invariant node != null ==> Holder(node, parts[..i]) && Model() == t
        invariant node == null ==> Model() == Looked(t, parts) && parts !in t.values
      {
        assert parts[..i] + [parts[i]] == parts[..i+1];
        node := Entry(node, parts[i], parts[..i]);
        i := i + 1;
        if node == null {
          MissingOnWay(t, parts, i);
        }
      }
      assert parts[..|parts|] == parts;
    }

    method HasParameter(name: string) returns (present: bool)
      requires Valid()
      modifies this, links.at.Values
      ensures Valid() && Model() == Looked(old(Model()), Parse(name))
      ensures present <==> Parse(name) in old(Model()).values
    {
      ModelFacts();
      var node := FindParameter(name);
      present := node != null;
    }

    /** The value of a node: its own for a leaf, otherwise the map of its children. */
    method NodeValue(node: ParameterNode, ghost p: Path) returns (ok: bool, value: Value)
      requires Valid() && p != [] && Holder(node, p)
      ensures p in Model().values
      ensures ok <==> !HoleBelow(Model(), p)
      ensures ok ==> value == ValueAt(Model().values, p)
      decreases BelowIn(Model().values.Keys, p), 1
    {
      ModelFacts();
      NodeFacts(p);
      if node.children == map[] {
        LeafNoHole(Model(), p);
        return true, node.value;
      }
      var m;
      ok, m := MakeMap(node, p);
      value := Map(m);
    }

    /** The map of a node's children; an empty entry anywhere below is dereferenced. */
    method MakeMap(node: ParameterNode, ghost p: Path) returns (ok: bool, m: map<string, Value>)
      requires Valid() && p != [] && Holder(node, p) && node.children != map[]
      ensures p in Model().values
      ensures ok <==> !HoleBelow(Model(), p)
      ensures ok ==> Map(m) == ValueAt(Model().values, p)
      decreases BelowIn(Model().values.Keys, p), 0
    {
      ModelFacts();
      NodeFacts(p);
      var rest := node.children.Keys;
      m := map[];
      while rest != {}
        invariant rest <= node.children.Keys
        invariant m.Keys == node.children.Keys - rest
        invariant Gathered(Model(), p, m)
        decreases |rest|
      {
        var name :| name in rest;
        var child := node.children[name];
        ChildFacts(p, name);
        if child == null {
          assert p < p + [name];
          return false, m;
        }
        BelowShrinks(Model().values.Keys, p, name);
        var value;
        ok, value := NodeValue(child, p + [name]);
        if !ok {
          HoleFurther(Model(), p, name);
          return;
        }
        m := m[name := value];
        rest := rest - {name};
      }
      ok := true;
      forall k ensures k in m <==> p + [k] in Model().values || p + [k] in Model().holes {
        ChildFacts(p, k);
      }
      Assembled(Model(), p, m);
    }

    method GetParameter(name: string) returns (r: Lookup)
      requires Valid()
      modifies this, links.at.Values
      ensures Valid() && Model() == Looked(old(Model()), Parse(name))
      ensures r == Get(old(Model()), Parse(name))
    {
      ModelFacts();
      var node := FindParameter(name);
      if node == null {
        return NotFound;
      }
      var ok, value := NodeValue(node, Parse(name));
      r := if ok then Found(value) else NullDereference;
    }

    // -------------------------------------------------------------- deleting

    /** An entry is taken out, and the links forget all that hung from it. */
    method Detach(parent: ParameterNode?, k: string, ghost p: Path)
      requires Mirrors() && OneToOne(links.at) && [] !in links.at && Holder(parent, p)
      requires Complete(Without(links, p, k))
      modifies this, links.at.Values`children
      ensures p in old(links).entries && links == Without(old(links), p, k)
      ensures Mirrors()
    {
      ghost var u := Without(links, p, k);
      assert forall r :: r in links.at ==> MirrorsNode(r);
      if parent == null {
        nodes := nodes - {k};
      } else {
        parent.children := parent.children - {k};
      }
      assert nodes == u.entries[[]];
      forall r | r in u.at
        ensures u.at[r].children == u.entries[r] && u.at[r].parent == u.parents[r] && u.at[r].value == u.values[r]
      {
        assert r in links.at && u.at[r] == links.at[r];
        assert r != p ==> links.at[r] != parent;
      }
      links := u;
    }

    /** Erasing an entry drops all that hung from it. */
    method Erase(parent: ParameterNode?, k: string, ghost p: Path)
      requires Valid() && Holder(parent, p)
      modifies this, links.at.Values`children
      ensures Valid()
      ensures Model() == Tree(map r | r in old(Model()).values && !(Child(p, k) <= r) :: old(Model()).values[r],
                              set h | h in old(Model()).holes && !(Child(p, k) <= h))
    {
      Opened();
      NoEmptyPath(links);
      WithoutSound(links, p, k);
      Detach(parent, k, p);
      Closing();
    }

    /** The way to the node that holds the last entry, unless an entry is missing or empty on it. */
    method Approach(parts: Path) returns (r: Deletion, node: ParameterNode?)
      requires Valid() && |parts| > 1
      ensures r == Deleted ==> Holder(node, parts[..|parts|-1])
      ensures r != Deleted ==> Delete(Model(), parts) == (r, Model())
    {
      var last := |parts| - 1;
      ModelFacts();
      RootFacts(parts[0]);
      assert parts[..1] == [parts[0]];
      if parts[0] !in nodes {
        NothingToDelete(Model(), parts, 0);
        return NoSuchParameter, null;
      }
      node := nodes[parts[0]];
      var i := 1;
      while i < last
        invariant 1 <= i <= last
        invariant if node == null then parts[..i] in Model().holes else Holder(node, parts[..i])
      {
        if node == null {
          assert parts[..i] < parts;
          return NullTraversed, null;
        }
        ChildFacts(parts[..i], parts[i]);
        assert parts[..i] + [parts[i]] == parts[..i+1];
        if parts[i] !in node.children {
          NothingToDelete(Model(), parts, i);
          return NoSuchParameter, null;
        }
        node := node.children[parts[i]];
        i := i + 1;
      }
      if node == null {
        assert parts[..i] < parts;
        return NullTraversed, null;
      }
      r := Deleted;
    }

    method DeleteParameter(name: string) returns (r: Deletion)
      requires Valid()
      modifies this, links.at.Values
      ensures Valid() && (r, Model()) == Delete(old(Model()), Parse(name))
    {
      var parts := ParseParameterName(name);
      var last := |parts| - 1;
      assert parts[..last] + [parts[last]] == parts;
      ModelFacts();
      var node: ParameterNode? := null;
      if |parts| > 1 {
        r, node := Approach(parts);
        if r != Deleted {
          return;
        }
      }
      r := EraseAt(node, parts);
    }

    /** The last entry is erased if it is there, empty or not. */
    method EraseAt(node: ParameterNode?, parts: Path) returns (r: Deletion)
      requires Valid() && parts != [] && Holder(node, parts[..|parts|-1])
      modifies this, links.at.Values
      ensures Valid() && (r, Model()) == Delete(old(Model()), parts)
    {
      var last := |parts| - 1;
      assert parts[..last] + [parts[last]] == parts[..last+1] == parts;
      ModelFacts();
      var entries := if node == null then nodes else node.children;
      HolderFacts(node, parts[..last], parts[last]);
      if parts[last] !in entries {
        NothingToDelete(Model(), parts, last);
        return NoSuchParameter;
      }
      PresentToDelete(Model(), parts);
      Erase(node, parts[last], parts[..last]);
      r := Deleted;
    }

    lemma HolderFacts(node: ParameterNode?, p: Path, k: string)
      requires Valid() && Holder(node, p)
      ensures k in (if node == null then nodes else node.children) <==> p + [k] in links.at || p + [k] in Model().holes
      ensures p == [] || p in Model().values
      ensures p + [k] in links.at <==> p + [k] in Model().values
    {
      ModelFacts();
      if p == [] {
        RootFacts(k);
        assert p + [k] == [k];
      } else {
        ChildFacts(p, k);
      }
    }

    lemma RootFacts(k: string)
      requires Valid()
      ensures k in nodes <==> [k] in links.at || [k] in Model().holes
      ensures k in nodes ==> nodes[k] == if [k] in links.at then links.at[[k]] else null
    {
      Opened();
      EntryFacts(links, [], k);
      assert [] + [k] == [k];
    }

    // -------------------------------------------------------------- flattening

    /** The climb over the parent pointers names the path the node was reached by. */
    method GetFullName(node: ParameterNode, ghost p: Path) returns (full: string)
      requires Valid() && p != [] && Holder(node, p)
      ensures full == FullName(p)
    {
      full := node.name;
      var parent := node.parent;
      ghost var i := |p| - 1;
      NodeFacts(p);
      assert p[i..] == [node.name] && p[..i] == Parent(p);
      while parent != null
        invariant 0 <= i < |p| && Holder(parent, p[..i])
        invariant full == Join(p[i..])
        decreases i
      {
        NodeFacts(p[..i]);
        assert Parent(p[..i]) == p[..i-1];
        assert p[i-1..] == [parent.name] + p[i..];
        full := parent.name + "/" + full;
        parent := parent.parent;
        i := i - 1;
      }
      assert p[0..] == p;
      full := "/" + full;
    }

    method Flatten(node: ParameterNode, params: seq<Parameter>, ghost p: Path)
      returns (all: seq<Parameter>, ghost leaves: seq<Path>)
      requires Valid() && p != [] && Holder(node, p)
      ensures LeavesAmong(Model(), leaves, iset q | AtOrBelow(p, q))
      ensures all == params + Flattened(Model(), leaves)
      ensures exists order :: LeavesAmong(Model(), order, iset q | AtOrBelow(p, q)) && all == params + Flattened(Model(), order)
      decreases BelowIn(Model().values.Keys, p)
    {
      ModelFacts();
      NodeFacts(p);
      all := params;
      if node.children == map[] {
        var full := GetFullName(node, p);
        all := all + [Parameter(full, node.value)];
        leaves := [p];
        OneLeaf(Model(), p);
        return;
      }
      leaves := [];
      var rest := node.children.Keys;
      forall k ensures p + [k] in Model().values ==> k in rest {
        ChildFacts(p, k);
      }
      LeavesNone(Model(), p, rest);
      while rest != {}
        invariant rest <= node.children.Keys
        invariant LeavesAmong(Model(), leaves, iset q | ThroughDone(p, rest, q))
        invariant all == params + Flattened(Model(), leaves)
        decreases |rest|
      {
        var name :| name in rest;
        var child := node.children[name];
        ChildFacts(p, name);
        if child != null {
          BelowShrinks(Model().values.Keys, p, name);
          ghost var more;
          all, more := Flatten(child, all, p + [name]);
          LeavesMore(Model(), p, rest, name, leaves, more);
          leaves := leaves + more;
        } else {
          LeavesSkip(Model(), p, rest, name, leaves);
        }
        rest := rest - {name};
      }
      LeavesAll(Model(), p, leaves);
    }

    /** Every leaf with its full name, in no particular order. */
    method GetAllParameters() returns (all: seq<Parameter>, ghost leaves: seq<Path>)
      requires Valid()
      ensures ListsLeaves(Model(), leaves)
      ensures all == Flattened(Model(), leaves)
      ensures exists order :: ListsLeaves(Model(), order) && all == Flattened(Model(), order)
    {
      ModelFacts();
      all := [];
      leaves := [];
      var rest := nodes.Keys;
      forall k ensures [] + [k] in Model().values ==> k in rest {
        RootFacts(k);
        assert [] + [k] == [k];
      }
      LeavesNone(Model(), [], rest);
      while rest != {}
        invariant rest <= nodes.Keys
        invariant LeavesAmong(Model(), leaves, iset q | ThroughDone([], rest, q))
        invariant all == Flattened(Model(), leaves)
        decreases |rest|
      {
        var name :| name in rest;
        var node := nodes[name];
        RootFacts(name);
        assert [] + [name] == [name];
        if node != null {
          ghost var more;
          all, more := Flatten(node, all, [] + [name]);
          LeavesMore(Model(), [], rest, name, leaves, more);
          leaves := leaves + more;
        } else {
          LeavesSkip(Model(), [], rest, name, leaves);
        }
        rest := rest - {name};
      }
      LeavesAll(Model(), [], leaves);
      forall q ensures q in leaves <==> IsLeaf(Model(), q) {
        assert AtOrBelow([], q);
      }
    }

    method Clear()
      requires Valid()
      modifies this
      ensures Valid() && Model() == EMPTY_TREE && links.at == map[]
    {
      nodes := map[];
      links := Links(map[], {}, map[[] := map[]], map[], map[]);
      Closing();
    }
  }
}
