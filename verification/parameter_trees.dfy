/**
 * What a parameter server means: the values at its paths, and the holes that failed lookups leave
 * behind.  Every operation of the server has its effect on this tree given here in closed form.
 */
module ParameterTrees {
  import opened ParameterNames

  /** Unset is the value of a node that was only made to carry children. */
  datatype Value =
    | Unset
    | Text(text: string)
    | Int32(int32: int)
    | Int64(int64: int)
    | Double(double: real)
    | Bool(truth: bool)
    | Bytes(bytes: seq<bv8>)
    | Time(seconds: int, nanos: int)
    | List(elements: seq<Value>)
    | Map(entries: map<string, Value>)

  datatype Lookup = Found(value: Value) | NotFound | NullDereference

  datatype Deletion = Deleted | NoSuchParameter | NullTraversed

  /** Values by path; a hole is a path whose entry exists but points to no node. */
  datatype Tree = Tree(values: map<Path, Value>, holes: set<Path>)

  const EMPTY_TREE := Tree(map[], {})

  function Parent(p: Path): Path
    requires p != []
  {
    p[..|p|-1]
  }

  function Last(p: Path): string
    requires p != []
  {
    p[|p|-1]
  }

  /** The parent is the server itself or a node. */
  predicate Rooted(values: map<Path, Value>, p: Path) {
    p != [] && (|p| == 1 || Parent(p) in values)
  }

  /** Paths are prefix-closed, a map is never stored as a value, holes hang from nodes. */
  ghost predicate Closed(t: Tree) {
    && (forall p | p in t.values :: Rooted(t.values, p) && !t.values[p].Map?)
    && (forall h | h in t.holes :: Rooted(t.values, h) && h !in t.values)
  }

  predicate Comparable(p: Path, q: Path) {
    p <= q || q <= p
  }

  // ---------------------------------------------------------------- reading

  function BelowIn(keys: set<Path>, p: Path): set<Path> {
    set q | q in keys && p < q
  }

  /** The names of the nodes directly under a path. */
  function Names(keys: set<Path>, p: Path): set<string> {
    set q | q in keys && p < q && |q| == |p| + 1 :: q[|p|]
  }

  lemma NamesAre(keys: set<Path>, p: Path, k: string)
    ensures k in Names(keys, p) <==> p + [k] in keys
  {
    if p + [k] in keys {
      assert p < p + [k] && (p + [k])[|p|] == k;
    }
    if k in Names(keys, p) {
      var q :| q in keys && p < q && |q| == |p| + 1 && q[|p|] == k;
      assert q == p + [k];
    }
  }

  lemma BelowShrinks(keys: set<Path>, p: Path, k: string)
    requires p + [k] in keys
    ensures BelowIn(keys, p + [k]) < BelowIn(keys, p)
  {
    assert p + [k] in BelowIn(keys, p) && p + [k] !in BelowIn(keys, p + [k]);
    forall q | q in BelowIn(keys, p + [k]) ensures q in BelowIn(keys, p) {
      assert p < p + [k] < q;
    }
  }

  /** The value of a node: its own when it is a leaf, otherwise the map of its children's. */
  function ValueAt(values: map<Path, Value>, p: Path): Value
    requires p in values
    decreases BelowIn(values.Keys, p)
  {
    if Names(values.Keys, p) == {} then values[p]
    else Map(map k | k in Names(values.Keys, p) ::
      NamesAre(values.Keys, p, k); BelowShrinks(values.Keys, p, k); ValueAt(values, p + [k]))
  }

  predicate HoleBelow(t: Tree, p: Path) {
    exists h :: h in t.holes && p < h
  }

  function Get(t: Tree, p: Path): Lookup {
    if p !in t.values then NotFound
    else if HoleBelow(t, p) then NullDereference
    else Found(ValueAt(t.values, p))
  }

  /** The first node missing on the way to a path. */
  function Gap(values: map<Path, Value>, p: Path, i: nat): Path
    requires 0 < i <= |p|
    decreases |p| - i
  {
    if p[..i] !in values || i == |p| then p[..i] else Gap(values, p, i + 1)
  }

  /** A lookup that fails leaves an empty entry where it stopped. */
  function Looked(t: Tree, p: Path): Tree
    requires p != []
  {
    if p in t.values then t else Tree(t.values, t.holes + {Gap(t.values, p, 1)})
  }

  // ---------------------------------------------------------------- changing

  function Prefixes(p: Path): set<Path> {
    set i: nat | 1 <= i <= |p| :: p[..i]
  }

  function ValueOr(values: map<Path, Value>, p: Path): Value {
    if p in values then values[p] else Unset
  }

  /** The tree with a node on every prefix of the path. */
  function Reached(t: Tree, p: Path): Tree {
    Tree(map q | q in t.values.Keys + Prefixes(p) :: ValueOr(t.values, q), t.holes - Prefixes(p))
  }

  /** The leaf takes the value and loses its children. */
  function Overwrite(t: Tree, p: Path, v: Value): Tree {
    Tree((map q | q in t.values && !(p < q) :: t.values[q])[p := v], set h | h in t.holes && !(p < h))
  }

  /** The value found by following names into nested maps. */
  function At(v: Value, r: Path): (found: seq<Value>)
    ensures |found| <= 1
    decreases |r|
  {
    if r == [] then [v]
    else if v.Map? && r[0] in v.entries then At(v.entries[r[0]], r[1..])
    else []
  }

  /** Every chain of names leading into nested maps, the empty one included. */
  function Chains(v: Value): set<Path> {
    if v.Map? then {[]} + (set k, r | k in v.entries && r in Chains(v.entries[k]) :: [k] + r) else {[]}
  }

  lemma {:induction false} ChainsAre(v: Value, r: Path)
    ensures r in Chains(v) <==> At(v, r) != []
    decreases |r|
  {
    if r != [] {
      if v.Map? && r[0] in v.entries {
        ChainsAre(v.entries[r[0]], r[1..]);
        assert r == [r[0]] + r[1..];
      }
      if r in Chains(v) {
        var k, s :| k in v.entries && s in Chains(v.entries[k]) && r == [k] + s;
        assert r[0] == k && r[1..] == s;
      }
    }
  }

  function Under(p: Path, v: Value): set<Path> {
    set r | r in Chains(v) :: p + r
  }

  lemma UnderAre(p: Path, v: Value, q: Path)
    ensures q in Under(p, v) <==> p <= q && At(v, q[|p|..]) != []
  {
    if q in Under(p, v) {
      var r :| r in Chains(v) && q == p + r;
      assert q[|p|..] == r;
      ChainsAre(v, r);
    }
    if p <= q && At(v, q[|p|..]) != [] {
      ChainsAre(v, q[|p|..]);
      assert q == p + q[|p|..];
    }
  }

  function Merged(values: map<Path, Value>, p: Path, v: Value, q: Path): Value {
    if p < q && At(v, q[|p|..]) != [] && !At(v, q[|p|..])[0].Map? then At(v, q[|p|..])[0]
    else ValueOr(values, q)
  }

  /** A map is merged in below an existing node: its scalars are stored, nothing is removed. */
  function Merge(t: Tree, p: Path, v: Value): Tree {
    Tree(map q | q in t.values.Keys + Under(p, v) :: Merged(t.values, p, v, q), t.holes - Under(p, v))
  }

  function Set(t: Tree, p: Path, v: Value): Tree {
    if v.Map? then Merge(Reached(t, p), p, v) else Overwrite(Reached(t, p), p, v)
  }

  function Delete(t: Tree, p: Path): (Deletion, Tree) {
    if exists h :: h in t.holes && h < p then (NullTraversed, t)
    else if p in t.values || p in t.holes
    then (Deleted, Tree(map q | q in t.values && !(p <= q) :: t.values[q], set h | h in t.holes && !(p <= h)))
    else (NoSuchParameter, t)
  }
}
