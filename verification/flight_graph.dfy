/** The dependency graph of FlightDirector: the search for loops and the order of registration. */
module FlightGraph {
  import opened Network

  type Node = string

  /** What each subsystem depends on, in the order given. */
  type Graph = map<Node, seq<Node>>

  /** Dependencies were resolved by name: all of them exist. */
  ghost predicate Resolved(g: Graph) {
    forall n, i {:trigger g[n][i]} :: n in g && 0 <= i < |g[n]| ==> g[n][i] in g
  }

  predicate Edge(g: Graph, a: Node, b: Node) {
    a in g && b in g[a]
  }

  /** Each node depends on the next. */
  ghost predicate Walk(g: Graph, w: seq<Node>) {
    w != [] && forall i {:trigger w[i]} :: 0 <= i < |w| - 1 ==> Edge(g, w[i], w[i+1])
  }

  /** A walk of at least one step that comes back. */
  ghost predicate Loop(g: Graph, w: seq<Node>) {
    Walk(g, w) && |w| >= 2 && w[0] == w[|w|-1]
  }

  ghost predicate Acyclic(g: Graph) {
    forall w :: !Loop(g, w)
  }

  ghost predicate Leads(g: Graph, a: Node, b: Node) {
    exists w :: Walk(g, w) && w[0] == a && w[|w|-1] == b
  }

  lemma WalkExtends(g: Graph, w: seq<Node>, d: Node)
    requires Walk(g, w) && Edge(g, w[|w|-1], d)
    ensures Walk(g, w + [d])
  {
    var v := w + [d];
    forall i {:trigger v[i]} | 0 <= i < |v| - 1 ensures Edge(g, v[i], v[i+1]) {
      assert i < |w| - 1 ==> Edge(g, w[i], w[i+1]);
    }
  }

  // ---------------------------------------------------------------- loops

  /** Every dependency of a node in the first set is in the second. */
  ghost predicate Expanded(g: Graph, done: set<Node>, seen: set<Node>) {
    forall n, d {:trigger Edge(g, n, d)} :: n in done && Edge(g, n, d) ==> d in seen
  }

  /** A walk that enters a set closed under dependencies stays in it. */
  lemma {:induction false} Trapped(g: Graph, seen: set<Node>, w: seq<Node>, i: nat)
    requires Expanded(g, seen, seen) && Walk(g, w) && 1 <= i < |w| && w[1] in seen
    ensures w[i] in seen
    decreases i
  {
    if i > 1 {
      Trapped(g, seen, w, i - 1);
      assert Edge(g, w[i-1], w[i-1+1]);
    }
  }

  /** One root's search below one node; the path leads from the root to the node. */
  method CheckForLoopsFrom(g: Graph, visited: set<Node>, root: Node, node: Node, path: seq<Node>)
    returns (seen: set<Node>, loop: seq<Node>)
    requires Resolved(g) && root in g && node in g
    requires root !in visited && visited <= g.Keys
    requires Walk(g, path) && path[0] == root && Edge(g, path[|path|-1], node)
    ensures visited <= seen <= g.Keys
    ensures loop != [] ==> Loop(g, loop) && loop[0] == root
    ensures loop == [] ==> root !in seen && node in seen && Expanded(g, seen - visited, seen)
    decreases g.Keys - visited
  {
    if node in visited {
      return visited, [];
    }
    seen := visited + {node};
    var here := path + [node];
    WalkExtends(g, path, node);
    if node == root {
      return seen, here;
    }
    loop := [];
    var i := 0;
    while i < |g[node]|
      invariant 0 <= i <= |g[node]| && loop == []
      invariant visited + {node} <= seen <= g.Keys
      invariant root !in seen
      invariant forall j :: 0 <= j < i ==> g[node][j] in seen
      invariant Expanded(g, seen - visited - {node}, seen)
    {
      var dep := g[node][i];
      assert Edge(g, node, dep);
      seen, loop := CheckForLoopsFrom(g, seen, root, dep, here);
      if loop != [] {
        return;
      }
      i := i + 1;
    }
    forall n, d {:trigger Edge(g, n, d)} | n in seen - visited && Edge(g, n, d) ensures d in seen {
      if n == node {
        var j :| 0 <= j < |g[node]| && g[node][j] == d;
      }
    }
  }

  /** The search from one subsystem, the first call of the recursion. */
  method CheckForLoopsAt(g: Graph, root: Node) returns (loop: seq<Node>)
    requires Resolved(g) && root in g
    ensures loop != [] ==> Loop(g, loop)
    ensures loop == [] <==> forall w :: Loop(g, w) ==> w[0] != root
  {
    var seen: set<Node> := {};
    loop := [];
    var i := 0;
    while i < |g[root]|
      invariant 0 <= i <= |g[root]| && loop == []
      invariant seen <= g.Keys && root !in seen
      invariant forall j :: 0 <= j < i ==> g[root][j] in seen
      invariant Expanded(g, seen, seen)
    {
      assert Edge(g, root, g[root][i]);
      seen, loop := CheckForLoopsFrom(g, seen, root, g[root][i], [root]);
      if loop != [] {
        return;
      }
      i := i + 1;
    }
    forall w | Loop(g, w) ensures w[0] != root {
      if w[0] == root {
        assert Edge(g, w[0], w[0+1]);
        Trapped(g, seen, w, |w| - 1);
      }
    }
  }

  /** The check succeeds exactly on acyclic graphs, and otherwise names a loop. */
  method CheckForSubsystemLoops(g: Graph) returns (loop: seq<Node>)
    requires Resolved(g)
    ensures loop == [] <==> Acyclic(g)
    ensures loop != [] ==> Loop(g, loop)
  {
    var rest := g.Keys;
    while rest != {}
      invariant rest <= g.Keys
      invariant forall w :: Loop(g, w) ==> w[0] in rest
      decreases |rest|
    {
      var root :| root in rest;
      loop := CheckForLoopsAt(g, root);
      if loop != [] {
        return;
      }
      rest := rest - {root};
    }
    loop := [];
  }

  // ---------------------------------------------------------------- flattening

  ghost predicate Distinct(vec: seq<Node>) {
    forall i, j :: 0 <= i < j < |vec| ==> vec[i] != vec[j]
  }

  /** All dependencies of each are listed before it. */
  ghost predicate DepsFirst(g: Graph, vec: seq<Node>) {
    forall i, d {:trigger Edge(g, vec[i], d)} :: 0 <= i < |vec| && Edge(g, vec[i], d) ==> d in vec[..i]
  }

  function Elements(vec: seq<Node>): set<Node> {
    set n | n in vec
  }

  /** The nodes that some node of a set leads to. */
  ghost predicate Downstream(g: Graph, froms: set<Node>, n: Node) {
    exists f :: f in froms && Leads(g, f, n)
  }

  lemma LeadsSelf(g: Graph, n: Node)
    ensures Leads(g, n, n)
  {
    assert Walk(g, [n]);
  }

  lemma LeadsThrough(g: Graph, a: Node, b: Node, c: Node)
    requires Edge(g, a, b) && Leads(g, b, c)
    ensures Leads(g, a, c)
  {
    var w :| Walk(g, w) && w[0] == b && w[|w|-1] == c;
    var v := [a] + w;
    forall i {:trigger v[i]} | 0 <= i < |v| - 1 ensures Edge(g, v[i], v[i+1]) {
      assert i > 0 ==> Edge(g, w[i-1], w[i-1+1]);
    }
    assert Walk(g, v) && v[0] == a && v[|v|-1] == c;
  }

  /** A node of a walk that depends on an earlier one closes a loop. */
  lemma BackEdge(g: Graph, w: seq<Node>, k: nat)
    requires Walk(g, w) && k < |w| && Edge(g, w[|w|-1], w[k])
    ensures !Acyclic(g)
  {
    var v := w[k..];
    forall i {:trigger v[i]} | 0 <= i < |v| - 1 ensures Edge(g, v[i], v[i+1]) {
      assert Edge(g, w[k+i], w[k+i+1]);
    }
    WalkExtends(g, v, w[k]);
    assert Loop(g, v + [w[k]]);
  }

  /** What is listed and what is still open make up what was visited. */
  ghost predicate Accounted(visited: set<Node>, vec: seq<Node>, open: set<Node>) {
    Distinct(vec) && visited == Elements(vec) + open && Elements(vec) !! open
  }

  /**
   * Post-order: a node is listed after its dependencies.  The nodes still open are those of the
   * walk that led here.
   */
  method FlattenSubsystemGraph(g: Graph, visited: set<Node>, node: Node, vec: seq<Node>, ghost way: seq<Node>)
    returns (seen: set<Node>, all: seq<Node>)
    requires Resolved(g) && node in g && visited <= g.Keys
    requires way != [] ==> Walk(g, way) && Edge(g, way[|way|-1], node)
    requires Accounted(visited, vec, Elements(way))
    ensures visited + {node} <= seen <= g.Keys
    ensures Accounted(seen, all, Elements(way))
    ensures vec <= all
    ensures Expanded(g, seen - visited, seen)
    ensures forall n :: n in all && n !in vec ==> Leads(g, node, n)
    ensures Acyclic(g) && DepsFirst(g, vec) ==> DepsFirst(g, all)
    decreases g.Keys - visited
  {
    if node in visited {
      return visited, vec;
    }
    seen := visited + {node};
    all := vec;
    ghost var here := way + [node];
    if way != [] {
      WalkExtends(g, way, node);
    }
    assert Elements(here) == Elements(way) + {node};
    LeadsSelf(g, node);
    var i := 0;
    while i < |g[node]|
      invariant 0 <= i <= |g[node]|
      invariant visited + {node} <= seen <= g.Keys
      invariant Accounted(seen, all, Elements(here))
      invariant vec <= all
      invariant Expanded(g, seen - visited - {node}, seen)
      invariant forall j :: 0 <= j < i ==> g[node][j] in seen
      invariant forall n :: n in all && n !in vec ==> Leads(g, node, n)
      invariant Acyclic(g) && DepsFirst(g, vec) ==> DepsFirst(g, all)
    {
      var dep := g[node][i];
      assert Edge(g, node, dep);
      ghost var before := all;
      seen, all := FlattenSubsystemGraph(g, seen, dep, all, here);
      forall n | n in all && n !in vec ensures Leads(g, node, n) {
        if n !in before {
          LeadsThrough(g, node, dep, n);
        }
      }
      i := i + 1;
    }
    Listed(g, seen, all, node, here);
    all := all + [node];
  }

  /** The node last opened can be listed: in an acyclic graph none of its dependencies is open. */
  lemma Listed(g: Graph, seen: set<Node>, vec: seq<Node>, node: Node, here: seq<Node>)
    requires node in g && Walk(g, here) && here[|here|-1] == node
    requires Accounted(seen, vec, Elements(here))
    requires forall j :: 0 <= j < |g[node]| ==> g[node][j] in seen
    ensures Distinct(vec + [node])
    ensures Elements(vec + [node]) == Elements(vec) + {node}
    ensures Acyclic(g) && DepsFirst(g, vec) ==> DepsFirst(g, vec + [node])
  {
    var all := vec + [node];
    assert node in Elements(here);
    forall i | 0 <= i < |vec| ensures vec[i] != node {
      assert vec[i] in Elements(vec);
    }
    if Acyclic(g) && DepsFirst(g, vec) {
      forall i, d {:trigger Edge(g, all[i], d)} | 0 <= i < |all| && Edge(g, all[i], d) ensures d in all[..i] {
        if i < |vec| {
          assert Edge(g, vec[i], d);
          assert all[..i] == vec[..i];
        } else {
          assert all[..i] == vec;
          if d in here {
            var k :| 0 <= k < |here| && here[k] == d;
            BackEdge(g, here, k);
          }
        }
      }
    }
  }

  /** A set that is closed under dependencies holds all it leads to. */
  lemma ClosedDownstream(g: Graph, seen: set<Node>, n: Node)
    requires Expanded(g, seen, seen) && Downstream(g, seen, n)
    ensures n in seen
  {
    var f :| f in seen && Leads(g, f, n);
    var w :| Walk(g, w) && w[0] == f && w[|w|-1] == n;
    if |w| > 1 {
      assert Edge(g, w[0], w[0+1]);
      Trapped(g, seen, w, |w| - 1);
    }
  }

  /** The order of registration: everything the interfaces need, once each, dependencies first. */
  method RegistrationOrder(g: Graph, interfaces: set<Node>) returns (vec: seq<Node>)
    requires Resolved(g) && interfaces <= g.Keys
    ensures Distinct(vec)
    ensures forall n :: n in vec <==> Downstream(g, interfaces, n)
    ensures Acyclic(g) ==> DepsFirst(g, vec)
  {
    var seen: set<Node> := {};
    vec := [];
    assert Elements([]) == {};
    var rest := interfaces;
    while rest != {}
      invariant rest <= interfaces && interfaces - rest <= seen <= g.Keys
      invariant Accounted(seen, vec, {})
      invariant Expanded(g, seen, seen)
      invariant forall n :: n in vec ==> Downstream(g, interfaces, n)
      invariant Acyclic(g) ==> DepsFirst(g, vec)
      decreases |rest|
    {
      var node :| node in rest;
      seen, vec := FlattenSubsystemGraph(g, seen, node, vec, []);
      rest := rest - {node};
    }
    forall n | Downstream(g, interfaces, n) ensures n in vec {
      assert Downstream(g, seen, n);
      ClosedDownstream(g, seen, n);
      assert n in Elements(vec);
    }
  }

  // ---------------------------------------------------------------- registration

  /** A child is unknown to Capcom when it was not added before. */
  predicate UnknownChild(g: Graph, known: set<Node>, n: Node) {
    n in g && exists i :: 0 <= i < |g[n]| && g[n][i] !in known
  }

  /** Capcom refuses a subsystem with an unknown child; the loop goes on with the next. */
  method Register(g: Graph, vec: seq<Node>) returns (refused: seq<Node>)
    requires forall i | 0 <= i < |vec| :: vec[i] in g
    ensures refused == [] <==> DepsFirst(g, vec)
  {
    var known: set<Node> := {};
    refused := [];
    var i := 0;
    while i < |vec|
      invariant 0 <= i <= |vec|
      invariant known <= Elements(vec[..i])
      invariant refused == [] ==> known == Elements(vec[..i]) && DepsFirst(g, vec[..i])
      invariant refused != [] ==> !DepsFirst(g, vec)
    {
      var n := vec[i];
      if UnknownChild(g, known, n) {
        if refused == [] {
          var j :| 0 <= j < |g[n]| && g[n][j] !in known;
          assert Edge(g, vec[i], g[n][j]);
        }
        refused := refused + [n];
      } else {
        known := known + {n};
      }
      DepsFirstStep(g, vec, i);
      i := i + 1;
    }
    assert vec[..i] == vec;
  }

  lemma DepsFirstStep(g: Graph, vec: seq<Node>, i: nat)
    requires i < |vec| && vec[i] in g
    ensures Elements(vec[..i+1]) == Elements(vec[..i]) + {vec[i]}
    ensures DepsFirst(g, vec[..i]) && !UnknownChild(g, Elements(vec[..i]), vec[i]) ==> DepsFirst(g, vec[..i+1])
  {
    var a := vec[..i];
    var b := vec[..i+1];
    assert b == a + [vec[i]];
    if DepsFirst(g, a) && !UnknownChild(g, Elements(a), vec[i]) {
      forall k, d {:trigger Edge(g, b[k], d)} | 0 <= k < |b| && Edge(g, b[k], d) ensures d in b[..k] {
        if k < i {
          assert Edge(g, a[k], d);
          assert a[..k] == b[..k];
        } else {
          assert b[..k] == a;
          var j :| 0 <= j < |g[vec[i]]| && g[vec[i]][j] == d;
        }
      }
    }
  }

  // ---------------------------------------------------------------- what Capcom then holds

  /** Subsystems numbered in the order they were added, each with the numbers of its children. */
  function Numbering(g: Graph, vec: seq<Node>): Topology {
    seq(|vec|, i requires 0 <= i < |vec| => set j: nat | j < |vec| && Edge(g, vec[i], vec[j]))
  }

  /** A list without repetitions has dependencies first exactly when children have lower numbers and none is missing. */
  lemma OrderNumbersChildrenLower(g: Graph, vec: seq<Node>)
    requires Distinct(vec)
    ensures DepsFirst(g, vec) <==>
      Registered(Numbering(g, vec)) && (forall i, d {:trigger Edge(g, vec[i], d)} :: 0 <= i < |vec| && Edge(g, vec[i], d) ==> d in vec)
  {
    var t := Numbering(g, vec);
    if DepsFirst(g, vec) {
      forall p, d | 0 <= p < |t| && d in t[p] ensures d < p {
        assert Edge(g, vec[p], vec[d]);
        var k :| 0 <= k < |vec[..p]| && vec[..p][k] == vec[d];
      }
    }
    if Registered(t) && forall i, d {:trigger Edge(g, vec[i], d)} :: 0 <= i < |vec| && Edge(g, vec[i], d) ==> d in vec {
      forall i, d {:trigger Edge(g, vec[i], d)} | 0 <= i < |vec| && Edge(g, vec[i], d) ensures d in vec[..i] {
        var j :| 0 <= j < |vec| && vec[j] == d;
        assert j in t[i];
      }
    }
  }

  /** A graph that can be listed dependencies first has no loop among what is listed. */
  lemma DepsFirstNoLoop(g: Graph, vec: seq<Node>, w: seq<Node>)
    requires Distinct(vec) && DepsFirst(g, vec) && Loop(g, w)
    ensures w[0] !in vec
  {
    if w[0] in vec {
      var p :| 0 <= p < |vec| && vec[p] == w[0];
      var q := Lower(g, vec, w, |w| - 1, p);
    }
  }

  /** Along a walk the position in the list goes down. */
  lemma {:induction false} Lower(g: Graph, vec: seq<Node>, w: seq<Node>, i: nat, p: nat) returns (q: nat)
    requires Distinct(vec) && DepsFirst(g, vec) && Walk(g, w) && 1 <= i < |w| && p < |vec| && vec[p] == w[0]
    ensures q < p && vec[q] == w[i]
    decreases i
  {
    var above := p;
    if i > 1 {
      above := Lower(g, vec, w, i - 1, p);
    }
    assert Edge(g, w[i-1], w[i-1+1]);
    assert w[i] in vec[..above];
    var k :| 0 <= k < |vec[..above]| && vec[..above][k] == w[i];
    q := k;
  }
}
