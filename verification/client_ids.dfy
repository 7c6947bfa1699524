/** The ids of the clients connected to Capcom, over any run of connections and closings. */
module ClientIds {
  import opened ClientBits
  import opened BitSets

  datatype Clients = Clients(ids: Bits, live: seq<nat>)

  datatype Happening = Connect(id: nat) | Close(index: nat)

  function Others(live: seq<nat>, i: nat): seq<nat>
    requires i < |live|
  {
    live[..i] + live[i+1..]
  }

  ghost predicate Next(c: Clients, h: Happening, d: Clients) {
    match h
    case Connect(id) => LeastAbsent(c.ids.members, id) && d == Clients(c.ids.Set(id), c.live + [id])
    case Close(i) => i < |c.live| && d == Clients(c.ids.Clear(c.live[i]), Others(c.live, i))
  }

  ghost predicate Distinct(live: seq<nat>) {
    forall i, j :: 0 <= i < j < |live| ==> live[i] != live[j]
  }

  /** The ids set are those of the live clients, and no two clients share one. */
  ghost predicate Inv(c: Clients) {
    && c.ids.Valid()
    && Distinct(c.live)
    && forall id: nat :: id in c.ids.members <==> id in c.live
  }

  lemma {:induction false} DistinctSize(live: seq<nat>, n: nat)
    requires Distinct(live) && forall j: nat :: j < n ==> j in live
    ensures n <= |live|
    decreases n
  {
    if n > 0 {
      assert n - 1 in live;
      var i :| 0 <= i < |live| && live[i] == n - 1;
      var rest := Others(live, i);
      forall j: nat | j < n - 1 ensures j in rest {
        assert j in live;
        var k :| 0 <= k < |live| && live[k] == j;
        assert rest[if k < i then k else k - 1] == j;
      }
      DistinctSize(rest, n - 1);
    }
  }

  /** A new id is not in use, fits the words there are or one more, and is at most the number of live clients. */
  lemma NewId(c: Clients, id: nat)
    requires Inv(c) && LeastAbsent(c.ids.members, id)
    ensures id !in c.live && id <= |c.live| && id / 64 <= c.ids.words
  {
    DistinctSize(c.live, id);
    if id > 0 {
      assert id - 1 in c.ids.members;
    }
  }

  lemma StepKeeps(c: Clients, h: Happening, d: Clients)
    requires Inv(c) && Next(c, h, d)
    ensures Inv(d)
  {
    match h
    case Connect(id) =>
      NewId(c, id);
    case Close(i) =>
      var id := c.live[i];
      forall n: nat ensures n in Others(c.live, i) <==> n in c.live && n != id {
        if n in c.live && n != id {
          var k :| 0 <= k < |c.live| && c.live[k] == n;
          assert Others(c.live, i)[if k < i then k else k - 1] == n;
        }
      }
  }

  ghost predicate Run(cs: seq<Clients>, hs: seq<Happening>) {
    && |cs| == |hs| + 1
    && cs[0] == Clients(EMPTY_BITS, [])
    && forall k {:trigger hs[k]} :: 0 <= k < |hs| ==> Next(cs[k], hs[k], cs[k+1])
  }

  lemma {:induction false} InvAlways(cs: seq<Clients>, hs: seq<Happening>, n: nat)
    requires Run(cs, hs) && n < |cs|
    ensures Inv(cs[n])
    decreases n
  {
    if n > 0 {
      InvAlways(cs, hs, n - 1);
      StepKeeps(cs[n-1], hs[n-1], cs[n-1+1]);
    }
  }

  /** In any run live ids are pairwise distinct, and a new id is at most the number of clients already live. */
  lemma IdsDistinctAndSmall(cs: seq<Clients>, hs: seq<Happening>, n: nat)
    requires Run(cs, hs) && n < |cs|
    ensures Distinct(cs[n].live)
    ensures n < |hs| && hs[n].Connect? ==> hs[n].id !in cs[n].live && hs[n].id <= |cs[n].live|
  {
    InvAlways(cs, hs, n);
    if n < |hs| && hs[n].Connect? {
      assert Next(cs[n], hs[n], cs[n+1]);
      NewId(cs[n], hs[n].id);
    }
  }

  /** Capcom's side of it: the bit set and the list of handlers. */
  class Listener {
    const ids: BitSet
    var live: seq<nat>

    ghost function Value(): Clients
      reads this, ids
    {
      Clients(ids.model, live)
    }

    ghost predicate Valid()
      reads this, ids
    {
      ids.Valid() && Inv(Value())
    }

    constructor ()
      ensures Valid() && fresh(ids) && Value() == Clients(EMPTY_BITS, [])
    {
      ids := new BitSet();
      live := [];
    }

    method HandleIncomingConnection() returns (id: nat)
      requires Valid()
      modifies this, ids
      ensures Valid() && Next(old(Value()), Connect(id), Value())
    {
      id := ids.Allocate();
      live := live + [id];
      StepKeeps(old(Value()), Connect(id), Value());
    }

    method CloseHandler(i: nat)
      requires Valid() && i < |live|
      modifies this, ids
      ensures Valid() && Next(old(Value()), Close(i), Value())
    {
      ids.Clear(live[i]);
      live := live[..i] + live[i+1..];
      StepKeeps(old(Value()), Close(i), Value());
    }
  }
}
