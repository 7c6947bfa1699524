/** The connection from Capcom to one StageZero, with its dynamic reference count. */
module Umbilicals {
  datatype UmbilicalState = LinkClosed | LinkConnecting | LinkConnected

  /** The state, the references, and whether the client behind the umbilical has its sockets. */
  datatype Umb = Umb(state: UmbilicalState, dynamicRefs: int, isStatic: bool, alive: bool) {
    predicate IsConnected() {
      state == LinkConnected && alive
    }

    predicate WasClosed() {
      state == LinkClosed
    }

    /** An existing connection is put back to connecting. */
    function Precondition(): Umb {
      this.(state := LinkConnecting, dynamicRefs := dynamicRefs + 1)
    }

    function Connect(reachable: bool): Umb {
      if state != LinkConnecting then this
      else if reachable then this.(state := LinkConnected, alive := true)
      else this.(alive := false)
    }

    function Disconnect(dynamicOnly: bool): Umb {
      var u := this.(dynamicRefs := dynamicRefs - 1);
      if (dynamicOnly && isStatic) || u.dynamicRefs > 0 then u else u.(state := LinkClosed, alive := false)
    }

    function Fail(): Umb {
      this.(state := LinkClosed)
    }

    /** The client finds its sockets gone; the umbilical is not told. */
    function Lose(): Umb {
      this.(alive := false)
    }
  }

  const FRESH_UMB := Umb(LinkClosed, 0, false, false)

  /** Asking again for a connection takes it back to connecting, and adds a reference. */
  lemma AskingAgain(u: Umb, dynamicOnly: bool)
    ensures u.Precondition().state == LinkConnecting && u.Precondition().alive == u.alive
    ensures !u.Precondition().WasClosed() && !u.Precondition().IsConnected()
    ensures u.Precondition().Disconnect(dynamicOnly).dynamicRefs == u.dynamicRefs
    ensures u.Precondition().Disconnect(dynamicOnly) == u
       <==> if u.dynamicRefs > 0 || (dynamicOnly && u.isStatic) then u.state == LinkConnecting
            else u.state == LinkClosed && !u.alive
  {
  }

  class Umbilical {
    var state: UmbilicalState
    var dynamicRefs: int
    const isStatic: bool
    var alive: bool

    constructor (isStatic: bool)
      ensures Value() == Umb(LinkClosed, 0, isStatic, false)
    {
      state := LinkClosed;
      dynamicRefs := 0;
      alive := false;
      this.isStatic := isStatic;
    }

    function Value(): Umb
      reads this
    {
      Umb(state, dynamicRefs, isStatic, alive)
    }

    method Precondition() returns (wasClosed: bool)
      modifies this
      ensures wasClosed == old(Value()).WasClosed() && Value() == old(Value()).Precondition()
      ensures state == LinkConnecting && alive == old(alive) && dynamicRefs == old(dynamicRefs) + 1
    {
      wasClosed := state == LinkClosed;
      state := LinkConnecting;
      dynamicRefs := dynamicRefs + 1;
    }

    /** The outcome of the client's handshake is given. */
    method Connect(reachable: bool) returns (ok: bool)
      modifies this
      ensures Value() == old(Value()).Connect(reachable)
      ensures ok <==> old(state) == LinkConnecting && reachable
      ensures ok ==> Value().IsConnected()
      ensures !ok ==> state == old(state) && alive == (old(alive) && old(state) != LinkConnecting)
      ensures dynamicRefs == old(dynamicRefs)
    {
      if state != LinkConnecting {
        return false;
      }
      alive := reachable;
      if !reachable {
        return false;
      }
      state := LinkConnected;
      ok := true;
    }

    method Disconnect(dynamicOnly: bool)
      modifies this
      ensures Value() == old(Value()).Disconnect(dynamicOnly)
      ensures dynamicRefs == old(dynamicRefs) - 1
      ensures dynamicRefs > 0 || (dynamicOnly && isStatic) ==> state == old(state) && alive == old(alive)
      ensures dynamicRefs <= 0 && (!dynamicOnly || !isStatic) ==> state == LinkClosed && !alive
    {
      dynamicRefs := dynamicRefs - 1;
      if dynamicOnly && isStatic {
        return;
      }
      if dynamicRefs > 0 {
        return;
      }
      alive := false;
      state := LinkClosed;
    }

    method Fail()
      modifies this
      ensures Value() == old(Value()).Fail()
      ensures state == LinkClosed && alive == old(alive) && dynamicRefs == old(dynamicRefs)
    {
      state := LinkClosed;
    }
  }
}
