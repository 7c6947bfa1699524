/**
 * What a start or stop command does to the clients of a subsystem: the sender comes or goes where the
 * command is heeded, nobody else does, and a subsystem stays up as long as one client is left.
 */
module ClientCommands {
  import opened States
  import opened ClientBits
  import opened Umbilicals
  import opened SubsystemModel

  /** The states in which a command changes who is a client. */
  predicate Heeds(t: Coro, nb: Neighbours, admin: AdminState) {
    t.Live? &&
    match t.state
    case Offline => admin == AdminOnline
    case Connecting => admin == AdminOffline
    case Online => admin == AdminOnline || nb.ParentsOffline()
    case StartingChildren => true
    case StartingProcesses => true
    case StoppingProcesses => true
    case StoppingChildren => true
    case _ => false
  }

  predicate IsBroken(t: Coro) {
    t.Live? && (t.state == Broken || t.state == Degraded)
  }

  /** Nobody but the sender comes or goes; it comes with a heeded start that fits, and goes with a heeded stop. */
  ghost predicate Regarded(before: Bits, after: Bits, heeded: bool, admin: AdminState, c: ClientId) {
    && (forall d :: d != c || c == NO_CLIENT || !heeded ==> (after.Contains(d) <==> before.Contains(d)))
    && (c != NO_CLIENT && heeded && admin == AdminOnline ==>
          (after.Contains(c) <==> before.Contains(c) || c / 64 <= before.words))
    && (c != NO_CLIENT && heeded && admin == AdminOffline ==> !after.Contains(c))
  }

  lemma CommandRegarded(e: Effect, admin: AdminState, c: ClientId, active: OperState, none: OperState)
    requires e.l.clients.Valid()
    ensures Regarded(e.l.clients, Command(e, admin, c, active, none).l.clients, true, admin, c)
  {
  }

  lemma OfflineRegards(e: Effect, t: Coro, nb: Neighbours, admin: AdminState, c: ClientId, m: Message)
    requires t.Live? && t.state == Offline && m == ChangeAdmin(admin, c) && e.l.clients.Valid()
    ensures Regarded(e.l.clients, OfflineMessage(e, t, m).l.clients, Heeds(t, nb, admin), admin, c)
  {
  }

  lemma StartingChildrenRegards(e: Effect, t: Coro, nb: Neighbours, admin: AdminState, c: ClientId, m: Message)
    requires t.Live? && t.state == StartingChildren && m == ChangeAdmin(admin, c) && e.l.clients.Valid()
    ensures Regarded(e.l.clients, StartingChildrenMessage(e, t, nb, m).l.clients, Heeds(t, nb, admin), admin, c)
  {
  }

  lemma ConnectingRegards(e: Effect, t: Coro, nb: Neighbours, admin: AdminState, c: ClientId, m: Message)
    requires t.Live? && t.state == Connecting && m == ChangeAdmin(admin, c) && e.l.clients.Valid()
    ensures Regarded(e.l.clients, ConnectingMessage(e, t, m).l.clients, Heeds(t, nb, admin), admin, c)
  {
  }

  lemma StartingProcessesRegards(e: Effect, t: Coro, nb: Neighbours, admin: AdminState, c: ClientId, m: Message)
    requires t.Live? && t.state == StartingProcesses && m == ChangeAdmin(admin, c) && e.l.clients.Valid()
    ensures Regarded(e.l.clients, StartingProcessesMessage(e, t, m).l.clients, Heeds(t, nb, admin), admin, c)
  {
  }

  lemma OnlineRegards(e: Effect, t: Coro, nb: Neighbours, admin: AdminState, c: ClientId, m: Message)
    requires t.Live? && t.state == Online && m == ChangeAdmin(admin, c) && e.l.clients.Valid()
    ensures Regarded(e.l.clients, OnlineMessage(e, t, nb, m).l.clients, Heeds(t, nb, admin), admin, c)
  {
  }

  lemma StoppingProcessesRegards(e: Effect, t: Coro, nb: Neighbours, admin: AdminState, c: ClientId, m: Message)
    requires t.Live? && t.state == StoppingProcesses && m == ChangeAdmin(admin, c) && e.l.clients.Valid()
    ensures Regarded(e.l.clients, StoppingProcessesMessage(e, t, m).l.clients, Heeds(t, nb, admin), admin, c)
  {
  }

  lemma StoppingChildrenRegards(e: Effect, t: Coro, nb: Neighbours, admin: AdminState, c: ClientId, m: Message)
    requires t.Live? && t.state == StoppingChildren && m == ChangeAdmin(admin, c) && e.l.clients.Valid()
    ensures Regarded(e.l.clients, StoppingChildrenMessage(e, t, nb, m).l.clients, Heeds(t, nb, admin), admin, c)
  {
  }

  /** The clients after a command, in every state but Broken and Degraded. */
  lemma CommandMembers(l: Local, k: nat, nb: Neighbours, admin: AdminState, c: ClientId)
    requires k < |l.coros| && Serves(l.coros[k]) && !IsBroken(l.coros[k]) && l.clients.Valid()
    ensures Regarded(l.clients, TakeMessage(l, k, nb, ChangeAdmin(admin, c)).l.clients, Heeds(l.coros[k], nb, admin), admin, c)
  {
    var e, t, m := Without(l, k), l.coros[k], ChangeAdmin(admin, c);
    if t.Live? {
      match t.state {
        case Offline => OfflineRegards(e, t, nb, admin, c, m);
        case StartingChildren => StartingChildrenRegards(e, t, nb, admin, c, m);
        case Connecting => ConnectingRegards(e, t, nb, admin, c, m);
        case StartingProcesses => StartingProcessesRegards(e, t, nb, admin, c, m);
        case Online => OnlineRegards(e, t, nb, admin, c, m);
        case StoppingProcesses => StoppingProcessesRegards(e, t, nb, admin, c, m);
        case StoppingChildren => StoppingChildrenRegards(e, t, nb, admin, c, m);
        case _ =>
      }
    }
  }

  /** A subsystem that other clients want stays up when one of them stops it, and says so. */
  lemma OthersKeepOnline(l: Local, k: nat, nb: Neighbours, c: ClientId, d: ClientId)
    requires k < |l.coros| && l.coros[k].Live? && l.coros[k].state == Online && l.oper == Online && l.clients.Valid()
    requires c != d && l.clients.Contains(d)
    ensures var r := TakeMessage(l, k, nb, ChangeAdmin(AdminOffline, c));
      && r.l.oper == Online && r.l.admin == l.admin && r.l.clients.Contains(d)
      && r.ups == [Online] && r.downs == []
      && |r.l.coros| == |l.coros| && r.l.coros[|l.coros|-1].Live? && r.l.coros[|l.coros|-1].state == Online
  {
    CommandMembers(l, k, nb, AdminOffline, c);
  }

  /** It goes down exactly when all its parents are going down and the last client stops it. */
  lemma LastClientStops(l: Local, k: nat, nb: Neighbours, c: ClientId)
    requires k < |l.coros| && l.coros[k].Live? && l.coros[k].state == Online && l.oper == Online && l.clients.Valid()
    requires c != NO_CLIENT
    ensures var r := TakeMessage(l, k, nb, ChangeAdmin(AdminOffline, c));
      && (r.l.oper == StoppingProcesses || r.l.oper == Online)
      && (r.l.oper == StoppingProcesses <==> nb.ParentsOffline() && l.clients.members <= {c})
      && (r.l.oper == StoppingProcesses ==>
            && r.l.admin == AdminOffline && r.ups == [] && r.downs == []
            && r.l.coros[|l.coros|-1] == Scheduled(StoppingProcesses, c))
  {
    CommandMembers(l, k, nb, AdminOffline, c);
  }
}
