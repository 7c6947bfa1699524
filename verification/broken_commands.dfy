/** What commands to a Broken or Degraded subsystem do to its clients. */
module BrokenCommands {
  import opened States
  import opened ClientBits
  import opened Umbilicals
  import opened SubsystemModel

  /** The bit has a word, or the next word can be added for it. */
  predicate Fits(b: Bits, client: ClientId) {
    client / 64 <= b.words
  }

  /** The clients after a start or stop command of a client. */
  function ClientsThen(e: Effect, t: Coro, admin: AdminState, sender: ClientId): Bits
    requires t.Live?
  {
    BrokenMessage(e, t, ChangeAdmin(admin, sender)).l.clients
  }

  /** Whoever sends the command, it changes the membership of the client the state was entered for, and of no other. */
  lemma CommandActsOnOwner(e: Effect, t: Coro, sender: ClientId, c: ClientId)
    requires t.Live? && e.l.clients.Valid()
    ensures ClientsThen(e, t, AdminOnline, sender).Contains(c)
       <==> e.l.clients.Contains(c) || (c == t.client && Fits(e.l.clients, c))
    ensures ClientsThen(e, t, AdminOffline, sender).Contains(c)
       <==> e.l.clients.Contains(c) && c != t.client
  {
  }

  /**
   * A start command enters its sender, and a stop command takes it out, exactly when it was so already
   * or the state was entered for that very client, which for a start must fit the words.
   */
  lemma SenderServedExactly(e: Effect, t: Coro, sender: ClientId)
    requires t.Live? && e.l.clients.Valid()
    ensures ClientsThen(e, t, AdminOnline, sender).Contains(sender)
       <==> e.l.clients.Contains(sender) || (sender == t.client && Fits(e.l.clients, sender))
    ensures !ClientsThen(e, t, AdminOffline, sender).Contains(sender)
       <==> !e.l.clients.Contains(sender) || sender == t.client
  {
    CommandActsOnOwner(e, t, sender, sender);
  }

  /** A start command leaves a subsystem that nobody wants exactly when nobody did and the owner does not fit. */
  lemma StartedForNobody(e: Effect, t: Coro, sender: ClientId)
    requires t.Live? && e.l.clients.Valid()
    ensures var r := BrokenMessage(e, t, ChangeAdmin(AdminOnline, sender)).l;
      && r.oper == StartingChildren
      && (r.clients.IsEmpty() <==> e.l.clients.IsEmpty() && !Fits(e.l.clients, t.client))
  {
    CommandActsOnOwner(e, t, sender, t.client);
    assert !e.l.clients.IsEmpty() ==> exists c :: c in e.l.clients.members;
  }

  /** A restart starts the subsystem over and tells its children to stop, for every sender. */
  lemma RestartStopsChildren(e: Effect, t: Coro, sender: ClientId)
    requires t.Live?
    ensures var r := BrokenMessage(e, t, Restart(sender));
      && r.l.oper == StartingChildren && r.ups == e.ups
      && r.downs == e.downs + [Down(AdminOffline, sender)]
      && r.l.admin == e.l.admin
      && r.l.clients == ClientsThen(e, t, AdminOnline, sender)
  {
  }

  predicate Repairs(m: Message) {
    m.ChangeAdmin? || m.Restart? || m.RestartSome?
  }

  /** The commands that are passed on to the children; that of a restart is a stop. */
  function PassedOn(m: Message): seq<Down> {
    match m
    case ChangeAdmin(admin, c) => [Down(admin, c)]
    case Restart(c) => [Down(AdminOffline, c)]
    case _ => []
  }

  /**
   * What a Broken or Degraded subsystem makes of a command: it counts its restarts from nought again and leaves
   * for the state the command asks for, with the client the state was entered for.
   */
  lemma BrokenHears(l: Local, k: nat, nb: Neighbours, m: Message)
    requires k < |l.coros| && l.coros[k].Live? && (l.coros[k].state == Broken || l.coros[k].state == Degraded)
    requires l.clients.Valid() && Repairs(m)
    ensures var t, r := l.coros[k], TakeMessage(l, k, nb, m);
      var stops := m.ChangeAdmin? && m.admin == AdminOffline;
      var to := if stops then StoppingChildren else if m.RestartSome? then Connecting else StartingChildren;
      && |r.l.procs| == |l.procs|
      && r.l == l.(clients := r.l.clients, procs := r.l.procs, numRestarts := 0, oper := to,
                   admin := if stops then AdminOffline else l.admin,
                   coros := l.coros[..k] + l.coros[k+1..] + [Scheduled(to, t.client)])
      && (forall p | 0 <= p < |l.procs| :: r.l.procs[p] == l.procs[p].(numRestarts := 0))
      && (forall c :: c != t.client ==> (r.l.clients.Contains(c) <==> l.clients.Contains(c)))
      && (r.l.clients.Contains(t.client) <==> !stops && (l.clients.Contains(t.client) || Fits(l.clients, t.client)))
      && r.ups == [] && r.downs == PassedOn(m)
  {
  }

  /** Reports and late restarts of a process change nothing. */
  lemma BrokenStays(l: Local, k: nat, nb: Neighbours, m: Message)
    requires k < |l.coros| && l.coros[k].Live? && (l.coros[k].state == Broken || l.coros[k].state == Degraded)
    requires m.ReportOper? || m.RestartCrashed?
    ensures TakeMessage(l, k, nb, m) == Effect(l.(coros := l.coros[..k] + l.coros[k+1..] + [l.coros[k]]), [], [])
  {
  }

  /** Clients 0 and 1 want the subsystem; it broke for client 0; client 1 stops it, and client 0 is the one taken out. */
  lemma WrongClientStopped(e: Effect, t: Coro)
    requires t == Serving(Broken, 0, Broken) && e.l.clients == Bits(1, {0, 1})
    ensures var r := BrokenMessage(e, t, ChangeAdmin(AdminOffline, 1)).l;
      r.clients == Bits(1, {1}) && r.admin == AdminOffline && r.oper == StoppingChildren
  {
    assert {0, 1} - {0} == {1};
  }
}
