/**
 * What a restarting subsystem and a child of it have to do with each other on the way up, and how each step
 * of either keeps it: no command and no report is lost, and none comes twice where it would do harm.
 */
module RestartLinks {
  import opened States
  import opened ClientBits
  import opened Umbilicals
  import opened SubsystemModel
  import opened Network
  import opened CascadeMeasure
  import opened Configs
  import opened RestartSteps

  function Start(c: ClientId): Message {
    ChangeAdmin(AdminOnline, c)
  }

  /** Subsystem y is about to wait for its children, or waits, and has not heard of child d. */
  predicate Misses(y: Sub, d: SubId) {
    y.l.oper == StartingChildren && d !in Noted(y.l)
  }

  // ---------------------------------------------------------------- a child that has stayed up

  /** Child x of y, number d, is or will be told, and y has heard of it or will; c is the client that y serves. */
  ghost predicate Kid(x: Sub, y: Sub, d: SubId, c: ClientId) {
    && (!Rests(y.l) ==> c == NO_CLIENT || x.l.clients.Contains(c) || Start(c) in x.queue)
    && (Misses(y, d) ==> Start(c) in x.queue || ReportOper(d, Online) in y.queue)
  }

  // ---------------------------------------------------------------- a child that restarts too

  /** Child x of y has been told to start over exactly if y has left its rest, and once. */
  ghost predicate Told(x: Sub, y: Sub, c: ClientId) {
    && (!Rests(x.l) ==> !Rests(y.l))
    && multiset(x.queue)[Start(c)] == if Rests(x.l) && !Rests(y.l) then 1 else 0
  }

  /** Once child d is reported Online, no earlier report of a restart of it is left. */
  ghost predicate NoRelapse(q: seq<Message>, d: SubId) {
    forall a, b | 0 <= a < b < |q| && q[a] == ReportOper(d, Online) :: q[b] != ReportOper(d, Restarting)
  }

  /** What y knows of its restarting child x, number d. */
  ghost predicate Knows(x: Sub, y: Sub, d: SubId) {
    && NoRelapse(y.queue, d)
    && (ReportOper(d, Online) in y.queue || d in Noted(y.l) || !(Rests(y.l) || y.l.oper == StartingChildren) ==> x.l.oper == Online)
    && (d in Noted(y.l) || !(Rests(y.l) || y.l.oper == StartingChildren) ==> ReportOper(d, Restarting) !in y.queue)
    && (Misses(y, d) && IsLive(x.l, Online) ==> ReportOper(d, Online) in y.queue)
  }

  lemma OnlyToldAtRest(x: Sub, y: Sub, c: ClientId)
    requires Told(x, y, c) && Start(c) in x.queue
    ensures Rests(x.l)
  {
    assert multiset(x.queue)[Start(c)] > 0;
  }

  lemma NoLateRestart(x: Sub, y: Sub, d: SubId)
    requires Knows(x, y, d) && ReportOper(d, Restarting) in y.queue
    ensures Rests(y.l) || y.l.oper == StartingChildren
  {
  }

  // ---------------------------------------------------------------- counting messages

  lemma CountHead(q: seq<Message>, m: Message)
    requires q != []
    ensures multiset(q)[m] == multiset(q[1..])[m] + (if q[0] == m then 1 else 0)
  {
    assert q == [q[0]] + q[1..];
  }

  lemma CountReports(q: seq<Message>, s: SubId, ups: seq<OperState>, c: ClientId)
    ensures multiset(q + Reports(s, ups))[Start(c)] == multiset(q)[Start(c)]
  {
    assert Start(c) !in Reports(s, ups);
  }

  lemma CountCommands(q: seq<Message>, downs: seq<Down>, c: ClientId)
    requires downs == [] || downs == [Down(AdminOnline, c)]
    ensures multiset(q + Commands(downs))[Start(c)] == multiset(q)[Start(c)] + |downs|
  {
    if downs == [] {
      assert q + Commands(downs) == q;
    } else {
      assert Commands(downs) == [Start(c)];
    }
  }

  lemma StartSent(downs: seq<Down>, c: ClientId)
    requires downs == [Down(AdminOnline, c)]
    ensures Commands(downs) == [Start(c)]
  {
  }

  lemma ReportsIn(s: SubId, ups: seq<OperState>, d: SubId, o: OperState)
    ensures ReportOper(d, o) in Reports(s, ups) <==> d == s && o in ups
  {
    if d == s && o in ups {
      var i :| 0 <= i < |ups| && ups[i] == o;
      assert Reports(s, ups)[i] == ReportOper(d, o);
    }
  }

  // ---------------------------------------------------------------- steps of a child that has stayed up

  /** Child x reads message m; if it was a command, it answers Online to all its parents. */
  lemma KidReads(x: Sub, x': Sub, y: Sub, y': Sub, d: SubId, c: ClientId, ups: seq<OperState>)
    requires Kid(x, y, d, c) && x.queue != [] && x'.queue == x.queue[1..]
    requires y' == y.(queue := y.queue + Reports(d, ups))
    requires x.l.clients.Contains(c) ==> x'.l.clients.Contains(c)
    requires x.queue[0] == Start(c) && c != NO_CLIENT ==> x'.l.clients.Contains(c)
    requires x.queue[0].ChangeAdmin? ==> ups == [Online]
    ensures Kid(x', y', d, c)
  {
    ReportsIn(d, ups, d, Online);
    assert Start(c) in x.queue ==> x.queue[0] == Start(c) || Start(c) in x.queue[1..];
  }

  /** Somebody else sends messages to either. */
  lemma KidGets(x: Sub, x': Sub, y: Sub, y': Sub, d: SubId, c: ClientId, xs: seq<Message>, ys: seq<Message>)
    requires Kid(x, y, d, c) && x' == x.(queue := x.queue + xs) && y' == y.(queue := y.queue + ys)
    ensures Kid(x', y', d, c)
  {
  }

  /** Its parent y takes a step. */
  lemma KidTold(x: Sub, y: Sub, y': Sub, input: Input, children: set<SubId>, e: Effect, d: SubId, c: ClientId)
    requires Kid(x, y, d, c) && Comes(y.l, input, children, e, c) && y'.l == e.l
    requires Consumes(y, input, y'.queue, y'.events)
    ensures Kid(x.(queue := x.queue + Commands(e.downs)), y', d, c)
  {
    if e.downs == [Down(AdminOnline, c)] {
      assert Commands(e.downs) == [Start(c)];
    }
    if input.Msg? {
      assert y.queue == [y.queue[0]] + y'.queue;
    }
  }

  // ---------------------------------------------------------------- steps of a child that restarts too

  /** Somebody else sends reports. */
  lemma ToldGets(x: Sub, y: Sub, c: ClientId, s: SubId, ups: seq<OperState>, ys: seq<Message>)
    requires Told(x, y, c)
    ensures Told(x.(queue := x.queue + Reports(s, ups)), y.(queue := y.queue + ys), c)
  {
    CountReports(x.queue, s, ups, c);
  }

  /** Child x takes a step. */
  lemma ToldByChild(x: Sub, x': Sub, y: Sub, input: Input, children: set<SubId>, e: Effect, b: ClientId, c: ClientId)
    requires Told(x, y, c) && Comes(x.l, input, children, e, b) && x'.l == e.l
    requires Consumes(x, input, x'.queue, x'.events)
    requires input.Msg? && input.m.ChangeAdmin? ==> input.m == Start(c) && Rests(x.l)
    ensures Told(x', y, c)
  {
    if input.Msg? {
      CountHead(x.queue, Start(c));
    }
  }

  /** Parent y takes a step: it tells the child when it leaves its rest, and never again. */
  lemma ToldByParent(x: Sub, y: Sub, y': Sub, input: Input, children: set<SubId>, e: Effect, c: ClientId)
    requires Told(x, y, c) && Comes(y.l, input, children, e, c) && y'.l == e.l && (e.downs != [] ==> Rests(y.l))
    ensures Told(x.(queue := x.queue + Commands(e.downs)), y', c)
  {
    CountCommands(x.queue, e.downs, c);
  }

  lemma NoRelapseAppend(q: seq<Message>, r: seq<Message>, d: SubId)
    requires NoRelapse(q, d)
    requires ReportOper(d, Restarting) !in r || (ReportOper(d, Online) !in q && ReportOper(d, Online) !in r)
    ensures NoRelapse(q + r, d)
  {
    var s := q + r;
    forall a, b | 0 <= a < b < |s| && s[a] == ReportOper(d, Online) ensures s[b] != ReportOper(d, Restarting) {
      assert (a < |q| ==> s[a] in q) && (a >= |q| ==> s[a] in r) && (b >= |q| ==> s[b] in r);
    }
  }

  /** Reports of others do not matter. */
  lemma KnowsGets(x: Sub, x': Sub, y: Sub, d: SubId, s: SubId, ups: seq<OperState>)
    requires Knows(x, y, d) && s != d && x'.l == x.l
    ensures Knows(x', y.(queue := y.queue + Reports(s, ups)), d)
  {
    ReportsIn(s, ups, d, Online);
    ReportsIn(s, ups, d, Restarting);
    NoRelapseAppend(y.queue, Reports(s, ups), d);
  }

  /** Messages to the child do not matter, nor do commands to its parent. */
  lemma KnowsAlike(x: Sub, x': Sub, y: Sub, y': Sub, d: SubId, ys: seq<Message>)
    requires Knows(x, y, d) && x'.l == x.l && y'.l == y.l && y'.queue == y.queue + ys && forall m | m in ys :: m.ChangeAdmin?
    ensures Knows(x', y', d)
  {
    assert forall o :: ReportOper(d, o) !in ys;
    NoRelapseAppend(y.queue, ys, d);
  }

  /** Child x takes a step and reports to y. */
  lemma KnowsByChild(x: Sub, x': Sub, y: Sub, input: Input, children: set<SubId>, e: Effect, d: SubId, b: ClientId)
    requires Knows(x, y, d) && Comes(x.l, input, children, e, b) && x'.l == e.l
    ensures Knows(x', y.(queue := y.queue + Reports(d, e.ups)), d)
  {
    ReportsIn(d, e.ups, d, Online);
    ReportsIn(d, e.ups, d, Restarting);
    if Restarting in e.ups {
      RestsUnknown(x, y, d, input, children, e, b);
    }
    NoRelapseAppend(y.queue, Reports(d, e.ups), d);
  }

  /** While the child rests nobody takes it for Online. */
  lemma RestsUnknown(x: Sub, y: Sub, d: SubId, input: Input, children: set<SubId>, e: Effect, b: ClientId)
    requires Knows(x, y, d) && Comes(x.l, input, children, e, b) && Restarting in e.ups
    ensures Rests(x.l) && Rests(e.l) && Online !in e.ups
    ensures ReportOper(d, Online) !in y.queue && d !in Noted(y.l) && (Rests(y.l) || y.l.oper == StartingChildren)
  {
  }

  /** Parent y takes a step. */
  lemma KnowsByParent(x: Sub, y: Sub, y': Sub, input: Input, children: set<SubId>, e: Effect, d: SubId, c: ClientId)
    requires Knows(x, y, d) && Comes(y.l, input, children, e, c) && y'.l == e.l
    requires Consumes(y, input, y'.queue, y'.events)
    requires d in children && Rising(y.l) && (Rests(y.l) ==> Rests(x.l))
    ensures Knows(x, y', d)
  {
    if input.Msg? {
      var m := y.queue[0];
      assert y.queue == [m] + y'.queue;
      assert forall i | 0 <= i < |y'.queue| :: y'.queue[i] == y.queue[i+1];
      assert m == ReportOper(d, Online) ==> ReportOper(d, Restarting) !in y'.queue;
    }
  }
}
