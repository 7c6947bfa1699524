/** A system at rest: which clients have each subsystem up, and nothing under way. */
module Configs {
  import opened States
  import opened ClientBits
  import opened Umbilicals
  import opened SubsystemModel
  import opened Network

  /** The clients of each subsystem; a subsystem is up exactly when it has any. */
  type Config = seq<set<nat>>

  predicate IsLive(l: Local, o: OperState) {
    |l.coros| == 1 && l.coros[0].Live? && l.coros[0].state == o
  }

  /** Up with all its processes, and nothing owed. */
  predicate Holding(l: Local) {
    && IsLive(l, Online) && l.oper == Online && l.admin == AdminOnline && l.coros[0].next == Online
    && l.AllRunning() && l.connectors == {} && l.launched == {} && l.stopRequested == {}
  }

  predicate Pristine(l: Local) {
    && l.connectors == {} && l.launched == {}
    && (forall p | 0 <= p < |l.procs| :: !l.procs[p].maybeConnected && !l.procs[p].running)
    && (forall k | k in l.umbilicals :: l.umbilicals[k].state == LinkClosed)
  }

  predicate Provided(l: Local) {
    forall p | 0 <= p < |l.procs| :: l.procs[p].compute in l.umbilicals
  }

  /** Down with no process running or connected, and nothing owed. */
  predicate IsDown(l: Local) {
    && IsLive(l, Offline) && l.oper == Offline && l.admin == AdminOffline && l.coros[0].next == Offline
    && Pristine(l) && l.stopRequested == {}
  }

  /** Subsystem x is at rest, up for exactly these clients or down. */
  predicate Resting(x: Sub, who: set<nat>) {
    && (if who == {} then IsDown(x.l) else Holding(x.l))
    && x.l.clients.members == who && Provided(x.l)
    && x.queue == [] && x.events == multiset{}
  }

  predicate AllResting(n: Net, w: Config) {
    |n| == |w| && forall i | 0 <= i < |n| :: Resting(n[i], w[i])
  }

  /** Whatever is up has all its children up. */
  predicate Closed(t: Topology, w: Config)
    requires |w| == |t| && Registered(t)
  {
    forall p, d | 0 <= p < |t| && d in t[p] && w[p] != {} :: w[d] != {}
  }
}
