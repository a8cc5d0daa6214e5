/** A cluster of nodes exchanging messages. Messages are never taken out of the network and may be delivered at any
    time and any number of times, so loss, duplication and reordering need no steps of their own. */
module Clusters {
  import opened RaftTypes
  import opened NodeModel

  /** A node together with every entry of its log, those dropped by compaction included. */
  datatype Host = Host(node: NodeState, full: seq<LogEntry>)

  datatype Envelope = Envelope(from: NodeId, to: NodeId, message: RaftMessage)

  datatype Cluster = Cluster(members: set<NodeId>, hosts: map<NodeId, Host>, network: set<Envelope>)

  datatype Action =
    | TickAt(actor: NodeId, draw: nat)
    | ForceElection(actor: NodeId, draw: nat)
    | Deliver(actor: NodeId, envelope: Envelope, draw: nat)
    | Propose(actor: NodeId, command: string)
    | ApplyCommitted(actor: NodeId)
    | Compact(actor: NodeId)
    | Restart(actor: NodeId, draw: nat)

  // ---------- steps ----------

  function Posted(from: NodeId, outbound: seq<OutboundMessage>): set<Envelope> {
    set m | m in outbound :: Envelope(from, m.to,
                                      if m.SendRequestVote? then VoteRequest(m.vote) else AppendRequest(m.append))
  }

  function DeliverTo(n: NodeState, from: NodeId, message: RaftMessage, draw: nat): (NodeState, set<Envelope>) {
    match message
    case VoteRequest(req) =>
      var (m, resp) := HandleRequestVote(n, req, draw);
      (m, {Envelope(n.id, from, VoteReply(resp))})
    case VoteReply(resp) =>
      var (m, _) := HandleRequestVoteResponse(n, resp, draw);
      (m, {})
    case AppendRequest(req) =>
      var (m, resp) := HandleAppendEntries(n, req, draw);
      (m, {Envelope(n.id, from, AppendReply(resp))})
    case AppendReply(resp) =>
      var (m, outbound) := HandleAppendEntriesResponse(n, resp, draw);
      (m, Posted(n.id, outbound))
  }

  /** What the process starts from after a stop: a fresh node, restored from what was saved last. */
  function Restarted(n: NodeState, draw: nat): NodeState {
    RestoreFromStorage(
      Fresh(n.id, n.peers, n.clock.(electionElapsed := 0, heartbeatElapsed := 0, electionTimeout := draw)),
      n.currentTerm, n.votedFor, n.log, n.commitIndex, n.snapshotIndex, n.snapshotTerm)
  }

  function NodeStep(n: NodeState, a: Action): (NodeState, set<Envelope>) {
    match a
    case TickAt(_, draw) => var (m, outbound) := Tick(n, draw); (m, Posted(n.id, outbound))
    case ForceElection(_, draw) => var (m, outbound) := StartElection(n, draw); (m, Posted(n.id, outbound))
    case Deliver(_, e, draw) => DeliverTo(n, e.from, e.message, draw)
    case Propose(_, command) =>
      (match ProposeCommand(n, command)
       case None => (n, {})
       case Some((m, outbound)) => (m, Posted(n.id, outbound)))
    case ApplyCommitted(_) => (TakeUnapplied(n).0, {})
    case Compact(_) => (CompactCommitted(n).0, {})
    case Restart(_, draw) => (Restarted(n, draw), {})
  }

  /** Compaction drops entries from the node but not from history; every other step keeps the dropped part. */
  function HostStep(x: Host, a: Action): (Host, set<Envelope>) {
    var (m, sent) := NodeStep(x.node, a);
    (Host(m, if a.Compact? || |x.full| < x.node.snapshotIndex then x.full
             else x.full[..x.node.snapshotIndex] + m.log), sent)
  }

  function Put(c: Cluster, i: NodeId, x: Host, sent: set<Envelope>): Cluster {
    c.(hosts := c.hosts[i := x], network := c.network + sent)
  }

  ghost predicate Enabled(c: Cluster, a: Action) {
    && a.actor in c.members
    && a.actor in c.hosts
    && (a.Deliver? ==> a.envelope in c.network && a.envelope.to == a.actor)
    && (a.TickAt? || a.ForceElection? || a.Deliver? || a.Restart? ==> DrawInRange(c.hosts[a.actor].node.clock, a.draw))
  }

  function Step(c: Cluster, a: Action): Cluster
    requires a.actor in c.hosts
  {
    var (x, sent) := HostStep(c.hosts[a.actor], a);
    Put(c, a.actor, x, sent)
  }

  // ---------- runs ----------

  ghost predicate SharesMembership(n: NodeState, members: set<NodeId>) {
    && n.id in members
    && (forall p :: p in n.peers <==> p in members && p != n.id)
    && |n.peers| + 1 == |members|
  }

  ghost predicate Initial(c: Cluster) {
    && c.network == {}
    && c.hosts.Keys == c.members
    && (forall i :: i in c.hosts ==>
          && c.hosts[i].full == []
          && c.hosts[i].node == Fresh(i, c.hosts[i].node.peers, c.hosts[i].node.clock)
          && SharesMembership(c.hosts[i].node, c.members))
  }

  /** The states of a run, one more than its actions. */
  datatype Run = Run(states: seq<Cluster>, actions: seq<Action>)

  ghost predicate ValidRun(r: Run) {
    && |r.states| == |r.actions| + 1
    && Initial(r.states[0])
    && (forall k :: 0 <= k < |r.actions| ==>
          && Enabled(r.states[k], r.actions[k])
          && r.states[k + 1] == Step(r.states[k], r.actions[k]))
  }

  /** A leader sends AppendEntries only when its last log entry is of its own term, that is, after a proposal. */
  ghost predicate GuardedStep(c: Cluster, a: Action)
    requires a.actor in c.hosts
  {
    var (x, sent) := HostStep(c.hosts[a.actor], a);
    (exists e :: e in sent && e.message.AppendRequest?) ==> x.node.LastLogTerm() == x.node.currentTerm
  }

  ghost predicate GuardedRun(r: Run) {
    && ValidRun(r)
    && (forall k :: 0 <= k < |r.actions| ==> GuardedStep(r.states[k], r.actions[k]))
  }
}
