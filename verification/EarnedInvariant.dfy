/** Runs in which leaders commit only what a majority has held, and what every step of such a run keeps. */
module EarnedInvariant {
  import opened RaftTypes
  import opened LogMerge
  import opened NodeModel
  import opened Clusters
  import opened Histories
  import opened LeaderSteps
  import opened RunInvariant
  import opened LogSteps
  import opened Holdings
  import opened Commitment
  import opened RunTheorems

  /** If the step moves the commit index of a leader, then to an entry of its term that a majority has held. */
  ghost predicate EarnedStep(c: Cluster, held: set<Holding>, a: Action)
    requires a.actor in c.hosts
  {
    var y := HostStep(c.hosts[a.actor], a).0;
    y.node.role == Leader && y.node.commitIndex != c.hosts[a.actor].node.commitIndex ==>
      Chosen(y.node.currentTerm, y.node.commitIndex, held + HeldBy(a.actor, y), c.members)
  }

  /** A run in which every commit of a leader is earned. */
  ghost predicate EarnedRun(r: Run) {
    && ValidRun(r)
    && (forall k :: 0 <= k < |r.actions| ==> EarnedStep(r.states[k], HeldAt(r, k), r.actions[k]))
  }

  ghost predicate CommitTies(x: Host, held: set<Holding>, members: set<NodeId>, h: History) {
    Committed(x.full, x.node.commitIndex, x.node.currentTerm, held, members, h)
  }

  /** The commit index in a request is one that the request itself covers. */
  ghost predicate RequestTies(e: Envelope, held: set<Holding>, members: set<NodeId>, h: History) {
    e.message.AppendRequest? ==>
      var m := e.message.append;
      var covered := m.prevLogIndex + |m.entries|;
      && m.term in h.leaderLogs && m.leaderCommit <= covered <= |h.leaderLogs[m.term]|
      && Committed(h.leaderLogs[m.term], m.leaderCommit, m.term, held, members, h)
  }

  /** Holds in every state of an earned run. */
  ghost predicate EarnedInv(c: Cluster, h: History, held: set<Holding>) {
    && Inv(c, h) && HeldInv(c, h, held)
    && (forall i :: i in c.hosts ==> CommitTies(c.hosts[i], held, c.members, h))
    && (forall e :: e in c.network ==> RequestTies(e, held, c.members, h))
  }

  // ---------- what moves a commit index ----------

  /** A commit index that moves is a leader's, or follows the request that a follower accepts, or is cut back to the end
      of the log by a restart. */
  lemma CommitMoves(n: NodeState, a: Action)
    ensures var m := NodeStep(n, a).0;
            m.commitIndex != n.commitIndex ==>
              || m.role == Leader
              || (a.Restart? && m.commitIndex == Clamp(n.commitIndex, n.snapshotIndex, n.LastLogIndex()))
              || (a.Deliver? && a.envelope.message.AppendRequest?
                  && var req := a.envelope.message.append;
                     && req.term >= n.currentTerm && HandleAppendEntries(n, req, a.draw).1.success
                     && req.leaderCommit > n.commitIndex && m.snapshotIndex == n.snapshotIndex
                     && m.commitIndex
                        == Clamp(Min(req.leaderCommit, m.LastLogIndex()), n.snapshotIndex, m.LastLogIndex()))
  {
    hide Heartbeats, VoteRequests, Posted, DeliverTo, HandleAppendEntries;
    if a.Deliver? {
      if a.envelope.message.AppendRequest? {
        FollowerCommits(n, a.envelope.message.append, a.draw);
        AppendDelivered(n, a);
      } else {
        DeliveryKeepsCommit(n, a.envelope.from, a.envelope.message, a.draw);
      }
    }
  }

  lemma AppendDelivered(n: NodeState, a: Action)
    requires a.Deliver? && a.envelope.message.AppendRequest?
    ensures NodeStep(n, a).0 == HandleAppendEntries(n, a.envelope.message.append, a.draw).0
  {
    hide HandleAppendEntries;
  }

  lemma DeliveryKeepsCommit(n: NodeState, from: NodeId, message: RaftMessage, draw: nat)
    requires !message.AppendRequest?
    ensures var m := DeliverTo(n, from, message, draw).0; m.commitIndex == n.commitIndex || m.role == Leader
  {
    hide Heartbeats, Posted, GreatestCommittable, UpToDate, NodeState.LastLogTerm;
  }

  lemma FollowerCommits(n: NodeState, req: AppendEntries, draw: nat)
    ensures var (m, resp) := HandleAppendEntries(n, req, draw);
            m.commitIndex != n.commitIndex ==>
              && req.term >= n.currentTerm && resp.success && req.leaderCommit > n.commitIndex
              && m.snapshotIndex == n.snapshotIndex
              && m.commitIndex == Clamp(Min(req.leaderCommit, m.LastLogIndex()), n.snapshotIndex, m.LastLogIndex())
  {
    hide MergeFrom;
  }

  lemma CommitWithin(x: Host, held: set<Holding>, members: set<NodeId>, h: History)
    requires CommitTies(x, held, members, h)
    ensures x.node.commitIndex <= |x.full|
  {
  }

  /** What was committed is still there after a step. */
  lemma CommittedAcross(x: Host, y: Host, held: set<Holding>, members: set<NodeId>, h: History)
    requires HistoryOk(h, members) && BallotTies(held, h) && OwnHeld(held, h)
    requires CommitTies(x, held, members, h) && x.node.currentTerm <= y.node.currentTerm
    requires x.full <= y.full || Replaced(x.full, y.full, h, y.node.currentTerm)
    ensures var k := x.node.commitIndex; k <= |x.full| && k <= |y.full| && y.full[..k] == x.full[..k]
  {
    hide HistoryOk, BallotTies, OwnHeld, Committed, Accepted;
    var k, t := x.node.commitIndex, y.node.currentTerm;
    CommitWithin(x, held, members, h);
    if !(x.full <= y.full) {
      var req: AppendEntries :| req.term == t && Accepted(x.full, req, y.full, h.leaderLogs[t]);
      GrowsRefl(h);
      CommittedStays(x.full, x.full, k, x.node.currentTerm, t, held, held, members, h, h);
      CommittedInLeader(h, held, members, x.full, k, t);
      AcceptedKeepsShared(x.full, req, y.full, h.leaderLogs[t], k);
    }
  }

  // ---------- the acting node ----------

  /** A leader has earned what it commits. */
  lemma LeaderCommits(i: NodeId, y: Host, held: set<Holding>, network: set<Envelope>, members: set<NodeId>, g: History)
    requires RoleTies(i, y, network, members, g) && y.node.role == Leader && OwnHeld(held, g)
    requires Chosen(y.node.currentTerm, y.node.commitIndex, held, members)
    ensures CommitTies(y, held, members, g)
  {
    hide Chosen;
    var t, k := y.node.currentTerm, y.node.commitIndex;
    ChosenIsOwn(g, members, held, t, k);
    assert CommittedBy(y.full, k, t, k, held, members, g);
  }

  /** A follower commits what the request it accepts says is committed. */
  lemma FollowerCommitsEarned(x: Host, y: Host, e: Envelope, held: set<Holding>, members: set<NodeId>, h: History)
    requires e.message.AppendRequest? && RequestTies(e, held, members, h)
    requires var req := e.message.append;
             && req.term == y.node.currentTerm && Accepted(x.full, req, y.full, h.leaderLogs[req.term])
             && y.node.commitIndex == req.leaderCommit
    ensures CommitTies(y, held, members, h)
  {
    hide Committed, Accepted;
    var req := e.message.append;
    GrowsRefl(h);
    AcceptedPrefix(x.full, req, y.full, h.leaderLogs[req.term], req.leaderCommit);
    CommittedStays(h.leaderLogs[req.term], y.full, req.leaderCommit, req.term, req.term, held, held, members, h, h);
  }

  lemma AcceptedPrefix(full: seq<LogEntry>, req: AppendEntries, merged: seq<LogEntry>, leaderLog: seq<LogEntry>, k: nat)
    requires Accepted(full, req, merged, leaderLog) && k <= req.prevLogIndex + |req.entries|
    ensures k <= |merged| && k <= |leaderLog| && merged[..k] == leaderLog[..k]
    ensures req.prevLogIndex + |req.entries| <= |merged|
  {
    var covered := req.prevLogIndex + |req.entries|;
    assert merged[..k] == merged[..covered][..k];
    assert leaderLog[..k] == leaderLog[..covered][..k];
  }

  lemma EarnedParts(c: Cluster, h: History, held: set<Holding>)
    requires EarnedInv(c, h, held)
    ensures Inv(c, h) && HeldInv(c, h, held) && HistoryOk(h, c.members) && BallotTies(held, h) && OwnHeld(held, h)
    ensures forall i :: i in c.hosts ==> CommitTies(c.hosts[i], held, c.members, h)
    ensures forall e :: e in c.network ==> RequestTies(e, held, c.members, h)
  {
    hide Inv, HeldInv, CommitTies, RequestTies, OwnHeld, BallotTies, HistoryOk;
    HeldIsOwned(c, h, held);
  }

  /** A follower that accepts an append, and moves its commit index. */
  lemma AppendCommits(c: Cluster, h: History, held: set<Holding>, a: Action)
    requires EarnedInv(c, h, held) && Enabled(c, a) && a.Deliver? && a.envelope.message.AppendRequest?
    requires var x, y := c.hosts[a.actor], HostStep(c.hosts[a.actor], a).0; y.node.commitIndex != x.node.commitIndex
    requires HostStep(c.hosts[a.actor], a).0.node.role != Leader
    ensures var x, y := c.hosts[a.actor], HostStep(c.hosts[a.actor], a).0;
            && CommitTies(y, held, c.members, h)
            && y.node.commitIndex == a.envelope.message.append.leaderCommit > x.node.commitIndex
            && HandleAppendEntries(x.node, a.envelope.message.append, a.draw).1.success
  {
    hide EarnedInv, Inv, HeldInv, CommitTies, RequestTies, OwnHeld, BallotTies, HistoryOk, HandleAppendEntries,
      Accepted,
      LogTies, VoteTies, RoleTies, HostShape;
    var x, e := c.hosts[a.actor], a.envelope;
    var req := e.message.append;
    EarnedParts(c, h, held);
    ActorFacts(c, h, a.actor);
    CommitMoves(x.node, a);
    AppendDelivered(x.node, a);
    AppendAcross(c, h, a.actor, e, a.draw);
    AppendedHost(x, a);
    var y := HostStep(x, a).0;
    assert req.leaderCommit <= req.prevLogIndex + |req.entries| by { Covered(e, held, c.members, h); }
    AcceptedPrefix(x.full, req, y.full, h.leaderLogs[req.term], req.leaderCommit);
    assert y.node.commitIndex == req.leaderCommit by { ShapeFacts(a.actor, x, c.members); }
    FollowerCommitsEarned(x, y, e, held, c.members, h);
  }

  lemma Covered(e: Envelope, held: set<Holding>, members: set<NodeId>, h: History)
    requires RequestTies(e, held, members, h) && e.message.AppendRequest?
    ensures e.message.append.leaderCommit <= e.message.append.prevLogIndex + |e.message.append.entries|
  {
  }

  lemma ShapeFacts(i: NodeId, x: Host, members: set<NodeId>)
    requires HostShape(i, x, members)
    ensures x.node.snapshotIndex <= x.node.commitIndex && x.node.snapshotIndex <= |x.full|
    ensures x.node.LastLogIndex() == |x.full| && x.node.id == i
  {
  }

  /** The committed prefix of the acting node after an earned step, which has kept what was committed before. */
  lemma ActorCommits(c: Cluster, h: History, held: set<Holding>, a: Action)
    requires EarnedInv(c, h, held) && Enabled(c, a) && EarnedStep(c, held, a)
    ensures var x, y := c.hosts[a.actor], Step(c, a).hosts[a.actor];
            && CommitTies(y, held + HeldBy(a.actor, y), c.members, Observe(h, a.actor, y))
            && (var k := x.node.commitIndex; k <= |x.full| && k <= |y.full| && y.full[..k] == x.full[..k])
  {
    hide EarnedInv, Inv, HeldInv, CommitTies, RequestTies, OwnHeld, BallotTies, HistoryOk, LogTies, VoteTies, RoleTies,
      HostShape, HostStep, Replaced, Observe, Grows, HeldBy;
    var i := a.actor;
    var x, d := c.hosts[i], Step(c, a);
    var y := d.hosts[i];
    var g, held' := Observe(h, i, y), held + HeldBy(i, y);
    EarnedParts(c, h, held);
    StepKeepsInv(c, h, a);
    StepKeepsHeld(c, h, held, a);
    HeldIsOwned(d, g, held');
    StepAcross(c, h, a);
    CommittedAcross(x, y, held, c.members, h);
    if y.node.commitIndex == x.node.commitIndex {
      CommitUnmoved(x, y, held, held', c.members, h, g);
    } else if y.node.role == Leader {
      ActorFacts(d, g, i);
      assert Chosen(y.node.currentTerm, y.node.commitIndex, held', c.members) by { EarnedCommit(c, held, a); }
      LeaderCommits(i, y, held', d.network, c.members, g);
    } else {
      MovedByRequest(c, h, held, a);
      AppendCommits(c, h, held, a);
      CommitUnmoved(y, y, held, held', c.members, h, g);
    }
  }

  lemma EarnedCommit(c: Cluster, held: set<Holding>, a: Action)
    requires a.actor in c.hosts && EarnedStep(c, held, a)
    ensures var y := Step(c, a).hosts[a.actor];
            y.node.role == Leader && y.node.commitIndex != c.hosts[a.actor].node.commitIndex ==>
              Chosen(y.node.currentTerm, y.node.commitIndex, held + HeldBy(a.actor, y), c.members)
  {
    hide HostStep, Chosen;
  }

  lemma CommitUnmoved(x: Host, y: Host, held: set<Holding>, held': set<Holding>, members: set<NodeId>,
                      h: History, g: History)
    requires CommitTies(x, held, members, h) && held <= held' && Grows(h, g)
    requires y.node.commitIndex == x.node.commitIndex && x.node.currentTerm <= y.node.currentTerm
    requires x.node.commitIndex <= |x.full| ==>
               x.node.commitIndex <= |y.full| && y.full[..x.node.commitIndex] == x.full[..x.node.commitIndex]
    ensures CommitTies(y, held', members, g)
  {
    hide Committed, Grows;
    CommitWithin(x, held, members, h);
    CommittedStays(x.full, y.full, x.node.commitIndex, x.node.currentTerm, y.node.currentTerm,
                   held, held', members, h, g);
  }

  /** Only a request moves the commit index of a node that does not lead. */
  lemma MovedByRequest(c: Cluster, h: History, held: set<Holding>, a: Action)
    requires EarnedInv(c, h, held) && Enabled(c, a)
    requires var x, y := c.hosts[a.actor], Step(c, a).hosts[a.actor];
             y.node.commitIndex != x.node.commitIndex && y.node.role != Leader
    ensures a.Deliver? && a.envelope.message.AppendRequest?
    ensures var y := Step(c, a).hosts[a.actor]; y == HostStep(c.hosts[a.actor], a).0
  {
    hide EarnedInv, Inv, HeldInv, CommitTies, RequestTies, OwnHeld, BallotTies, HistoryOk, LogTies, VoteTies, RoleTies,
      HostShape, NodeStep;
    EarnedParts(c, h, held);
    ActorFacts(c, h, a.actor);
    var x := c.hosts[a.actor];
    CommitMoves(x.node, a);
    CommitWithin(x, held, c.members, h);
    ShapeFacts(a.actor, x, c.members);
  }

  // ---------- all steps ----------

  lemma RequestStays(e: Envelope, held: set<Holding>, held': set<Holding>, members: set<NodeId>, h: History, g: History)
    requires RequestTies(e, held, members, h) && held <= held' && Grows(h, g)
    ensures RequestTies(e, held', members, g)
  {
    hide Committed;
    if e.message.AppendRequest? {
      var m := e.message.append;
      var l, k := h.leaderLogs[m.term], g.leaderLogs[m.term];
      assert k[..m.leaderCommit] == l[..m.leaderCommit];
      CommittedStays(l, k, m.leaderCommit, m.term, m.term, held, held', members, h, g);
    }
  }

  /** A leader's request carries its own commit index and reaches to the end of its log. */
  lemma RequestSent(i: NodeId, x: Host, e: Envelope, held: set<Holding>, network: set<Envelope>,
                    members: set<NodeId>, h: History)
    requires HostShape(i, x, members) && RoleTies(i, x, network, members, h) && CommitTies(x, held, members, h)
    requires x.node.role == Leader && e.message.AppendRequest?
    requires AppendEntriesFor(x.node, e.to) == Some(e.message.append)
    ensures RequestTies(e, held, members, h)
  {
    hide AppendEntriesFor;
    CommitWithin(x, held, members, h);
    BuiltIsSlice(i, x, members, e.to);
  }

  lemma OnlyRequestsTie(e: Envelope, held: set<Holding>, members: set<NodeId>, h: History)
    requires !e.message.AppendRequest?
    ensures RequestTies(e, held, members, h)
  {
  }

  lemma StepKeepsEarned(c: Cluster, h: History, held: set<Holding>, a: Action)
    requires EarnedInv(c, h, held) && Enabled(c, a) && EarnedStep(c, held, a)
    ensures var y := Step(c, a).hosts[a.actor];
            EarnedInv(Step(c, a), Observe(h, a.actor, y), held + HeldBy(a.actor, y))
  {
    hide Inv, HeldInv, CommitTies, RequestTies, HistoryOk, LogTies, VoteTies, RoleTies, HostShape, NodeStep, Observe,
      Grows, HeldBy, EarnedStep;
    var i := a.actor;
    var d := Step(c, a);
    var y := d.hosts[i];
    var g, held' := Observe(h, i, y), held + HeldBy(i, y);
    StepKeepsInv(c, h, a);
    StepKeepsHeld(c, h, held, a);
    ActorCommits(c, h, held, a);
    ActorFacts(d, g, i);
    forall j | j in d.hosts ensures CommitTies(d.hosts[j], held', d.members, g) {
      if j != i { CommitUnmoved(c.hosts[j], c.hosts[j], held, held', c.members, h, g); }
    }
    assert c.hosts[i].node.id == i by { ActorId(c, h, i); }
    forall e | e in d.network ensures RequestTies(e, held', d.members, g) {
      if e in c.network {
        RequestStays(e, held, held', c.members, h, g);
      } else if e.message.AppendRequest? {
        SentIsBuilt(c.hosts[i].node, a, e);
        RequestSent(i, y, e, held', d.network, c.members, g);
      } else {
        OnlyRequestsTie(e, held', c.members, g);
      }
    }
  }

  lemma ActorId(c: Cluster, h: History, i: NodeId)
    requires Inv(c, h) && i in c.hosts
    ensures c.hosts[i].node.id == i
  {
    hide Inv;
    ActorFacts(c, h, i);
  }
}
