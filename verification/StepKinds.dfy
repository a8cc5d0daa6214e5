/** The kinds of step a host can take, and why each keeps the invariant. */
module StepKinds {
  import opened RaftTypes
  import opened NodeModel
  import opened Clusters
  import opened Histories

  /** The part of a node that its full log is read against. */
  ghost predicate SameSpine(n: NodeState, m: NodeState) {
    && m.id == n.id && m.peers == n.peers && m.log == n.log
    && m.snapshotIndex == n.snapshotIndex && m.snapshotTerm == n.snapshotTerm
    && m.commitIndex >= m.snapshotIndex
    && (forall p :: p in m.nextIndex ==> m.nextIndex[p] >= 1)
  }

  lemma ShapeStays(i: NodeId, x: Host, y: Host, members: set<NodeId>)
    requires HostShape(i, x, members) && SameSpine(x.node, y.node) && y.full == x.full
    ensures HostShape(i, y, members)
  {
  }

  // ---------- steps that decide nothing ----------

  /** Same term, same vote, same log; a node may at most fall back to follower. */
  ghost predicate Quiet(n: NodeState, m: NodeState) {
    && m.currentTerm == n.currentTerm
    && m.votedFor == n.votedFor
    && (m.role == n.role || m.role == Follower)
  }

  lemma ObserveQuiet(c: Cluster, h: History, i: NodeId, x: Host)
    requires Inv(c, h) && i in c.hosts
    requires Quiet(c.hosts[i].node, x.node) && x.full == c.hosts[i].full
    ensures Observe(h, i, x) == h
  {
    hide HistoryOk, HostShape, LogTies, MessageOk;
    assert HostOk(i, c.hosts[i], c.network, c.members, h);
    if x.node.role == Leader {
      assert h.leaderLogs[x.node.currentTerm := x.full] == h.leaderLogs;
    }
  }

  lemma GrowsNot(h: History, i: NodeId)
    ensures GrowsBy(h, h, i)
  {
  }

  lemma QuietStep(c: Cluster, h: History, i: NodeId, x: Host, sent: set<Envelope>)
    requires Inv(c, h) && i in c.hosts
    requires Quiet(c.hosts[i].node, x.node) && x.full == c.hosts[i].full
    requires HostShape(i, x, c.members)
    requires RoleTies(i, x, c.network + sent, c.members, h)
    requires forall e :: e in sent ==> MessageOk(e, c.members, h)
    ensures Observe(h, i, x) == h && Grows(h, h)
    ensures Inv(Put(c, i, x, sent), h)
  {
    hide Inv, HistoryOk, MessageOk, GrowsBy, Grows, HostShape, LogTies, VoteTies, RoleTies, Observe, Quiet;
    ObserveQuiet(c, h, i, x);
    GrowsNot(h, i);
    Known(c, h, i);
    QuietTies(i, c.hosts[i], x, h);
    InvAfter(c, h, h, i, x, sent);
  }

  lemma QuietTies(i: NodeId, x: Host, y: Host, h: History)
    requires Quiet(x.node, y.node) && y.full == x.full && LogTies(x, h) && VoteTies(i, x, h)
    ensures LogTies(y, h) && VoteTies(i, y, h)
  {
    hide Traced;
  }

  // ---------- stepping down ----------

  /** A node that forgets its vote: on entering a higher term, or on meeting a leader of its own term. */
  ghost predicate StepsDown(n: NodeState, m: NodeState) {
    && SameSpine(n, m)
    && m.role == Follower && m.votedFor == None
  }

  /** A node that meets the leader of its own term while not a follower has no vote there that still decides. */
  lemma VoteIsSpent(c: Cluster, h: History, i: NodeId, e: Envelope)
    requires Inv(c, h) && i in c.hosts && e in c.network && e.to == i
    requires e.message.AppendRequest? && e.message.append.term == c.hosts[i].node.currentTerm
    requires c.hosts[i].node.role != Follower
    ensures !Binding(h, i, c.hosts[i].node.currentTerm)
  {
    hide HostShape, LogTies, LeaderLogOk, BallotOk, SliceOk;
    var t := c.hosts[i].node.currentTerm;
    assert HostOk(i, c.hosts[i], c.network, c.members, h);
    assert MessageOk(e, c.members, h);
    assert ElectionOk(h, c.members, t);
  }

  lemma VoteTiesAfterStepDown(c: Cluster, h: History, i: NodeId, x: Host)
    requires Inv(c, h) && i in c.hosts
    requires x.full == c.hosts[i].full
    requires x.node.role == Follower && x.node.votedFor == None
    requires x.node.currentTerm >= c.hosts[i].node.currentTerm
    requires x.node.currentTerm > c.hosts[i].node.currentTerm || !Binding(h, i, x.node.currentTerm)
    ensures VoteTies(i, x, h)
  {
    hide HostShape, LogTies, RoleTies, LeaderLogOk, BallotOk, MessageOk;
    assert HostOk(i, c.hosts[i], c.network, c.members, h);
  }

  lemma StepDownStep(c: Cluster, h: History, i: NodeId, m: NodeState)
    requires Inv(c, h) && i in c.hosts
    requires StepsDown(c.hosts[i].node, m)
    requires m.currentTerm >= c.hosts[i].node.currentTerm
    requires m.currentTerm > c.hosts[i].node.currentTerm || !Binding(h, i, m.currentTerm)
    ensures Observe(h, i, Host(m, c.hosts[i].full)) == h && Grows(h, h)
    ensures Inv(Put(c, i, Host(m, c.hosts[i].full), {}), h)
  {
    var x := Host(m, c.hosts[i].full);
    VoteTiesAfterStepDown(c, h, i, x);
    GrowsNot(h, i);
    hide HistoryOk, MessageOk, Traced, VoteTies, GrowsBy, HostShape;
    assert HostOk(i, c.hosts[i], c.network, c.members, h);
    ShapeStays(i, c.hosts[i], x, c.members);
    hide SameSpine;
    InvAfter(c, h, h, i, x, {});
  }

  // ---------- voting ----------

  lemma NewBallot(h: History, members: set<NodeId>, i: NodeId, t: Term, b: Ballot)
    requires HistoryOk(h, members) && (i, t) !in h.ballots
    requires var g := h.(ballots := h.ballots[(i, t) := b]); BallotOk(g, members, i, t)
    ensures var g := h.(ballots := h.ballots[(i, t) := b]); HistoryOk(g, members) && GrowsBy(h, g, i)
  {
    hide Traced, BallotOk, ElectionOk, LeaderLogOk;
    var g := h.(ballots := h.ballots[(i, t) := b]);
    forall v, u | (v, u) in g.ballots ensures BallotOk(g, members, v, u) {
      if (v, u) != (i, t) { BallotStays(h, members, i, t, b, v, u); }
    }
    forall u | u in g.elections ensures ElectionOk(g, members, u) && LeaderLogOk(g, u) {
      ElectionStays(h, members, i, t, b, u);
    }
  }

  lemma BallotStays(h: History, members: set<NodeId>, i: NodeId, t: Term, b: Ballot, v: NodeId, u: Term)
    requires BallotOk(h, members, v, u) && (i, t) !in h.ballots
    ensures BallotOk(h.(ballots := h.ballots[(i, t) := b]), members, v, u)
  {
    hide Traced;
  }

  lemma ElectionStays(h: History, members: set<NodeId>, i: NodeId, t: Term, b: Ballot, u: Term)
    requires ElectionOk(h, members, u) && LeaderLogOk(h, u) && (i, t) !in h.ballots
    ensures var g := h.(ballots := h.ballots[(i, t) := b]); ElectionOk(g, members, u) && LeaderLogOk(g, u)
  {
    hide Traced, Sorted;
  }

  lemma CampaignStep(c: Cluster, h: History, i: NodeId, m: NodeState, sent: set<Envelope>)
    requires Inv(c, h) && i in c.hosts
    requires var n := c.hosts[i].node;
             && SameSpine(n, m)
             && m.currentTerm == n.currentTerm + 1 && m.role == Candidate && m.votedFor == Some(i) && m.votes == {i}
    requires forall e :: e in sent ==>
               && e.from == i && e.to in c.members && e.to != i
               && e.message == VoteRequest(RequestVote(m.currentTerm, i, |c.hosts[i].full|,
                                                       LastTermOf(c.hosts[i].full)))
    ensures var x := Host(m, c.hosts[i].full); Inv(Put(c, i, x, sent), Observe(h, i, x)) && Grows(h, Observe(h, i, x))
  {
    hide Inv, HistoryOk, GrowsBy, Grows, HostShape, MessageOk, BallotOk, LogTies, VoteTies, Observe, SameSpine;
    var x := Host(m, c.hosts[i].full);
    var g := Observe(h, i, x);
    Known(c, h, i);
    CandidateBallot(c, h, i, x);
    VoteTiesAfterCampaign(c, h, i, x);
    hide RoleTies;
    NewBallot(h, c.members, i, m.currentTerm, Ballot(i, x.full));
    ShapeStays(i, c.hosts[i], x, c.members);
    forall e | e in sent ensures MessageOk(e, c.members, g) {
      CanvassOk(e, g, c.members, i, m.currentTerm, x.full);
    }
    assert RoleTies(i, x, c.network + sent, c.members, g) by { AloneInVotes(i, x, c.network + sent, c.members, g); }
    InvAfter(c, h, g, i, x, sent);
  }

  lemma AloneInVotes(i: NodeId, x: Host, network: set<Envelope>, members: set<NodeId>, h: History)
    requires x.node.role == Candidate && x.node.votes == {i}
    ensures RoleTies(i, x, network, members, h)
  {
  }

  lemma CanvassOk(e: Envelope, g: History, members: set<NodeId>, i: NodeId, t: Term, log: seq<LogEntry>)
    requires e.from == i && i in members && e.to in members && e.to != i
    requires e.message == VoteRequest(RequestVote(t, i, |log|, LastTermOf(log)))
    requires (i, t) in g.ballots && g.ballots[(i, t)] == Ballot(i, log)
    ensures MessageOk(e, members, g)
  {
  }

  /** A new candidate enters a term in which it has not voted, with its own vote. */
  lemma CandidateBallot(c: Cluster, h: History, i: NodeId, x: Host)
    requires Inv(c, h) && i in c.hosts && x.full == c.hosts[i].full && x.node.role == Candidate
    requires x.node.currentTerm == c.hosts[i].node.currentTerm + 1 && x.node.votedFor == Some(i)
    ensures var t := x.node.currentTerm;
            var g := h.(ballots := h.ballots[(i, t) := Ballot(i, x.full)]);
            && (i, t) !in h.ballots && Observe(h, i, x) == g && BallotOk(g, c.members, i, t)
            && LogTies(x, g) && i in c.members
  {
    hide Inv, HistoryOk, HostShape, Traced, RoleTies;
    Known(c, h, i);
  }

  lemma VoteTiesAfterCampaign(c: Cluster, h: History, i: NodeId, x: Host)
    requires Inv(c, h) && i in c.hosts && x.full == c.hosts[i].full && x.node.role == Candidate
    requires x.node.currentTerm == c.hosts[i].node.currentTerm + 1 && x.node.votedFor == Some(i)
    ensures VoteTies(i, x, h.(ballots := h.ballots[(i, x.node.currentTerm) := Ballot(i, x.full)]))
  {
    hide Inv, HostShape, LogTies, RoleTies, BallotOk, LeaderLogOk;
    Known(c, h, i);
    var t := x.node.currentTerm;
    if t in h.elections { assert ElectionOk(h, c.members, t); }
  }

  lemma VoteTiesAfterGrant(c: Cluster, h: History, i: NodeId, e: Envelope, x: Host)
    requires Inv(c, h) && i in c.hosts && e in c.network && e.to == i && e.message.VoteRequest?
    requires var n := c.hosts[i].node;
             && x.node.currentTerm == n.currentTerm == e.message.vote.term && x.node.role == n.role
             && (n.votedFor.None? || n.votedFor == Some(e.from)) && x.node.votedFor == Some(e.from)
             && x.full == c.hosts[i].full
    ensures VoteTies(i, x, Observe(h, i, x))
    ensures x.node.role == Follower
    ensures var t := x.node.currentTerm;
            var g := Observe(h, i, x);
            && (i, t) in g.ballots && (Binding(g, i, t) ==> g.ballots[(i, t)].candidate == e.from)
            && (g == h || ((i, t) !in h.ballots && g == h.(ballots := h.ballots[(i, t) := Ballot(e.from, x.full)])))
  {
    hide HistoryOk, HostShape, LogTies;
    assert HostOk(i, c.hosts[i], c.network, c.members, h);
    assert MessageOk(e, c.members, h);
  }

  lemma GrantStep(c: Cluster, h: History, i: NodeId, e: Envelope, m: NodeState)
    requires Inv(c, h) && i in c.hosts && e in c.network && e.to == i && e.message.VoteRequest?
    requires var n := c.hosts[i].node;
             && SameSpine(n, m)
             && m.currentTerm == n.currentTerm == e.message.vote.term && m.role == n.role && m.votes == n.votes
             && (n.votedFor.None? || n.votedFor == Some(e.from)) && m.votedFor == Some(e.from)
             && UpToDate(e.message.vote.lastLogTerm, e.message.vote.lastLogIndex, LastTermOf(c.hosts[i].full),
                         |c.hosts[i].full|)
    ensures var x := Host(m, c.hosts[i].full);
            Inv(Put(c, i, x, {Envelope(i, e.from, VoteReply(RequestVoteResponse(m.currentTerm, true, i)))}),
                Observe(h, i, x)) && Grows(h, Observe(h, i, x))
  {
    hide Inv, HistoryOk, GrowsBy, Grows, HostShape, BallotOk, LogTies, VoteTies, Observe, SameSpine;
    var x := Host(m, c.hosts[i].full);
    var g := Observe(h, i, x);
    var reply := Envelope(i, e.from, VoteReply(RequestVoteResponse(m.currentTerm, true, i)));
    VoteTiesAfterGrant(c, h, i, e, x);
    Known(c, h, i);
    KnownMessage(c, h, e);
    ShapeStays(i, c.hosts[i], x, c.members);
    GrantHistory(c, h, i, e, x);
    assert MessageOk(reply, c.members, g);
    hide MessageOk;
    InvAfter(c, h, g, i, x, {reply});
  }

  lemma GrantHistory(c: Cluster, h: History, i: NodeId, e: Envelope, x: Host)
    requires Inv(c, h) && i in c.hosts && e in c.network && e.to == i && e.message.VoteRequest?
    requires x.full == c.hosts[i].full && x.node.currentTerm == c.hosts[i].node.currentTerm == e.message.vote.term
    requires var t, g := x.node.currentTerm, Observe(h, i, x);
             g == h || ((i, t) !in h.ballots && g == h.(ballots := h.ballots[(i, t) := Ballot(e.from, x.full)]))
    requires UpToDate(e.message.vote.lastLogTerm, e.message.vote.lastLogIndex, LastTermOf(x.full), |x.full|)
    ensures var g := Observe(h, i, x); HistoryOk(g, c.members) && GrowsBy(h, g, i) && LogTies(x, g)
  {
    hide Inv, GrowsBy, HostShape, VoteTies, RoleTies, LeaderLogOk, ElectionOk, Traced, Observe;
    var t, g := x.node.currentTerm, Observe(h, i, x);
    Known(c, h, i);
    KnownMessage(c, h, e);
    if g == h {
      GrowsNot(h, i);
    } else {
      assert BallotOk(h, c.members, e.from, t);
      assert BallotOk(g, c.members, i, t);
      hide BallotOk;
      NewBallot(h, c.members, i, t, Ballot(e.from, x.full));
    }
  }
}
