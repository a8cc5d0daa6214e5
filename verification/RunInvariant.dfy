/** Every step of every run keeps the invariant. */
module RunInvariant {
  import opened RaftTypes
  import opened LogMerge
  import opened NodeModel
  import opened Clusters
  import opened Histories
  import opened HostLemmas
  import opened StepKinds
  import opened LeaderSteps

  lemma PutTwice(c: Cluster, i: NodeId, x: Host, y: Host, sent: set<Envelope>)
    ensures Put(Put(c, i, x, {}), i, y, sent) == Put(c, i, y, sent)
  {
  }

  // ---------- voting ----------

  lemma SameTermVote(c: Cluster, h: History, i: NodeId, e: Envelope, draw: nat)
    requires Inv(c, h) && i in c.hosts && e in c.network && e.to == i && e.message.VoteRequest?
    requires e.message.vote.term == c.hosts[i].node.currentTerm
    ensures var (m, resp) := CastVote(c.hosts[i].node, e.message.vote, draw);
            var x := Host(m, c.hosts[i].full);
            Inv(Put(c, i, x, {Envelope(i, e.from, VoteReply(resp))}), Observe(h, i, x)) && Grows(h, Observe(h, i, x))
  {
    hide Inv, HistoryOk, Grows, LogTies, VoteTies, RoleTies, Observe, CastVote, UpToDate, SameSpine;
    var n, req := c.hosts[i].node, e.message.vote;
    var (m, resp) := CastVote(n, req, draw);
    var x := Host(m, c.hosts[i].full);
    var reply := Envelope(i, e.from, VoteReply(resp));
    Known(c, h, i);
    KnownMessage(c, h, e);
    assert n.id == i && req.candidateId == e.from && reply.to in c.members && reply.to != i;
    VoteCast(i, c.hosts[i], c.members, req, draw);
    hide HostShape;
    if resp.voteGranted {
      hide MessageOk;
      GrantStep(c, h, i, e, m);
    } else {
      assert MessageOk(reply, c.members, h);
      hide MessageOk;
      RoleTiesGrow(i, c.hosts[i], c.network, c.network + {reply}, c.members, h);
      assert x == c.hosts[i];
      QuietStep(c, h, i, x, {reply});
    }
  }

  /** A vote given changes the vote and a timer; a vote refused changes nothing. */
  lemma VoteCast(i: NodeId, x: Host, members: set<NodeId>, req: RequestVote, draw: nat)
    requires HostShape(i, x, members)
    ensures var n := x.node;
            var (m, resp) := CastVote(n, req, draw);
            && resp.from == n.id && resp.term == n.currentTerm
            && (if resp.voteGranted then
                  && SameSpine(n, m) && m.currentTerm == n.currentTerm && m.role == n.role && m.votes == n.votes
                  && (n.votedFor.None? || n.votedFor == Some(req.candidateId)) && m.votedFor == Some(req.candidateId)
                  && UpToDate(req.lastLogTerm, req.lastLogIndex, LastTermOf(x.full), |x.full|)
                else m == n)
  {
    TermAtFull(x, i, members, 0);
    hide NodeState.LastLogTerm, NodeState.LastLogIndex, UpToDate;
  }

  lemma RequestVoteStep(c: Cluster, h: History, i: NodeId, e: Envelope, draw: nat)
    requires Inv(c, h) && i in c.hosts && e in c.network && e.to == i && e.message.VoteRequest?
    ensures var (m, resp) := HandleRequestVote(c.hosts[i].node, e.message.vote, draw);
            var x := Host(m, c.hosts[i].full);
            Inv(Put(c, i, x, {Envelope(i, e.from, VoteReply(resp))}), Observe(h, i, x)) && Grows(h, Observe(h, i, x))
  {
    hide Inv, HistoryOk, Observe, Grows;
    var n, req := c.hosts[i].node, e.message.vote;
    var (m, resp) := HandleRequestVote(n, req, draw);
    var reply := Envelope(i, e.from, VoteReply(resp));
    Known(c, h, i);
    KnownMessage(c, h, e);
    if req.term < n.currentTerm {
      assert MessageOk(reply, c.members, h);
      QuietStep(c, h, i, c.hosts[i], {reply});
    } else if req.term > n.currentTerm {
      var d := BecomeFollower(n, req.term, None, draw);
      StepDownStep(c, h, i, d);
      PutTwice(c, i, Host(d, c.hosts[i].full), Host(m, c.hosts[i].full), {reply});
      SameTermVote(Put(c, i, Host(d, c.hosts[i].full), {}), h, i, e, draw);
    } else {
      SameTermVote(c, h, i, e, draw);
    }
  }

  lemma MajorityIsMajority(n: NodeState, members: set<NodeId>)
    requires SharesMembership(n, members)
    ensures 2 * n.Majority() > |members|
  {
  }

  lemma VoteReplyStep(c: Cluster, h: History, i: NodeId, e: Envelope, draw: nat)
    requires Inv(c, h) && i in c.hosts && e in c.network && e.to == i && e.message.VoteReply?
    ensures var (m, _) := HandleRequestVoteResponse(c.hosts[i].node, e.message.voteReply, draw);
            var x := Host(m, c.hosts[i].full);
            Inv(Put(c, i, x, {}), Observe(h, i, x)) && Grows(h, Observe(h, i, x))
  {
    hide Inv, HistoryOk, Observe, Grows, LogTies, VoteTies, HandleRequestVoteResponse, BecomeFollower, BecomeLeader,
      RoleTies,
      VotesFor;
    var n, resp := c.hosts[i].node, e.message.voteReply;
    var (m, won) := HandleRequestVoteResponse(n, resp, draw);
    var x := Host(m, c.hosts[i].full);
    Known(c, h, i);
    KnownMessage(c, h, e);
    ReplyCases(n, resp, draw);
    if resp.term > n.currentTerm {
      DownToFollower(n, resp.term, None, draw);
      StepDownStep(c, h, i, m);
    } else {
      VotesAfterReply(i, c.hosts[i], e, c.network, c.members, h);
      if !won {
        ShapeStays(i, c.hosts[i], x, c.members);
        hide HostShape, SameSpine;
        assert c.network + {} == c.network;
        QuietStep(c, h, i, x, {});
      } else {
        MajorityIsMajority(n, c.members);
        WinsWith(n, Counting(n, resp).votes);
        WinStep(c, h, i, m);
      }
    }
  }

  /** A node after it has counted the vote in a reply, if there is one to count. */
  function Counting(n: NodeState, resp: RequestVoteResponse): NodeState {
    if n.role == Candidate && resp.term == n.currentTerm && resp.voteGranted
    then n.(votes := n.votes + {resp.from}) else n
  }

  lemma ReplyCases(n: NodeState, resp: RequestVoteResponse, draw: nat)
    ensures resp.term > n.currentTerm ==>
              HandleRequestVoteResponse(n, resp, draw) == (BecomeFollower(n, resp.term, None, draw), false)
    ensures resp.term <= n.currentTerm ==>
              var m := Counting(n, resp);
              if n.role == Candidate && resp.term == n.currentTerm && |m.votes| >= m.Majority()
              then HandleRequestVoteResponse(n, resp, draw) == (BecomeLeader(m), true)
              else HandleRequestVoteResponse(n, resp, draw) == (m, false)
  {
    hide BecomeFollower, BecomeLeader;
  }

  lemma DownToFollower(n: NodeState, term: Term, leader: Option<NodeId>, draw: nat)
    requires n.commitIndex >= n.snapshotIndex
    ensures StepsDown(n, BecomeFollower(n, term, leader, draw))
              && BecomeFollower(n, term, leader, draw).currentTerm == term
  {
  }

  lemma WinsWith(n: NodeState, votes: set<NodeId>)
    requires n.commitIndex >= n.snapshotIndex && forall p :: p in n.nextIndex ==> n.nextIndex[p] >= 1
    ensures var m := BecomeLeader(n.(votes := votes));
            && SameSpine(n, m) && m.role == Leader && m.currentTerm == n.currentTerm && m.votedFor == n.votedFor
            && m.votes == votes
  {
  }

  lemma VotesAfterReply(i: NodeId, x: Host, e: Envelope, network: set<Envelope>, members: set<NodeId>, h: History)
    requires RoleTies(i, x, network, members, h) && e in network && e.to == i && MessageOk(e, members, h)
    requires e.message.VoteReply?
    ensures var m := Counting(x.node, e.message.voteReply);
            && RoleTies(i, Host(m, x.full), network, members, h)
            && (m.role == Candidate ==> VotesFor(i, m.currentTerm, m.votes, network, members))
  {
    var resp := e.message.voteReply;
    if resp.voteGranted {
      assert e == Envelope(resp.from, i, VoteReply(RequestVoteResponse(resp.term, true, resp.from)));
    }
  }

  lemma StartElectionStep(c: Cluster, h: History, i: NodeId, n: NodeState, draw: nat)
    requires Inv(c, h) && i in c.hosts
    requires n == c.hosts[i].node.(clock := n.clock)
    ensures var (m, outbound) := StartElection(n, draw);
            var x := Host(m, c.hosts[i].full);
            Inv(Put(c, i, x, Posted(i, outbound)), Observe(h, i, x)) && Grows(h, Observe(h, i, x))
  {
    hide Inv, HistoryOk, Observe, Grows, LogTies, VoteTies, RoleTies;
    var (m, outbound) := StartElection(n, draw);
    var full := c.hosts[i].full;
    Known(c, h, i);
    ShapeStays(i, c.hosts[i], Host(m, full), c.members);
    TermAtFull(Host(m, full), i, c.members, 0);
    forall e | e in Posted(i, outbound)
      ensures e.from == i && e.to in c.members && e.to != i
      ensures e.message == VoteRequest(RequestVote(m.currentTerm, i, |full|, LastTermOf(full)))
    {
      var o :| o in outbound
               && e == Envelope(i, o.to, if o.SendRequestVote? then VoteRequest(o.vote) else AppendRequest(o.append));
      assert o.to in m.peers;
    }
    CampaignStep(c, h, i, m, Posted(i, outbound));
  }

  // ---------- replication ----------

  lemma HeartbeatStep(c: Cluster, h: History, i: NodeId, m: NodeState, peers: seq<NodeId>)
    requires Inv(c, h) && i in c.hosts
    requires var n := c.hosts[i].node;
             && n.role == Leader == m.role && m.currentTerm == n.currentTerm && m.votedFor == n.votedFor
               && SameSpine(n, m)
    requires forall p :: p in peers ==> p in c.members && p != i
    ensures var x := Host(m, c.hosts[i].full);
            Inv(Put(c, i, x, Posted(i, Heartbeats(m, peers))), Observe(h, i, x)) && Grows(h, Observe(h, i, x))
  {
    hide Inv, HistoryOk, Observe, Grows, LogTies, VoteTies, Posted, Heartbeats, AppendEntriesFor;
    var x := Host(m, c.hosts[i].full);
    Known(c, h, i);
    ShapeStays(i, c.hosts[i], x, c.members);
    PostedHeartbeats(i, x, c.members, peers);
    forall e | e in Posted(i, Heartbeats(m, peers)) ensures MessageOk(e, c.members, h) {
      PostedOk(i, x, c.members, h, e);
    }
    QuietStep(c, h, i, x, Posted(i, Heartbeats(m, peers)));
  }

  lemma TickStep(c: Cluster, h: History, i: NodeId, draw: nat)
    requires Inv(c, h) && i in c.hosts
    ensures var (m, outbound) := Tick(c.hosts[i].node, draw);
            var x := Host(m, c.hosts[i].full);
            Inv(Put(c, i, x, Posted(i, outbound)), Observe(h, i, x)) && Grows(h, Observe(h, i, x))
  {
    hide Inv, HistoryOk, Observe, Grows, LogTies, VoteTies, Heartbeats;
    var n := c.hosts[i].node;
    var (m, outbound) := Tick(n, draw);
    Known(c, h, i);
    if n.role == Leader && outbound == [] {
      assert Posted(i, outbound) == {};
      QuietStep(c, h, i, Host(m, c.hosts[i].full), {});
    } else if n.role == Leader {
      HeartbeatStep(c, h, i, m, n.peers);
    } else {
      var later := n.(clock := n.clock.(electionElapsed := n.clock.electionElapsed + 1));
      if later.clock.electionElapsed >= later.clock.electionTimeout {
        StartElectionStep(c, h, i, later, draw);
      } else {
        assert Posted(i, outbound) == {};
        QuietStep(c, h, i, Host(m, c.hosts[i].full), {});
      }
    }
  }

  lemma AppendShape(i: NodeId, x: Host, members: set<NodeId>, req: AppendEntries)
    requires HostShape(i, x, members) && RefusalIndex(x.node, req).None?
    requires var merged := x.full[..x.node.snapshotIndex]
                           + MergeFrom(x.node.log, x.node.snapshotIndex, req.prevLogIndex + 1, req.entries);
             x.node.snapshotIndex <= |merged| && merged[..x.node.snapshotIndex] == x.full[..x.node.snapshotIndex]
    ensures var (m, _) := AppendAsFollower(x.node, req);
            HostShape(i, Host(m, x.full[..x.node.snapshotIndex] + m.log), members)
  {
    hide MergeFrom;
    var s := x.node.snapshotIndex;
    var (m, _) := AppendAsFollower(x.node, req);
    var full := x.full[..s] + m.log;
    assert full[s..] == m.log;
    if s > 0 {
      assert full[s - 1] == x.full[..s][s - 1];
    }
  }

  /** A follower that already recognises the sender as the leader of its term. */
  lemma FollowerAppendStep(c: Cluster, h: History, i: NodeId, e: Envelope)
    requires Inv(c, h) && i in c.hosts && e in c.network && e.to == i && e.message.AppendRequest?
    requires e.message.append.term == c.hosts[i].node.currentTerm && c.hosts[i].node.role == Follower
    ensures var (m, resp) := AppendAsFollower(c.hosts[i].node, e.message.append);
            var n := c.hosts[i].node;
            n.snapshotIndex <= |c.hosts[i].full|
    ensures var (m, resp) := AppendAsFollower(c.hosts[i].node, e.message.append);
            var n := c.hosts[i].node;
            var x := Host(m, c.hosts[i].full[..n.snapshotIndex] + m.log);
            Observe(h, i, x) == h && Grows(h, h)
            && Inv(Put(c, i, x, {Envelope(i, e.from, AppendReply(resp))}), h)
  {
    hide Inv, HistoryOk, Observe, Grows, LogTies, VoteTies, RoleTies, Accepted, MergeFrom;
    var n, req := c.hosts[i].node, e.message.append;
    var (m, resp) := AppendAsFollower(n, req);
    Known(c, h, i);
    KnownMessage(c, h, e);
    var x := Host(m, c.hosts[i].full[..n.snapshotIndex] + m.log);
    var reply := Envelope(i, e.from, AppendReply(resp));
    assert MessageOk(reply, c.members, h);
    if RefusalIndex(n, req).Some? {
      assert x == c.hosts[i];
      RoleTiesOfFollower(i, x, c.network + {reply}, c.members, h);
      QuietStep(c, h, i, x, {reply});
    } else {
      MergeAccepted(c, h, i, e);
      AppendShape(i, c.hosts[i], c.members, req);
      AppendStep(c, h, i, req, x, {reply});
    }
  }

  lemma RoleTiesOfFollower(i: NodeId, x: Host, network: set<Envelope>, members: set<NodeId>, h: History)
    requires x.node.role == Follower
    ensures RoleTies(i, x, network, members, h)
  {
  }

  lemma RecogniseStep(c: Cluster, h: History, i: NodeId, e: Envelope, draw: nat)
    requires Inv(c, h) && i in c.hosts && e in c.network && e.to == i && e.message.AppendRequest?
    requires e.message.append.term >= c.hosts[i].node.currentTerm
    ensures var y := Host(Recognise(c.hosts[i].node, e.message.append, draw), c.hosts[i].full);
            Observe(h, i, y) == h && Grows(h, h) && Inv(Put(c, i, y, {}), h)
  {
    hide Inv, HistoryOk, Observe, Grows, LogTies, VoteTies, RoleTies;
    var n, req := c.hosts[i].node, e.message.append;
    var d := Recognise(n, req, draw);
    var y := Host(d, c.hosts[i].full);
    Known(c, h, i);
    if req.term > n.currentTerm || n.role != Follower {
      if req.term == n.currentTerm { VoteIsSpent(c, h, i, e); }
      StepDownStep(c, h, i, d);
    } else {
      RoleTiesOfFollower(i, y, c.network + {}, c.members, h);
      QuietStep(c, h, i, y, {});
    }
  }

  lemma AppendEntriesStep(c: Cluster, h: History, i: NodeId, e: Envelope, draw: nat)
    requires Inv(c, h) && i in c.hosts && e in c.network && e.to == i && e.message.AppendRequest?
    ensures c.hosts[i].node.snapshotIndex <= |c.hosts[i].full|
    ensures var (m, resp) := HandleAppendEntries(c.hosts[i].node, e.message.append, draw);
            var x := Host(m, c.hosts[i].full[..c.hosts[i].node.snapshotIndex] + m.log);
            Observe(h, i, x) == h && Grows(h, h)
            && Inv(Put(c, i, x, {Envelope(i, e.from, AppendReply(resp))}), h)
  {
    hide Inv, HistoryOk, Observe, Grows, LogTies, VoteTies, RoleTies, AppendAsFollower;
    var x, req := c.hosts[i], e.message.append;
    var n := x.node;
    var (m, resp) := HandleAppendEntries(n, req, draw);
    var reply := Envelope(i, e.from, AppendReply(resp));
    Known(c, h, i);
    KnownMessage(c, h, e);
    if req.term < n.currentTerm {
      assert x.full[..n.snapshotIndex] + n.log == x.full;
      assert MessageOk(reply, c.members, h);
      RoleTiesGrow(i, x, c.network, c.network + {reply}, c.members, h);
      QuietStep(c, h, i, x, {reply});
    } else {
      var d := Recognise(n, req, draw);
      var y := Host(d, x.full);
      RecogniseStep(c, h, i, e, draw);
      FollowerAppendStep(Put(c, i, y, {}), h, i, e);
      var z := Host(m, x.full[..n.snapshotIndex] + m.log);
      PutTwice(c, i, y, z, {reply});
    }
  }

  lemma RoleTiesGrow(i: NodeId, x: Host, network: set<Envelope>, network': set<Envelope>, members: set<NodeId>,
                     h: History)
    requires RoleTies(i, x, network, members, h) && network <= network'
    ensures RoleTies(i, x, network', members, h)
  {
  }

  lemma AppendReplyStep(c: Cluster, h: History, i: NodeId, e: Envelope, draw: nat)
    requires Inv(c, h) && i in c.hosts && e in c.network && e.to == i && e.message.AppendReply?
    ensures var (m, outbound) := HandleAppendEntriesResponse(c.hosts[i].node, e.message.appendReply, draw);
            var x := Host(m, c.hosts[i].full);
            Inv(Put(c, i, x, Posted(i, outbound)), Observe(h, i, x)) && Grows(h, Observe(h, i, x))
  {
    hide Inv, HistoryOk, Observe, Grows, LogTies, VoteTies, Heartbeats;
    var n, resp := c.hosts[i].node, e.message.appendReply;
    var (m, outbound) := HandleAppendEntriesResponse(n, resp, draw);
    var x := Host(m, c.hosts[i].full);
    Known(c, h, i);
    KnownMessage(c, h, e);
    if resp.term > n.currentTerm {
      assert Posted(i, outbound) == {};
      StepDownStep(c, h, i, m);
    } else if n.role != Leader || resp.term != n.currentTerm {
      assert Posted(i, outbound) == {};
      QuietStep(c, h, i, x, {});
    } else if resp.success {
      assert Posted(i, outbound) == {};
      GreatestCommittableIsGreatest(RecordSuccess(n, resp), n.LastLogIndex());
      QuietStep(c, h, i, x, {});
    } else {
      HeartbeatStep(c, h, i, m, [resp.from]);
    }
  }

  lemma ProposalStep(c: Cluster, h: History, i: NodeId, command: string)
    requires Inv(c, h) && i in c.hosts && c.hosts[i].node.role == Leader
    ensures ProposeCommand(c.hosts[i].node, command).Some?
    ensures c.hosts[i].node.snapshotIndex <= |c.hosts[i].full|
    ensures var (m, outbound) := ProposeCommand(c.hosts[i].node, command).value;
            var x := Host(m, c.hosts[i].full[..c.hosts[i].node.snapshotIndex] + m.log);
            Inv(Put(c, i, x, Posted(i, outbound)), Observe(h, i, x)) && Grows(h, Observe(h, i, x))
  {
    hide Inv, HistoryOk, Grows, LogTies, VoteTies, Heartbeats, HistoryOk, GrowsBy, Posted;
    var n, full := c.hosts[i].node, c.hosts[i].full;
    var (m, outbound) := ProposeCommand(n, command).value;
    var entry := LogEntry(n.currentTerm, command);
    Known(c, h, i);
    var x := Host(m, full[..n.snapshotIndex] + m.log);
    assert full[..n.snapshotIndex] + (n.log + [entry]) == full + [entry];
    assert HostShape(i, x, c.members);
    var g := Observe(h, i, x);
    ProposeHistory(c, h, i, x, entry);
    PostedHeartbeats(i, x, c.members, m.peers);
    hide HostShape, Observe;
    forall e | e in Posted(i, outbound) ensures MessageOk(e, c.members, g) {
      PostedOk(i, x, c.members, g, e);
    }
    ProposeStep(c, h, i, x, entry, Posted(i, outbound));
  }

  // ---------- local steps ----------

  lemma CompactShape(i: NodeId, x: Host, members: set<NodeId>)
    requires HostShape(i, x, members)
    ensures HostShape(i, Host(CompactCommitted(x.node).0, x.full), members)
  {
    TermAtFull(x, i, members, x.node.commitIndex);
    var n := x.node;
    if n.snapshotIndex < n.commitIndex <= |x.full| {
      assert n.log[n.commitIndex - n.snapshotIndex..] == x.full[n.commitIndex..];
    }
  }

  lemma LocalStep(c: Cluster, h: History, i: NodeId, a: Action)
    requires Inv(c, h) && i in c.hosts && (a.ApplyCommitted? || a.Compact? || a.Restart?)
    ensures var x := Host(NodeStep(c.hosts[i].node, a).0, c.hosts[i].full);
            Observe(h, i, x) == h && Grows(h, h) && Inv(Put(c, i, x, {}), h)
  {
    hide Inv, HistoryOk, Grows, LogTies, VoteTies, RoleTies, HostShape, Observe, NodeStep;
    var x := Host(NodeStep(c.hosts[i].node, a).0, c.hosts[i].full);
    Known(c, h, i);
    LocalShape(i, c.hosts[i], c.members, a);
    LocalRole(i, c.hosts[i], c.network, c.members, h, a);
    assert c.network + {} == c.network;
    QuietStep(c, h, i, x, {});
  }

  lemma LocalShape(i: NodeId, x: Host, members: set<NodeId>, a: Action)
    requires HostShape(i, x, members) && (a.ApplyCommitted? || a.Compact? || a.Restart?)
    ensures HostShape(i, Host(NodeStep(x.node, a).0, x.full), members)
  {
    if a.Compact? {
      CompactShape(i, x, members);
    } else {
      ShapeStays(i, x, Host(NodeStep(x.node, a).0, x.full), members);
    }
  }

  lemma LocalRole(i: NodeId, x: Host, network: set<Envelope>, members: set<NodeId>, h: History, a: Action)
    requires RoleTies(i, x, network, members, h) && (a.ApplyCommitted? || a.Compact? || a.Restart?)
    ensures var m := NodeStep(x.node, a).0; Quiet(x.node, m) && RoleTies(i, Host(m, x.full), network, members, h)
  {
  }

  // ---------- all steps ----------

  lemma FullStays(i: NodeId, x: Host, members: set<NodeId>)
    requires HostShape(i, x, members)
    ensures x.full[..x.node.snapshotIndex] + x.node.log == x.full
  {
  }

  lemma StepKeepsInv(c: Cluster, h: History, a: Action)
    requires Inv(c, h) && Enabled(c, a)
    ensures var g := Observe(h, a.actor, Step(c, a).hosts[a.actor]);
            Inv(Step(c, a), g) && Grows(h, g)
  {
    hide Inv, HistoryOk, Observe, Grows, LogTies, VoteTies, RoleTies, HandleRequestVote, HandleRequestVoteResponse,
      HandleAppendEntries,
      HandleAppendEntriesResponse, StartElection, Tick, ProposeCommand, TakeUnapplied, CompactCommitted, Restarted;
    var i := a.actor;
    Known(c, h, i);
    FullStays(i, c.hosts[i], c.members);
    assert c.hosts[i].node.id == i && c.hosts[i].node.snapshotIndex <= |c.hosts[i].full|;
    hide HostShape;
    LogUntouched(c.hosts[i].node, a);
    match a
    case TickAt(_, draw) => TickStep(c, h, i, draw);
    case ForceElection(_, draw) => StartElectionStep(c, h, i, c.hosts[i].node, draw);
    case Deliver(_, e, draw) =>
      match e.message {
        case VoteRequest(_) => RequestVoteStep(c, h, i, e, draw);
        case VoteReply(_) => VoteReplyStep(c, h, i, e, draw);
        case AppendRequest(_) => AppendEntriesStep(c, h, i, e, draw);
        case AppendReply(_) => AppendReplyStep(c, h, i, e, draw);
      }
    case Propose(_, command) =>
      if c.hosts[i].node.role == Leader {
        ProposalStep(c, h, i, command);
      } else {
        RefusedProposal(c, h, i, command);
      }
    case ApplyCommitted(_) => LocalStep(c, h, i, a);
    case Compact(_) => LocalStep(c, h, i, a);
    case Restart(_, _) => LocalStep(c, h, i, a);
  }

  lemma RefusedProposal(c: Cluster, h: History, i: NodeId, command: string)
    requires Inv(c, h) && i in c.hosts && c.hosts[i].node.role != Leader
    ensures ProposeCommand(c.hosts[i].node, command).None?
    ensures Inv(Put(c, i, c.hosts[i], {}), Observe(h, i, c.hosts[i])) && Grows(h, Observe(h, i, c.hosts[i]))
  {
    hide Inv, HistoryOk, Observe, Grows;
    Known(c, h, i);
    QuietStep(c, h, i, c.hosts[i], {});
  }

  /** Only a proposal, an accepted append and compaction touch the log of a node. */
  lemma LogUntouched(n: NodeState, a: Action)
    ensures a.TickAt? || a.ForceElection? || a.ApplyCommitted? || a.Restart? || (a.Propose? && n.role != Leader)
            || (a.Deliver? && !a.envelope.message.AppendRequest?)
            ==> NodeStep(n, a).0.log == n.log
  {
    hide Heartbeats, Posted, VoteRequests;
  }
}
