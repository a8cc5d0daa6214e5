/** Elections, appends and proposals: the steps that change the history or a log. */
module LeaderSteps {
  import opened RaftTypes
  import opened LogMerge
  import opened NodeModel
  import opened Clusters
  import opened Histories
  import opened HostLemmas
  import opened StepKinds

  // ---------- quorums ----------

  lemma UnionSize(a: set<NodeId>, b: set<NodeId>)
    requires a !! b
    ensures |a + b| == |a| + |b|
  {
  }

  lemma SubsetSize(a: set<NodeId>, b: set<NodeId>)
    requires a <= b
    ensures |a| <= |b|
  {
    UnionSize(a, b - a);
    assert a + (b - a) == b;
  }

  /** Two majorities of one membership share a node. */
  lemma MajoritiesMeet(members: set<NodeId>, a: set<NodeId>, b: set<NodeId>) returns (u: NodeId)
    requires a <= members && b <= members
    requires 2 * |a| > |members| && 2 * |b| > |members|
    ensures u in a && u in b
  {
    if a !! b {
      UnionSize(a, b);
      SubsetSize(a + b, members);
    }
    u :| u in a && u in b;
  }

  // ---------- logs ----------

  /** A traced log is a prefix of the log of the leader of its last term. */
  lemma TracedIsPrefix(log: seq<LogEntry>, leaderLogs: map<Term, seq<LogEntry>>)
    requires Traced(log, leaderLogs) && log != []
    ensures var t := LastTermOf(log);
            t in leaderLogs && |log| <= |leaderLogs[t]| && log == leaderLogs[t][..|log|]
  {
    assert log == log[..|log| - 1 + 1];
  }

  lemma TracedSorted(h: History, members: set<NodeId>, log: seq<LogEntry>)
    requires HistoryOk(h, members) && Traced(log, h.leaderLogs)
    ensures Sorted(log)
  {
    if log != [] {
      TracedIsPrefix(log, h.leaderLogs);
      hide BallotOk, ElectionOk, Traced;
      assert LeaderLogOk(h, LastTermOf(log));
    }
  }

  /** The entries of a leader's log are of its own term or older. */
  lemma LeaderLogBounded(h: History, members: set<NodeId>, t: Term)
    requires HistoryOk(h, members) && t in h.elections
    ensures t in h.leaderLogs && forall k :: 0 <= k < |h.leaderLogs[t]| ==> h.leaderLogs[t][k].term <= t
  {
    hide BallotOk, Traced;
    assert ElectionOk(h, members, t) && LeaderLogOk(h, t);
    var l := h.leaderLogs[t];
    var l0 := h.ballots[(h.elections[t].leader, t)].log;
    forall k | 0 <= k < |l| ensures l[k].term <= t {
      if k < |l0| { assert l[k].term <= l[|l0| - 1].term; }
    }
  }

  /** When only leader logs grow, what was known of earlier votes and elections stays. */
  lemma OldHistoryStays(h: History, g: History, members: set<NodeId>)
    requires HistoryOk(h, members) && LogsGrow(h.leaderLogs, g.leaderLogs) && g.ballots == h.ballots
    requires forall t :: t in h.elections ==> t in g.elections && g.elections[t] == h.elections[t]
    ensures forall v, t :: (v, t) in g.ballots ==> BallotOk(g, members, v, t)
    ensures forall t :: t in h.elections ==> ElectionOk(g, members, t)
  {
    hide Sorted;
    forall v, t | (v, t) in g.ballots ensures BallotOk(g, members, v, t) {
      assert BallotOk(h, members, v, t);
      TracedGrows(h.ballots[(v, t)].log, h.leaderLogs, g.leaderLogs);
    }
    forall t | t in h.elections ensures ElectionOk(g, members, t) {
      assert ElectionOk(h, members, t);
    }
  }

  lemma OldLogsStay(h: History, g: History, members: set<NodeId>, t: Term)
    requires HistoryOk(h, members) && LogsGrow(h.leaderLogs, g.leaderLogs) && g.ballots == h.ballots
    requires t in h.elections && t in g.elections && g.elections[t] == h.elections[t]
    requires g.leaderLogs[t] == h.leaderLogs[t]
    ensures (g.elections[t].leader, t) in g.ballots && LeaderLogOk(g, t)
  {
    hide BallotOk;
    assert ElectionOk(h, members, t) && LeaderLogOk(h, t);
    TracedGrows(h.leaderLogs[t], h.leaderLogs, g.leaderLogs);
  }

  // ---------- winning an election ----------

  ghost predicate VotesFor(i: NodeId, t: Term, votes: set<NodeId>, network: set<Envelope>, members: set<NodeId>) {
    && i in votes
    && (forall u :: u in votes && u != i ==>
          u in members && Envelope(u, i, VoteReply(RequestVoteResponse(t, true, u))) in network)
  }

  /** Each vote that a candidate counts is, while its term has no leader or the voter is in the leader's quorum, the
      voter's first and only vote of the term. */
  lemma CountedVote(c: Cluster, h: History, i: NodeId, votes: set<NodeId>, u: NodeId)
    requires Inv(c, h) && i in c.hosts && c.hosts[i].node.role == Candidate
    requires VotesFor(i, c.hosts[i].node.currentTerm, votes, c.network, c.members) && u in votes
    requires Binding(h, u, c.hosts[i].node.currentTerm)
    ensures var t := c.hosts[i].node.currentTerm;
            u in c.members && (u, t) in h.ballots && h.ballots[(u, t)].candidate == i
  {
    hide HistoryOk, HostShape, LogTies;
    var t := c.hosts[i].node.currentTerm;
    assert HostOk(i, c.hosts[i], c.network, c.members, h);
    if u != i {
      assert MessageOk(Envelope(u, i, VoteReply(RequestVoteResponse(t, true, u))), c.members, h);
    }
  }

  /** No candidate gathers a majority in a term that already has a leader. */
  lemma NoRival(c: Cluster, h: History, i: NodeId, votes: set<NodeId>)
    requires Inv(c, h) && i in c.hosts && c.hosts[i].node.role == Candidate
    requires VotesFor(i, c.hosts[i].node.currentTerm, votes, c.network, c.members)
    requires 2 * |votes| > |c.members|
    ensures c.hosts[i].node.currentTerm !in h.elections
  {
    hide HostShape, LogTies, BallotOk, LeaderLogOk, MessageOk;
    var t := c.hosts[i].node.currentTerm;
    if t in h.elections {
      assert ElectionOk(h, c.members, t);
      assert HostOk(i, c.hosts[i], c.network, c.members, h);
      var u := MajoritiesMeet(c.members, votes, h.elections[t].quorum);
      CountedVote(c, h, i, votes, u);
    }
  }

  lemma WinnerLogOk(h: History, g: History, members: set<NodeId>, i: NodeId, t: Term, votes: set<NodeId>,
                    log: seq<LogEntry>)
    requires HistoryOk(h, members)
    requires (i, t) in h.ballots && h.ballots[(i, t)] == Ballot(i, log)
    requires Traced(log, h.leaderLogs) && LastTermOf(log) <= t
    requires t !in h.elections && t !in h.leaderLogs && g.ballots == h.ballots
    requires g.elections == h.elections[t := Election(i, votes)]
    requires g.leaderLogs == h.leaderLogs[t := log]
    ensures LogsGrow(h.leaderLogs, g.leaderLogs)
    ensures LeaderLogOk(g, t)
  {
    hide Traced, Sorted, ElectionOk, LeaderLogOk;
    assert BallotOk(h, members, i, t);
    TracedSorted(h, members, log);
    hide HistoryOk, BallotOk;
    if log != [] { TracedIsPrefix(log, h.leaderLogs); }
    NewLogGrows(h.leaderLogs, t, log);
    TracedGrows(log, h.leaderLogs, g.leaderLogs);
    NewLeaderLogOk(g, t, log);
  }

  lemma NewLogGrows(leaderLogs: map<Term, seq<LogEntry>>, t: Term, log: seq<LogEntry>)
    requires t !in leaderLogs
    ensures LogsGrow(leaderLogs, leaderLogs[t := log])
  {
  }

  lemma NewLeaderLogOk(g: History, t: Term, log: seq<LogEntry>)
    requires t in g.elections && t in g.leaderLogs && g.leaderLogs[t] == log
    requires (g.elections[t].leader, t) in g.ballots && g.ballots[(g.elections[t].leader, t)].log == log
    requires Traced(log, g.leaderLogs) && Sorted(log) && LastTermOf(log) < t
    ensures LeaderLogOk(g, t)
  {
  }

  lemma WinnerHistory(c: Cluster, h: History, i: NodeId, x: Host)
    requires Inv(c, h) && i in c.hosts
    requires var n := c.hosts[i].node;
             && n.role == Candidate && x.full == c.hosts[i].full
             && x.node.role == Leader && x.node.currentTerm == n.currentTerm && x.node.votedFor == n.votedFor
    requires x.node.currentTerm !in h.elections
    ensures var t := x.node.currentTerm;
            && HistoryOk(h, c.members) && t !in h.leaderLogs
            && Traced(x.full, h.leaderLogs) && LastTermOf(x.full) <= t
            && (i, t) in h.ballots && h.ballots[(i, t)] == Ballot(i, x.full) && i in c.members
            && Observe(h, i, x) == History(h.ballots, h.elections[t := Election(i, x.node.votes)],
                                           h.leaderLogs[t := x.full])
  {
    hide HostShape, MessageOk, Traced, BallotOk, LeaderLogOk, ElectionOk;
    assert HostOk(i, c.hosts[i], c.network, c.members, h);
  }

  lemma WinnerElectionOk(c: Cluster, h: History, g: History, i: NodeId, votes: set<NodeId>)
    requires Inv(c, h) && i in c.hosts && c.hosts[i].node.role == Candidate
    requires var t := c.hosts[i].node.currentTerm;
             && VotesFor(i, t, votes, c.network, c.members) && 2 * |votes| > |c.members|
             && t !in h.elections && g.ballots == h.ballots && g.elections == h.elections[t := Election(i, votes)]
    ensures ElectionOk(g, c.members, c.hosts[i].node.currentTerm)
  {
    hide Inv;
    var t := c.hosts[i].node.currentTerm;
    forall v | v in votes ensures v in c.members && (v, t) in h.ballots && h.ballots[(v, t)].candidate == i {
      CountedVote(c, h, i, votes, v);
    }
  }

  lemma WinHistoryOk(h: History, g: History, members: set<NodeId>, i: NodeId, t: Term)
    requires HistoryOk(h, members) && t !in h.elections
    requires g.ballots == h.ballots && g.elections.Keys == h.elections.Keys + {t}
    requires forall u :: u in h.elections ==> g.elections[u] == h.elections[u]
    requires g.leaderLogs.Keys == h.leaderLogs.Keys + {t}
    requires forall u :: u in h.leaderLogs ==> g.leaderLogs[u] == h.leaderLogs[u]
    requires LogsGrow(h.leaderLogs, g.leaderLogs)
    requires ElectionOk(g, members, t) && LeaderLogOk(g, t) && g.elections[t].leader == i
    ensures HistoryOk(g, members) && GrowsBy(h, g, i)
  {
    hide BallotOk, LeaderLogOk, ElectionOk;
    OldHistoryStays(h, g, members);
    forall u | u in h.elections ensures LeaderLogOk(g, u) {
      OldLogsStay(h, g, members, u);
    }
    hide LogsGrow;
  }

  lemma WinHistory(c: Cluster, h: History, i: NodeId, x: Host)
    requires Inv(c, h) && i in c.hosts
    requires var n := c.hosts[i].node;
             && n.role == Candidate && x.full == c.hosts[i].full
             && x.node.role == Leader && x.node.currentTerm == n.currentTerm && x.node.votedFor == n.votedFor
             && VotesFor(i, n.currentTerm, x.node.votes, c.network, c.members) && 2 * |x.node.votes| > |c.members|
    ensures var g := Observe(h, i, x);
            HistoryOk(g, c.members) && GrowsBy(h, g, i)
  {
    hide Inv, VotesFor, HistoryOk, LogsGrow, LeaderLogOk, ElectionOk, Traced, Observe, GrowsBy;
    var t := x.node.currentTerm;
    var g := Observe(h, i, x);
    NoRival(c, h, i, x.node.votes);
    WinnerHistory(c, h, i, x);
    WinnerElectionOk(c, h, g, i, x.node.votes);
    WinnerLogOk(h, g, c.members, i, t, x.node.votes, x.full);
    WinHistoryOk(h, g, c.members, i, t);
  }

  lemma WinStep(c: Cluster, h: History, i: NodeId, m: NodeState)
    requires Inv(c, h) && i in c.hosts
    requires var n := c.hosts[i].node;
             && n.role == Candidate && SameSpine(n, m)
             && m.role == Leader && m.currentTerm == n.currentTerm && m.votedFor == n.votedFor
             && VotesFor(i, n.currentTerm, m.votes, c.network, c.members) && 2 * |m.votes| > |c.members|
    ensures var x := Host(m, c.hosts[i].full); Inv(Put(c, i, x, {}), Observe(h, i, x)) && Grows(h, Observe(h, i, x))
  {
    hide Inv, HistoryOk, Grows, GrowsBy, HostShape, MessageOk, LogTies, VoteTies, RoleTies, SameSpine, VotesFor,
      Observe;
    var x := Host(m, c.hosts[i].full);
    var g := Observe(h, i, x);
    WinHistory(c, h, i, x);
    Known(c, h, i);
    ShapeStays(i, c.hosts[i], x, c.members);
    WinTies(c, h, i, x);
    InvAfter(c, h, g, i, x, {});
  }

  lemma WinTies(c: Cluster, h: History, i: NodeId, x: Host)
    requires Inv(c, h) && i in c.hosts
    requires var n := c.hosts[i].node;
             && n.role == Candidate && x.full == c.hosts[i].full
             && x.node.role == Leader && x.node.currentTerm == n.currentTerm && x.node.votedFor == n.votedFor
             && VotesFor(i, n.currentTerm, x.node.votes, c.network, c.members) && 2 * |x.node.votes| > |c.members|
    ensures var g := Observe(h, i, x);
            LogTies(x, g) && VoteTies(i, x, g) && RoleTies(i, x, c.network + {}, c.members, g)
  {
    hide Inv, VotesFor, HistoryOk, HostShape, Traced, LogsGrow;
    NoRival(c, h, i, x.node.votes);
    WinnerHistory(c, h, i, x);
    Known(c, h, i);
    NewLogGrows(h.leaderLogs, x.node.currentTerm, x.full);
    hide Observe;
    TracedGrows(x.full, h.leaderLogs, Observe(h, i, x).leaderLogs);
  }

  // ---------- proposing ----------

  lemma TracedPush(h: History, g: History, t: Term, log: seq<LogEntry>, entry: LogEntry)
    requires t in h.leaderLogs && h.leaderLogs[t] == log && Traced(log, h.leaderLogs) && entry.term == t
    requires g.leaderLogs == h.leaderLogs[t := log + [entry]]
    ensures LogsGrow(h.leaderLogs, g.leaderLogs)
    ensures Traced(log + [entry], g.leaderLogs)
  {
    TracedGrows(log, h.leaderLogs, g.leaderLogs);
    forall k | 0 <= k < |log + [entry]|
      ensures var u := (log + [entry])[k].term;
              u in g.leaderLogs && k < |g.leaderLogs[u]| && (log + [entry])[..k + 1] == g.leaderLogs[u][..k + 1]
    {
      if k < |log| { assert (log + [entry])[..k + 1] == log[..k + 1]; }
    }
  }

  lemma PushSorted(l: seq<LogEntry>, entry: LogEntry)
    requires Sorted(l) && forall k :: 0 <= k < |l| ==> l[k].term <= entry.term
    ensures Sorted(l + [entry])
  {
  }

  lemma PushedLogOk(h: History, g: History, members: set<NodeId>, t: Term, entry: LogEntry)
    requires HistoryOk(h, members) && t in h.elections && entry.term == t
    requires g.ballots == h.ballots && g.elections == h.elections
    requires g.leaderLogs == h.leaderLogs[t := h.leaderLogs[t] + [entry]]
    ensures (g.elections[t].leader, t) in g.ballots && LeaderLogOk(g, t)
  {
    hide Traced, Sorted, LogsGrow, BallotOk, ElectionOk;
    var l := h.leaderLogs[t];
    LeaderLogBounded(h, members, t);
    assert LeaderLogOk(h, t);
    hide HistoryOk;
    TracedPush(h, g, t, l, entry);
    PushSorted(l, entry);
    PushedTail(h.ballots[(h.elections[t].leader, t)].log, l, entry, t);
  }

  lemma PushedTail(l0: seq<LogEntry>, l: seq<LogEntry>, entry: LogEntry, t: Term)
    requires l0 <= l && entry.term == t && forall k :: |l0| <= k < |l| ==> l[k].term == t
    ensures l0 <= l + [entry] && forall k :: |l0| <= k < |l + [entry]| ==> (l + [entry])[k].term == t
  {
  }

  lemma ProposeHistory(c: Cluster, h: History, i: NodeId, x: Host, entry: LogEntry)
    requires Inv(c, h) && i in c.hosts
    requires var n := c.hosts[i].node;
             && n.role == Leader == x.node.role && x.full == c.hosts[i].full + [entry] && entry.term == n.currentTerm
             && x.node.currentTerm == n.currentTerm && x.node.votedFor == n.votedFor
    ensures var g := Observe(h, i, x);
            && g == h.(leaderLogs := h.leaderLogs[x.node.currentTerm := x.full])
            && HistoryOk(g, c.members) && GrowsBy(h, g, i)
  {
    hide Inv, HostShape, BallotOk, LeaderLogOk, ElectionOk, LogsGrow, Traced, GrowsBy;
    var t := x.node.currentTerm;
    var g := Observe(h, i, x);
    Known(c, h, i);
    assert g == h.(leaderLogs := h.leaderLogs[t := x.full]);
    hide Observe, VoteTies;
    TracedPush(h, g, t, c.hosts[i].full, entry);
    hide LogTies;
    PushedHistoryOk(h, g, c.members, i, t, entry);
  }

  lemma PushedHistoryOk(h: History, g: History, members: set<NodeId>, i: NodeId, t: Term, entry: LogEntry)
    requires HistoryOk(h, members) && t in h.elections && h.elections[t].leader == i && entry.term == t
    requires g == h.(leaderLogs := h.leaderLogs[t := h.leaderLogs[t] + [entry]]) && LogsGrow(h.leaderLogs, g.leaderLogs)
    ensures HistoryOk(g, members) && GrowsBy(h, g, i)
  {
    hide BallotOk, LeaderLogOk, ElectionOk, LogsGrow;
    OldHistoryStays(h, g, members);
    PushedLogOk(h, g, members, t, entry);
    forall u | u in g.elections ensures LeaderLogOk(g, u) {
      if u != t { OldLogsStay(h, g, members, u); }
    }
  }

  lemma ProposeStep(c: Cluster, h: History, i: NodeId, x: Host, entry: LogEntry, sent: set<Envelope>)
    requires Inv(c, h) && i in c.hosts
    requires var n := c.hosts[i].node;
             && n.role == Leader == x.node.role && x.full == c.hosts[i].full + [entry] && entry.term == n.currentTerm
             && x.node.currentTerm == n.currentTerm && x.node.votedFor == n.votedFor
    requires HostShape(i, x, c.members)
    requires forall e :: e in sent ==> MessageOk(e, c.members, Observe(h, i, x))
    ensures Inv(Put(c, i, x, sent), Observe(h, i, x)) && Grows(h, Observe(h, i, x))
  {
    hide Inv, HistoryOk, Grows, GrowsBy, HostShape, MessageOk, VoteTies, LogTies, RoleTies, Observe;
    var g := Observe(h, i, x);
    ProposeHistory(c, h, i, x, entry);
    ProposeTies(c, h, i, x, entry, sent);
    InvAfter(c, h, g, i, x, sent);
  }

  lemma ProposeTies(c: Cluster, h: History, i: NodeId, x: Host, entry: LogEntry, sent: set<Envelope>)
    requires Inv(c, h) && i in c.hosts
    requires var n := c.hosts[i].node;
             && n.role == Leader == x.node.role && x.full == c.hosts[i].full + [entry] && entry.term == n.currentTerm
             && x.node.currentTerm == n.currentTerm && x.node.votedFor == n.votedFor
    ensures var g := Observe(h, i, x);
            LogTies(x, g) && VoteTies(i, x, g) && RoleTies(i, x, c.network + sent, c.members, g)
  {
    hide Inv, HistoryOk, HostShape, Traced, LogsGrow, Observe, GrowsBy;
    ProposeHistory(c, h, i, x, entry);
    Known(c, h, i);
    TracedPush(h, Observe(h, i, x), x.node.currentTerm, c.hosts[i].full, entry);
  }

  // ---------- accepting entries ----------

  /** The log a follower ends up with after accepting a request. */
  ghost predicate Accepted(full: seq<LogEntry>, req: AppendEntries, merged: seq<LogEntry>, leaderLog: seq<LogEntry>) {
    var covered := req.prevLogIndex + |req.entries|;
    && covered <= |leaderLog| && covered <= |merged|
    && merged[..covered] == leaderLog[..covered]
    && (merged == full
        || (merged == leaderLog[..covered]
            && exists p :: 0 <= p < covered && p <= |full| && full[..p] == leaderLog[..p]
                           && (p < |full| ==> full[p].term != leaderLog[p].term)))
  }

  lemma MergeAcceptedAt(x: Host, i: NodeId, members: set<NodeId>, req: AppendEntries,
                        leaderLogs: map<Term, seq<LogEntry>>)
    requires HostShape(i, x, members) && RefusalIndex(x.node, req).None?
    requires SliceOk(req, leaderLogs)
    requires Traced(x.full, leaderLogs) && Traced(leaderLogs[req.term], leaderLogs)
    ensures var n := x.node;
            var merged := x.full[..n.snapshotIndex] + MergeFrom(n.log, n.snapshotIndex, req.prevLogIndex + 1,
                                                                req.entries);
            && n.snapshotIndex <= |merged| && merged[..n.snapshotIndex] == x.full[..n.snapshotIndex]
            && Accepted(x.full, req, merged, leaderLogs[req.term])
  {
    hide Traced, MergeFrom, HostShape, FirstConflict, Accepted, Overwritten, RefusalIndex, SliceOk, TermOf;
    AcceptedAtFull(x, i, members, req);
    SliceFacts(req, leaderLogs);
    assert TermOf(x.full, req.prevLogIndex) == TermOf(leaderLogs[req.term], req.prevLogIndex) by {
      StartsAlike(x.full, leaderLogs[req.term]);
    }
    var j := MergeOnFull(x, i, members, req.prevLogIndex, req.entries);
    PrefixKept(x.full, x.node.snapshotIndex,
               MergeFrom(x.node.log, x.node.snapshotIndex, req.prevLogIndex + 1, req.entries));
    AcceptedMeetsLeader(x.full, leaderLogs[req.term], leaderLogs, req.prevLogIndex, req.entries, j);
    OverwrittenAccepted(x.full, req, leaderLogs[req.term], j);
  }

  lemma PrefixKept(full: seq<LogEntry>, k: nat, rest: seq<LogEntry>)
    requires k <= |full|
    ensures k <= |full[..k] + rest| && (full[..k] + rest)[..k] == full[..k]
  {
  }

  lemma SliceFacts(req: AppendEntries, leaderLogs: map<Term, seq<LogEntry>>)
    requires SliceOk(req, leaderLogs)
    ensures req.term in leaderLogs
    ensures var l := leaderLogs[req.term];
            && req.prevLogIndex + |req.entries| <= |l|
            && req.entries == l[req.prevLogIndex..req.prevLogIndex + |req.entries|]
            && req.prevLogTerm == TermOf(l, req.prevLogIndex)
  {
  }

  lemma StartsAlike(a: seq<LogEntry>, b: seq<LogEntry>)
    ensures TermOf(a, 0) == TermOf(b, 0)
  {
  }

  lemma AcceptedAtFull(x: Host, i: NodeId, members: set<NodeId>, req: AppendEntries)
    requires HostShape(i, x, members) && RefusalIndex(x.node, req).None?
    ensures x.node.snapshotIndex <= req.prevLogIndex <= |x.full| && x.node.log == x.full[x.node.snapshotIndex..]
    ensures req.prevLogIndex > 0 ==> TermOf(x.full, req.prevLogIndex) == req.prevLogTerm
  {
    TermAtFull(x, i, members, req.prevLogIndex);
  }

  lemma OverwrittenAccepted(full: seq<LogEntry>, req: AppendEntries, l: seq<LogEntry>, j: nat)
    requires FirstConflict(full, req.prevLogIndex, req.entries, j)
    requires var covered := req.prevLogIndex + |req.entries|;
             var merged := Overwritten(full, req.prevLogIndex, req.entries, j);
             && covered <= |l| && req.entries == l[req.prevLogIndex..covered]
             && full[..req.prevLogIndex + j] == l[..req.prevLogIndex + j]
             && covered <= |merged| && merged[..covered] == l[..covered]
             && (merged == full || merged == l[..covered])
    ensures Accepted(full, req, Overwritten(full, req.prevLogIndex, req.entries, j), l)
  {
    var p := req.prevLogIndex + j;
    if j < |req.entries| {
      assert req.entries[j] == l[p];
      assert 0 <= p < req.prevLogIndex + |req.entries|;
    }
  }

  lemma MergeAccepted(c: Cluster, h: History, i: NodeId, e: Envelope)
    requires Inv(c, h) && i in c.hosts && e in c.network && e.to == i && e.message.AppendRequest?
    requires RefusalIndex(c.hosts[i].node, e.message.append).None?
    ensures var n := c.hosts[i].node;
            var req := e.message.append;
            var merged := c.hosts[i].full[..n.snapshotIndex]
                          + MergeFrom(n.log, n.snapshotIndex, req.prevLogIndex + 1, req.entries);
            && req.term in h.leaderLogs && req.term in h.elections
            && n.snapshotIndex <= |merged| && merged[..n.snapshotIndex] == c.hosts[i].full[..n.snapshotIndex]
            && Accepted(c.hosts[i].full, req, merged, h.leaderLogs[req.term])
  {
    hide BallotOk, ElectionOk, Sorted, HostShape, Traced, SliceOk, VoteTies, RoleTies, Accepted;
    var req := e.message.append;
    assert MessageOk(e, c.members, h);
    assert HostOk(i, c.hosts[i], c.network, c.members, h);
    assert LeaderLogOk(h, req.term);
    MergeAcceptedAt(c.hosts[i], i, c.members, req, h.leaderLogs);
  }

  lemma AcceptedTies(h: History, members: set<NodeId>, x: Host, y: Host, req: AppendEntries)
    requires HistoryOk(h, members) && req.term in h.elections && req.term in h.leaderLogs
    requires LogTies(x, h) && x.node.currentTerm == y.node.currentTerm == req.term
    requires Accepted(x.full, req, y.full, h.leaderLogs[req.term])
    ensures LogTies(y, h)
  {
    hide BallotOk, ElectionOk, Traced, Sorted;
    var l := h.leaderLogs[req.term];
    assert LeaderLogOk(h, req.term);
    LeaderLogBounded(h, members, req.term);
    TracedPrefix(l, h.leaderLogs, req.prevLogIndex + |req.entries|);
  }

  lemma AppendStep(c: Cluster, h: History, i: NodeId, req: AppendEntries, x: Host, sent: set<Envelope>)
    requires Inv(c, h) && i in c.hosts
    requires var n := c.hosts[i].node;
             && n.role == Follower == x.node.role && x.node.currentTerm == n.currentTerm == req.term
             && x.node.votedFor == n.votedFor
             && req.term in h.elections && req.term in h.leaderLogs
             && Accepted(c.hosts[i].full, req, x.full, h.leaderLogs[req.term])
    requires HostShape(i, x, c.members)
    requires forall e :: e in sent ==> MessageOk(e, c.members, h)
    ensures Observe(h, i, x) == h && Grows(h, h)
    ensures Inv(Put(c, i, x, sent), h)
  {
    GrowsNot(h, i);
    hide BallotOk, MessageOk, HostShape, GrowsBy, LogTies, HistoryOk, Accepted;
    assert HostOk(i, c.hosts[i], c.network, c.members, h);
    AcceptedTies(h, c.members, c.hosts[i], x, req);
    assert Observe(h, i, x) == h;
    InvAfter(c, h, h, i, x, sent);
  }

  // ---------- sending ----------

  /** A request built by a leader is a slice of its full log that reaches to the end of it. */
  lemma BuiltIsSlice(i: NodeId, x: Host, members: set<NodeId>, peer: NodeId)
    requires HostShape(i, x, members)
    requires AppendEntriesFor(x.node, peer).Some?
    ensures var m := AppendEntriesFor(x.node, peer).value;
            && m.term == x.node.currentTerm && m.leaderId == i && m.leaderCommit == x.node.commitIndex
            && m.prevLogIndex + |m.entries| == |x.full|
            && m.prevLogTerm == TermOf(x.full, m.prevLogIndex)
            && m.entries == x.full[m.prevLogIndex..]
            && x.node.snapshotIndex <= m.prevLogIndex
  {
    var next := x.node.NextIndexOf(peer, 1);
    TermAtFull(x, i, members, next - 1);
  }

  lemma {:induction false} HeartbeatsAreBuilt(n: NodeState, peers: seq<NodeId>, o: OutboundMessage)
    requires o in Heartbeats(n, peers)
    ensures o.SendAppendEntries? && o.to in peers && AppendEntriesFor(n, o.to) == Some(o.append)
  {
    if peers != [] {
      if o in Heartbeats(n, peers[1..]) {
        HeartbeatsAreBuilt(n, peers[1..], o);
      }
    }
  }

  /** What a leader posts, in terms of its full log. */
  ghost predicate PostedBy(i: NodeId, x: Host, members: set<NodeId>, e: Envelope) {
    && e.from == i && e.to in members && e.to != i
    && e.message.AppendRequest?
    && var m := e.message.append;
       && m.term == x.node.currentTerm && m.leaderId == i && m.leaderCommit == x.node.commitIndex
       && m.prevLogIndex + |m.entries| == |x.full|
       && m.prevLogTerm == TermOf(x.full, m.prevLogIndex)
       && m.entries == x.full[m.prevLogIndex..]
  }

  lemma PostedHeartbeats(i: NodeId, x: Host, members: set<NodeId>, peers: seq<NodeId>)
    requires HostShape(i, x, members)
    requires forall p :: p in peers ==> p in members && p != i
    ensures forall e :: e in Posted(i, Heartbeats(x.node, peers)) ==> PostedBy(i, x, members, e)
  {
    forall e | e in Posted(i, Heartbeats(x.node, peers)) ensures PostedBy(i, x, members, e) {
      var o :| o in Heartbeats(x.node, peers)
               && e == Envelope(i, o.to, if o.SendRequestVote? then VoteRequest(o.vote) else AppendRequest(o.append));
      HeartbeatsAreBuilt(x.node, peers, o);
      BuiltIsSlice(i, x, members, o.to);
    }
  }

  lemma PostedOk(i: NodeId, x: Host, members: set<NodeId>, h: History, e: Envelope)
    requires PostedBy(i, x, members, e) && i in members
    requires x.node.currentTerm in h.elections && h.elections[x.node.currentTerm].leader == i
    requires x.node.currentTerm in h.leaderLogs && h.leaderLogs[x.node.currentTerm] == x.full
    ensures MessageOk(e, members, h)
  {
    var m := e.message.append;
    assert m.entries == x.full[m.prevLogIndex..m.prevLogIndex + |m.entries|];
  }
}
