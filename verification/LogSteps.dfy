/** What a step does to the full log of a node. */
module LogSteps {
  import opened RaftTypes
  import opened LogMerge
  import opened NodeModel
  import opened Clusters
  import opened Histories
  import opened LeaderSteps
  import opened RunInvariant

  /** Stepping up to a request leaves the log and its reading alone. */
  lemma AcceptedAfterRecognition(n: NodeState, req: AppendEntries, draw: nat)
    requires HandleAppendEntries(n, req, draw).1.success
    ensures req.term >= n.currentTerm
    ensures var d := Recognise(n, req, draw);
            && RefusalIndex(d, req).None? && d.log == n.log && d.snapshotIndex == n.snapshotIndex
            && var (m, resp) := HandleAppendEntries(n, req, draw);
               && m.log == MergeFrom(n.log, n.snapshotIndex, req.prevLogIndex + 1, req.entries)
               && resp.matchIndex == n.snapshotIndex + |m.log|
  {
    hide MergeFrom;
  }

  lemma TermAfter(n: NodeState, req: AppendEntries, draw: nat)
    requires req.term >= n.currentTerm
    ensures HandleAppendEntries(n, req, draw).0.currentTerm == req.term
    ensures HandleAppendEntries(n, req, draw).0.role == Follower
  {
    hide MergeFrom;
  }

  lemma AppendedHost(x: Host, a: Action)
    requires a.Deliver? && a.envelope.message.AppendRequest? && x.node.snapshotIndex <= |x.full|
    ensures HostStep(x, a).0 == Host(HandleAppendEntries(x.node, a.envelope.message.append, a.draw).0,
                                     x.full[..x.node.snapshotIndex]
                                     + HandleAppendEntries(x.node, a.envelope.message.append, a.draw).0.log)
  {
    hide HandleAppendEntries;
  }

  lemma RefusalKeepsLog(n: NodeState, req: AppendEntries, draw: nat)
    requires !HandleAppendEntries(n, req, draw).1.success
    ensures HandleAppendEntries(n, req, draw).0.log == n.log
  {
    hide MergeFrom;
  }

  lemma StaleKeepsLog(n: NodeState, a: Action)
    requires a.Deliver? && a.envelope.message.AppendRequest? && a.envelope.message.append.term < n.currentTerm
    ensures NodeStep(n, a).0 == n
  {
  }

  lemma ProposalExtends(x: Host, a: Action)
    requires a.Propose? && x.node.role == Leader && x.full[..Min(x.node.snapshotIndex, |x.full|)] + x.node.log == x.full
    ensures x.full <= HostStep(x, a).0.full
  {
    hide Heartbeats, Posted;
  }

  /** A follower that agrees with the leader of its term up to an entry of that term has no other tail. */
  lemma OwnEntryEndsAgreement(full: seq<LogEntry>, t: Term, index: nat, leaderLogs: map<Term, seq<LogEntry>>)
    requires t in leaderLogs && Has(leaderLogs[t], t, index)
    requires Traced(full, leaderLogs) && Sorted(full) && LastTermOf(full) <= t
    requires index <= |full| && full[..index] == leaderLogs[t][..index]
    ensures full <= leaderLogs[t]
  {
    assert full[index - 1] == full[..index][index - 1] == leaderLogs[t][..index][index - 1];
    TracedIsPrefix(full, leaderLogs);
  }

  /** What accepting a request does to a log, for all that was acknowledged or committed. */
  lemma AcceptedKeepsShared(full: seq<LogEntry>, req: AppendEntries, merged: seq<LogEntry>, leaderLog: seq<LogEntry>,
                            k: nat)
    requires Accepted(full, req, merged, leaderLog)
    requires k <= |full| && k <= |leaderLog| && full[..k] == leaderLog[..k]
    ensures k <= |merged| && merged[..k] == full[..k]
  {
    var covered := req.prevLogIndex + |req.entries|;
    if merged != full {
      var p :| 0 <= p < covered && p <= |full| && full[..p] == leaderLog[..p]
               && (p < |full| ==> full[p].term != leaderLog[p].term);
      assert k <= covered;
      assert merged[..k] == leaderLog[..covered][..k];
    }
  }

  /** A request that ends in an entry of its own term leaves no tail that the leader does not have. */
  lemma AcceptedIsSound(h: History, members: set<NodeId>, req: AppendEntries, full: seq<LogEntry>, y: Host)
    requires HistoryOk(h, members) && LogTies(y, h) && y.node.currentTerm == req.term && req.term in h.leaderLogs
    requires Has(h.leaderLogs[req.term], req.term, req.prevLogIndex + |req.entries|)
    requires Accepted(full, req, y.full, h.leaderLogs[req.term])
    ensures y.full <= h.leaderLogs[req.term]
  {
    hide Traced, Sorted, BallotOk, ElectionOk, LeaderLogOk;
    TracedSorted(h, members, y.full);
    hide HistoryOk;
    OwnEntryEndsAgreement(y.full, req.term, req.prevLogIndex + |req.entries|, h.leaderLogs);
  }

  /** A request of the follower's term or a later one: the follower joins the term, and either accepts, with the merged
      log and its length as the answer, or keeps its log. */
  lemma AppendAcross(c: Cluster, h: History, i: NodeId, e: Envelope, draw: nat)
    requires Inv(c, h) && i in c.hosts && e in c.network && e.to == i && e.message.AppendRequest?
    requires e.message.append.term >= c.hosts[i].node.currentTerm
    ensures c.hosts[i].node.snapshotIndex <= |c.hosts[i].full|
    ensures var x, req := c.hosts[i], e.message.append;
            var (m, resp) := HandleAppendEntries(x.node, req, draw);
            var full := x.full[..x.node.snapshotIndex] + m.log;
            && m.currentTerm == req.term && m.role == Follower && req.term in h.leaderLogs && req.term in h.elections
            && (if resp.success
                then Accepted(x.full, req, full, h.leaderLogs[req.term]) && resp.matchIndex == |full|
                else full == x.full)
  {
    hide Inv, HistoryOk, VoteTies, RoleTies, Traced, MergeFrom, Accepted, Observe, Grows, HandleAppendEntries;
    var x, req := c.hosts[i], e.message.append;
    Known(c, h, i);
    KnownMessage(c, h, e);
    FullStays(i, x, c.members);
    TermAfter(x.node, req, draw);
    LeaderIsRecorded(h, c.members, req.term);
    if HandleAppendEntries(x.node, req, draw).1.success {
      AcceptedAfterRecognition(x.node, req, draw);
      RecogniseStep(c, h, i, e, draw);
      MergeAccepted(Put(c, i, Host(Recognise(x.node, req, draw), x.full), {}), h, i, e);
    } else {
      RefusalKeepsLog(x.node, req, draw);
    }
  }

  lemma LeaderIsRecorded(h: History, members: set<NodeId>, t: Term)
    requires HistoryOk(h, members)
    ensures t in h.elections <==> t in h.leaderLogs
  {
  }

  lemma TermsForward(n: NodeState, a: Action)
    ensures NodeStep(n, a).0.currentTerm >= n.currentTerm
  {
    hide Heartbeats, VoteRequests, Posted, MergeFrom, GreatestCommittable;
  }

  /** The follower's log after it has accepted a request of the leader of `term`. */
  ghost predicate Replaced(full: seq<LogEntry>, after: seq<LogEntry>, h: History, term: Term) {
    && term in h.elections && term in h.leaderLogs
    && (exists req: AppendEntries :: req.term == term && Accepted(full, req, after, h.leaderLogs[term]))
  }

  /** Any step extends the full log of its node, or keeps it, or replaces its tail by that of a leader's log. */
  lemma StepAcross(c: Cluster, h: History, a: Action)
    requires Inv(c, h) && Enabled(c, a)
    ensures var x, y := c.hosts[a.actor], HostStep(c.hosts[a.actor], a).0;
            && x.node.currentTerm <= y.node.currentTerm
            && (x.full <= y.full || Replaced(x.full, y.full, h, y.node.currentTerm))
  {
    hide Inv, Accepted, HandleAppendEntries, DeliverTo, Posted, ProposeCommand, Tick, StartElection, TakeUnapplied,
      CompactCommitted, Restarted, LogTies, VoteTies, RoleTies;
    var i := a.actor;
    var x := c.hosts[i];
    Known(c, h, i);
    FullStays(i, x, c.members);
    hide HostShape, HostOk;
    TermsForward(x.node, a);
    if a.Deliver? && a.envelope.message.AppendRequest? {
      if a.envelope.message.append.term >= x.node.currentTerm {
        AppendAcross(c, h, i, a.envelope, a.draw);
        AppendedHost(x, a);
      } else {
        StaleKeepsLog(x.node, a);
      }
    } else if a.Propose? && x.node.role == Leader {
      ProposalExtends(x, a);
    } else if !a.Compact? {
      LogUntouched(x.node, a);
    }
  }

  // ---------- what leaders send ----------

  /** Every append that a step sends is one that the node, as it is after the step, builds for the receiver. */
  lemma SentIsBuilt(n: NodeState, a: Action, e: Envelope)
    requires e in NodeStep(n, a).1 && e.message.AppendRequest?
    ensures var m := NodeStep(n, a).0;
            m.role == Leader && AppendEntriesFor(m, e.to) == Some(e.message.append)
  {
    hide AppendEntriesFor, AdvanceCommit, UpToDate, NodeState.LastLogTerm;
    match a
    case TickAt(_, draw) => OnlyBuilt(Tick(n, draw).0, n.peers, n.id, e);
    case ForceElection(_, draw) =>
    case Deliver(_, d, draw) =>
      match d.message {
        case AppendReply(resp) => OnlyBuilt(HandleAppendEntriesResponse(n, resp, draw).0, [resp.from], n.id, e);
        case _ =>
      }
    case Propose(_, command) =>
      if n.role == Leader { OnlyBuilt(ProposeCommand(n, command).value.0, n.peers, n.id, e); }
    case _ =>
  }

  lemma OnlyBuilt(n: NodeState, peers: seq<NodeId>, from: NodeId, e: Envelope)
    ensures e in Posted(from, Heartbeats(n, peers)) && e.message.AppendRequest? ==>
              AppendEntriesFor(n, e.to) == Some(e.message.append)
  {
    hide AppendEntriesFor, Heartbeats;
    if e in Posted(from, Heartbeats(n, peers)) {
      var o :| o in Heartbeats(n, peers)
               && e == Envelope(from, o.to,
                                if o.SendRequestVote? then VoteRequest(o.vote) else AppendRequest(o.append));
      HeartbeatsAreBuilt(n, peers, o);
    }
  }
}
