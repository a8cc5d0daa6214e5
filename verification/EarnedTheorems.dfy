/** What holds over whole runs in which every commit of a leader is earned. */
module EarnedTheorems {
  import opened RaftTypes
  import opened LogMerge
  import opened NodeModel
  import opened Clusters
  import opened Histories
  import opened LeaderSteps
  import opened RunInvariant
  import opened ElectionHandlers
  import opened LogHandlers
  import opened LogSteps
  import opened Holdings
  import opened Commitment
  import opened EarnedInvariant
  import opened RunTheorems

  lemma {:induction false} EarnedInvAt(r: Run, k: nat)
    requires EarnedRun(r) && k < |r.states|
    ensures EarnedInv(r.states[k], HistoryAt(r, k), HeldAt(r, k))
    ensures r.states[k].members == r.states[0].members
  {
    hide EarnedRun, EarnedInv, Inv, Observe, HostStep, EarnedStep, Enabled, HeldBy, Initial;
    EarnedStarts(r);
    if k == 0 {
      InitialEarnedInv(r.states[0]);
    } else {
      EarnedInvAt(r, k - 1);
      EarnedAt(r, k - 1);
      StepKeepsEarned(r.states[k - 1], HistoryAt(r, k - 1), HeldAt(r, k - 1), r.actions[k - 1]);
    }
  }

  /** Action `k` of the run. */
  lemma EarnedAt(r: Run, k: nat)
    requires EarnedRun(r) && k < |r.actions|
    ensures |r.states| == |r.actions| + 1
    ensures var c, a := r.states[k], r.actions[k];
            && Enabled(c, a) && a.actor in c.hosts && EarnedStep(c, HeldAt(r, k), a) && r.states[k + 1] == Step(c, a)
            && var y := Step(c, a).hosts[a.actor];
               && HistoryAt(r, k + 1) == Observe(HistoryAt(r, k), a.actor, y)
               && HeldAt(r, k + 1) == HeldAt(r, k) + HeldBy(a.actor, y)
  {
    hide Observe, HostStep, EarnedStep, Enabled, HeldBy, Initial;
    EnabledActor(r.states[k], r.actions[k]);
  }

  lemma EarnedStarts(r: Run)
    requires EarnedRun(r)
    ensures |r.states| == |r.actions| + 1 && Initial(r.states[0])
  {
    hide Initial, EarnedStep, Enabled, HostStep;
  }

  lemma InitialEarnedInv(c: Cluster)
    requires Initial(c)
    ensures EarnedInv(c, Nothing, {})
  {
    hide Inv;
    InitialInv(c);
    NothingHeld(c);
  }

  lemma EarnedIsValid(r: Run)
    requires EarnedRun(r)
    ensures ValidRun(r)
  {
  }

  /** The committed prefix of a node in one state, seen from a later state of the run. */
  lemma CommittedFrom(r: Run, j: nat, k: nat, a: NodeId)
    requires EarnedRun(r) && j <= k < |r.states| && a in r.states[j].hosts
    ensures var x := r.states[j].hosts[a];
            && x.node.commitIndex <= |x.full|
            && Committed(x.full, x.node.commitIndex, x.node.currentTerm,
                         HeldAt(r, k), r.states[k].members, HistoryAt(r, k))
  {
    hide EarnedRun, HistoryAt, HeldAt, EarnedInv, Inv, Committed, Grows, ValidRun, OwnHeld, BallotTies, HistoryOk;
    EarnedInvAt(r, j);
    EarnedInvAt(r, k);
    EarnedIsValid(r);
    HistoryGrows(r, j, k);
    HeldGrows(r, j, k);
    var x := r.states[j].hosts[a];
    EarnedParts(r.states[j], HistoryAt(r, j), HeldAt(r, j));
    CommitWithin(x, HeldAt(r, j), r.states[j].members, HistoryAt(r, j));
    CommittedStays(x.full, x.full, x.node.commitIndex, x.node.currentTerm, x.node.currentTerm,
                   HeldAt(r, j), HeldAt(r, k), r.states[j].members, HistoryAt(r, j), HistoryAt(r, k));
  }

  // ---------- safety of what is committed ----------

  /** State Machine Safety: any two nodes, at any moments, agree on every index that both have committed. */
  lemma StateMachineSafety(r: Run, j: nat, k: nat, a: NodeId, b: NodeId)
    requires EarnedRun(r) && j <= k < |r.states| && a in r.states[j].hosts && b in r.states[k].hosts
    ensures var x, y := r.states[j].hosts[a], r.states[k].hosts[b];
            var common := Min(x.node.commitIndex, y.node.commitIndex);
            common <= |x.full| && common <= |y.full| && x.full[..common] == y.full[..common]
  {
    hide EarnedRun, HistoryAt, HeldAt, HistoryOk, BallotTies, OwnHeld, Committed, EarnedInv;
    CommittedFrom(r, j, k, a);
    CommittedFrom(r, k, k, b);
    EarnedInvAt(r, k);
    EarnedParts(r.states[k], HistoryAt(r, k), HeldAt(r, k));
    var x, y := r.states[j].hosts[a], r.states[k].hosts[b];
    CommittedAgree(HistoryAt(r, k), r.states[k].members, HeldAt(r, k),
                   x.full, x.node.commitIndex, x.node.currentTerm, y.full, y.node.commitIndex, y.node.currentTerm);
  }

  /** Leader Completeness: what any node has committed is in the log of every leader of a later term, also of one
      elected before the commit, and of every later leader of the same term. */
  lemma LeaderCompleteness(r: Run, j: nat, k: nat, a: NodeId, b: NodeId, term: Term)
    requires EarnedRun(r) && j < |r.states| && a in r.states[j].hosts && Leads(r, k, b, term)
    requires term > r.states[j].hosts[a].node.currentTerm
             || (term == r.states[j].hosts[a].node.currentTerm && j <= k)
    ensures var x, y := r.states[j].hosts[a], r.states[k].hosts[b];
            var index := x.node.commitIndex;
            index <= |x.full| && index <= |y.full| && x.full[..index] == y.full[..index]
  {
    hide EarnedRun, HistoryAt, HeldAt, HistoryOk, BallotTies, OwnHeld, EarnedInv, ValidRun, Grows, Chosen;
    var m := if j <= k then k else j;
    EarnedIsValid(r);
    CommittedFrom(r, j, m, a);
    EarnedInvAt(r, m);
    var h, held, members := HistoryAt(r, m), HeldAt(r, m), r.states[m].members;
    EarnedParts(r.states[m], h, held);
    LeaderAt(r, k, b, term);
    HistoryGrows(r, k, m);
    var x := r.states[j].hosts[a];
    CommittedStood(HistoryAt(r, k), h, held, members, x.full, x.node.commitIndex, x.node.currentTerm, term);
  }

  /** A committed prefix is in the log of the leader of a later term already when that leader stands for election. */
  lemma CommittedStood(h: History, g: History, held: set<Holding>, members: set<NodeId>, log: seq<LogEntry>, k: nat,
                       bound: Term, term: Term)
    requires Grows(h, g) && HistoryOk(g, members) && BallotTies(held, g) && OwnHeld(held, g)
    requires Committed(log, k, bound, held, members, g) && term in h.elections && term in h.leaderLogs
    requires bound < term || (bound == term && h == g)
    ensures k <= |log| && k <= |h.leaderLogs[term]| && log[..k] == h.leaderLogs[term][..k]
  {
    hide Grows, HistoryOk, BallotTies, OwnHeld, Chosen;
    LeadersLogGrows(h, g, term);
    if k > 0 {
      var t: Term, index: nat :| t <= bound && CommittedBy(log, k, t, index, held, members, g);
      ChosenIsOwn(g, members, held, t, index);
      ChosenIsShared(g, members, held, t, index, term);
      assert g.leaderLogs[term][..k] == g.leaderLogs[term][..index][..k] == g.leaderLogs[t][..index][..k]
          == g.leaderLogs[t][..k];
      if h != g {
        ChosenIsInLaterLogs(g, members, held, t, index, term);
        StoodWithIt(h, g, term, t, index);
      }
      assert h.leaderLogs[term][..k] == g.leaderLogs[term][..k];
    }
  }

  lemma LeadersLogGrows(h: History, g: History, term: Term)
    requires Grows(h, g) && term in h.elections && term in h.leaderLogs
    ensures term in g.elections && term in g.leaderLogs && h.leaderLogs[term] <= g.leaderLogs[term]
  {
  }

  /** What a leader log gains later is of its own term, so an entry of an earlier term was there before. */
  lemma StoodWithIt(h: History, g: History, term: Term, t: Term, index: nat)
    requires Grows(h, g) && term in h.leaderLogs && t < term
    requires term in g.leaderLogs && Has(g.leaderLogs[term], t, index)
    ensures index <= |h.leaderLogs[term]|
  {
  }

  // ---------- the node invariant ----------

  /** Snapshot, applied and commit index are in order. */
  ghost predicate InOrder(n: NodeState) {
    n.snapshotIndex <= n.lastApplied <= n.commitIndex <= n.LastLogIndex()
  }

  /** Term and commit index did not go back. */
  ghost predicate Forward(n: NodeState, m: NodeState) {
    n.currentTerm <= m.currentTerm && n.commitIndex <= m.commitIndex
  }

  /** No handler moves the snapshot or the applied index, and none moves the commit index back or beyond the log as long
      as the log keeps what was committed. */
  lemma HandlerKeepsOrder(n: NodeState, a: Action)
    requires a.TickAt? || a.ForceElection? || a.Deliver? || a.Propose?
    ensures var m := NodeStep(n, a).0;
            && m.snapshotIndex == n.snapshotIndex && m.lastApplied == n.lastApplied
            && (InOrder(n) && n.commitIndex <= m.LastLogIndex() ==> n.commitIndex <= m.commitIndex <= m.LastLogIndex())
  {
    hide Heartbeats, VoteRequests, Posted, DeliverTo;
    if a.Deliver? {
      DeliveryKeepsOrder(n, a.envelope.from, a.envelope.message, a.draw);
    }
  }

  lemma DeliveryKeepsOrder(n: NodeState, from: NodeId, message: RaftMessage, draw: nat)
    ensures var m := DeliverTo(n, from, message, draw).0;
            && m.snapshotIndex == n.snapshotIndex && m.lastApplied == n.lastApplied
            && (InOrder(n) && n.commitIndex <= m.LastLogIndex() ==> n.commitIndex <= m.commitIndex <= m.LastLogIndex())
  {
    hide Heartbeats, Posted, MergeFrom, AdvanceCommit, RecordSuccess, UpToDate, NodeState.LastLogTerm;
    if message.AppendReply? && n.role == Leader {
      AdvanceKeepsOrder(n, message.appendReply);
    }
  }

  lemma AdvanceKeepsOrder(n: NodeState, resp: AppendEntriesResponse)
    requires n.role == Leader
    ensures var m := AdvanceCommit(RecordSuccess(n, resp));
            && m.snapshotIndex == n.snapshotIndex && m.lastApplied == n.lastApplied
            && m.LastLogIndex() == n.LastLogIndex()
            && (InOrder(n) ==> n.commitIndex <= m.commitIndex <= m.LastLogIndex())
  {
    AdvanceCommitIsQuorumMaximum(RecordSuccess(n, resp));
  }

  lemma StepInOrder(c: Cluster, h: History, held: set<Holding>, a: Action)
    requires EarnedInv(c, h, held) && Enabled(c, a) && EarnedStep(c, held, a) && InOrder(c.hosts[a.actor].node)
    ensures var n, m := c.hosts[a.actor].node, Step(c, a).hosts[a.actor].node;
            Forward(n, m) && InOrder(m) && (!a.Restart? ==> n.lastApplied <= m.lastApplied)
  {
    hide EarnedInv, Inv, EarnedStep, NodeStep, CommitTies, Observe, HeldBy, LogTies, VoteTies, RoleTies, HistoryOk,
      HostShape, HeldInv, BallotTies, OwnHeld, RequestTies;
    var n := c.hosts[a.actor].node;
    EarnedParts(c, h, held);
    ActorCommits(c, h, held, a);
    TermsForward(n, a);
    StepKeepsInv(c, h, a);
    var g := Observe(h, a.actor, Step(c, a).hosts[a.actor]);
    ActorFacts(Step(c, a), g, a.actor);
    ShapeFacts(a.actor, Step(c, a).hosts[a.actor], c.members);
    if a.TickAt? || a.ForceElection? || a.Deliver? || a.Propose? {
      HandlerKeepsOrder(n, a);
    } else {
      LocalKeepsOrder(n, a);
    }
  }

  lemma LocalKeepsOrder(n: NodeState, a: Action)
    requires InOrder(n) && (a.ApplyCommitted? || a.Compact? || a.Restart?)
    ensures var m := NodeStep(n, a).0;
            Forward(n, m) && InOrder(m) && (!a.Restart? ==> n.lastApplied <= m.lastApplied)
  {
  }

  /** Node invariant: in every state of an earned run, the indexes of every node are in order and the terms of its log
      are non-decreasing and at most its own. */
  lemma {:induction false} NodeInvariant(r: Run, k: nat, a: NodeId)
    requires EarnedRun(r) && k < |r.states| && a in r.states[k].hosts
    ensures InOrder(r.states[k].hosts[a].node)
    ensures Sorted(r.states[k].hosts[a].full)
              && LastTermOf(r.states[k].hosts[a].full) <= r.states[k].hosts[a].node.currentTerm
  {
    hide EarnedRun, EarnedInv, Enabled, EarnedStep, HostStep, HistoryAt, HeldAt, HostShape, Traced, Sorted, ValidRun,
      Observe, HeldBy, Initial;
    EarnedIsValid(r);
    EarnedStarts(r);
    LogAt(r, k, a);
    if k == 0 {
      StartsInOrder(r.states[0], a);
    } else {
      HostsFixed(r, k - 1, k);
      NodeInvariant(r, k - 1, a);
      EarnedInvAt(r, k - 1);
      EarnedAt(r, k - 1);
      if r.actions[k - 1].actor == a {
        StepInOrder(r.states[k - 1], HistoryAt(r, k - 1), HeldAt(r, k - 1), r.actions[k - 1]);
      }
    }
  }

  lemma StartsInOrder(c: Cluster, a: NodeId)
    requires Initial(c) && a in c.hosts
    ensures InOrder(c.hosts[a].node)
  {
  }

  /** Monotonicity: term and commit index of a node never decrease, so no committed entry is ever truncated. */
  lemma {:induction false} NeverBack(r: Run, j: nat, k: nat, a: NodeId)
    requires EarnedRun(r) && j <= k < |r.states| && a in r.states[j].hosts
    ensures a in r.states[k].hosts
    ensures var x, y := r.states[j].hosts[a], r.states[k].hosts[a];
            && Forward(x.node, y.node)
            && x.node.commitIndex <= |x.full| && x.node.commitIndex <= |y.full|
            && y.full[..x.node.commitIndex] == x.full[..x.node.commitIndex]
    decreases k
  {
    hide EarnedRun, EarnedInv, Enabled, EarnedStep, HostStep, HistoryAt, HeldAt, Sorted, Observe, HeldBy;
    if j < k {
      NeverBack(r, j, k - 1, a);
      NodeInvariant(r, k - 1, a);
      EarnedInvAt(r, k - 1);
      EarnedStarts(r);
      EarnedAt(r, k - 1);
      if r.actions[k - 1].actor == a {
        StepInOrder(r.states[k - 1], HistoryAt(r, k - 1), HeldAt(r, k - 1), r.actions[k - 1]);
      }
    }
    StateMachineSafety(r, j, k, a, a);
  }

  /** A follower's commit index moves only forward, and only over entries that the request it accepts covers. */
  lemma AppendForward(r: Run, k: nat)
    requires EarnedRun(r) && k < |r.actions| && r.actions[k].Deliver? && r.actions[k].envelope.message.AppendRequest?
    ensures k + 1 < |r.states| && r.actions[k].actor in r.states[k].hosts && r.actions[k].actor in r.states[k + 1].hosts
    ensures var n, m := r.states[k].hosts[r.actions[k].actor].node, r.states[k + 1].hosts[r.actions[k].actor].node;
            var req := r.actions[k].envelope.message.append;
            m.commitIndex != n.commitIndex ==>
              && HandleAppendEntries(n, req, r.actions[k].draw).1.success
              && n.commitIndex < m.commitIndex == req.leaderCommit <= req.prevLogIndex + |req.entries|
  {
    hide EarnedRun, EarnedInv, EarnedStep, HostStep, HistoryAt, HeldAt, HandleAppendEntries, CommitTies, RequestTies,
      Observe, HeldBy;
    EarnedAt(r, k);
    EarnedInvAt(r, k);
    var c, a := r.states[k], r.actions[k];
    EarnedParts(c, HistoryAt(r, k), HeldAt(r, k));
    Covered(a.envelope, HeldAt(r, k), c.members, HistoryAt(r, k));
    if r.states[k + 1].hosts[a.actor].node.commitIndex != c.hosts[a.actor].node.commitIndex {
      AppendedFollows(c.hosts[a.actor], a);
      AppendCommits(c, HistoryAt(r, k), HeldAt(r, k), a);
    }
  }

  /** A follower commits what its leader has: in an earned run, whoever accepts a request has then committed as far as
      the leader says in it, or as far as it had before, if that is further. */
  lemma AcceptedCommits(r: Run, k: nat)
    requires EarnedRun(r) && k < |r.actions| && k + 1 < |r.states| && r.actions[k].actor in r.states[k].hosts
    requires r.actions[k].Deliver? && r.actions[k].envelope.message.AppendRequest?
    requires Fits(r.states[k].hosts[r.actions[k].actor].node, r.actions[k].envelope.message.append)
    ensures r.actions[k].actor in r.states[k + 1].hosts
    ensures var n, m := r.states[k].hosts[r.actions[k].actor].node, r.states[k + 1].hosts[r.actions[k].actor].node;
            var req := r.actions[k].envelope.message.append;
            && m.commitIndex == (if req.leaderCommit > n.commitIndex then req.leaderCommit else n.commitIndex)
            && m.commitIndex >= req.leaderCommit
            && req.prevLogIndex + |req.entries| <= LastIndex(m)
  {
    hide EarnedRun, EarnedInv, EarnedStep, HostStep, HistoryAt, HeldAt, HandleAppendEntries, CommitTies, RequestTies,
      Observe, HeldBy, Inv, HistoryOk, LogTies, VoteTies, RoleTies, HostShape, HeldInv, BallotTies, OwnHeld, Accepted;
    EarnedAt(r, k);
    EarnedInvAt(r, k);
    var c, a, h := r.states[k], r.actions[k], HistoryAt(r, k);
    var x, req := c.hosts[a.actor], a.envelope.message.append;
    EarnedParts(c, h, HeldAt(r, k));
    Covered(a.envelope, HeldAt(r, k), c.members, h);
    ActorFacts(c, h, a.actor);
    ShapeFacts(a.actor, x, c.members);
    AppendAnsweredExactly(x.node, req, a.draw);
    AppendAcross(c, h, a.actor, a.envelope, a.draw);
    AppendedHost(x, a);
    var y := HostStep(x, a).0;
    AcceptedPrefix(x.full, req, y.full, h.leaderLogs[req.term], 0);
    AppendCommitsExactly(x.node, req, a.draw);
  }

  lemma AppendedFollows(x: Host, a: Action)
    requires a.Deliver? && a.envelope.message.AppendRequest?
    requires HostStep(x, a).0.node.commitIndex != x.node.commitIndex
    ensures HostStep(x, a).0.node.role != Leader
  {
    hide HandleAppendEntries;
    FollowerCommits(x.node, a.envelope.message.append, a.draw);
    if a.envelope.message.append.term >= x.node.currentTerm { TermAfter(x.node, a.envelope.message.append, a.draw); }
  }

  /** A request reaches to the end of the sender's log, and so vouches for the commit index it carries. */
  lemma RequestVouches(n: NodeState, peer: NodeId)
    requires InOrder(n) && n.NextIndexOf(peer, 1) >= 1 && AppendEntriesFor(n, peer).Some?
    ensures var m := AppendEntriesFor(n, peer).value;
            m.prevLogIndex + |m.entries| == n.LastLogIndex() && m.leaderCommit <= m.prevLogIndex + |m.entries|
  {
  }

  /** No request in any earned run carries a commit index beyond what it covers. */
  lemma CommitsVouchedFor(r: Run, k: nat, e: Envelope)
    requires EarnedRun(r) && k < |r.states| && e in r.states[k].network && e.message.AppendRequest?
    ensures var m := e.message.append; m.leaderCommit <= m.prevLogIndex + |m.entries|
  {
    hide EarnedRun, EarnedInv, HistoryAt, HeldAt, RequestTies;
    EarnedInvAt(r, k);
    EarnedParts(r.states[k], HistoryAt(r, k), HeldAt(r, k));
    Covered(e, HeldAt(r, k), r.states[k].members, HistoryAt(r, k));
  }

  /** What the state machine of a node is handed next is the part of its full log from its applied index up to its
      commit index. */
  lemma HandedOver(r: Run, k: nat, a: NodeId)
    requires EarnedRun(r) && k < |r.states| && a in r.states[k].hosts
    ensures var x := r.states[k].hosts[a];
            var (m, entries) := TakeUnapplied(x.node);
            && x.node.lastApplied <= x.node.commitIndex <= |x.full|
            && entries == x.full[x.node.lastApplied..x.node.commitIndex]
            && m.lastApplied == x.node.commitIndex
  {
    hide EarnedRun, HistoryAt, Traced, Sorted, ValidRun, TakeUnapplied;
    EarnedIsValid(r);
    LogAt(r, k, a);
    NodeInvariant(r, k, a);
    TakesSlice(r.states[k].hosts[a].node, r.states[k].hosts[a].full);
  }

  lemma TakesSlice(n: NodeState, full: seq<LogEntry>)
    requires InOrder(n) && n.snapshotIndex <= |full| && n.log == full[n.snapshotIndex..]
    ensures n.lastApplied <= n.commitIndex <= |full|
    ensures TakeUnapplied(n) == (n.(lastApplied := n.commitIndex), full[n.lastApplied..n.commitIndex])
  {
    var s := n.snapshotIndex;
    assert n.log[n.lastApplied - s..n.commitIndex - s] == full[n.lastApplied..n.commitIndex];
  }
}
