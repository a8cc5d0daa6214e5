/** Compaction is a refinement: a node that drops committed entries answers as one that keeps its full log would,
    except that it refuses appends below its snapshot and sends nothing to followers that need entries from there. */
module Compaction {
  import opened RaftTypes
  import opened LogMerge
  import opened NodeModel
  import opened Clusters
  import opened Histories

  /** `full` restores what compaction dropped from `n`. */
  ghost predicate Restores(full: seq<LogEntry>, n: NodeState) {
    && n.snapshotIndex <= |full|
    && n.log == full[n.snapshotIndex..]
    && n.snapshotTerm == TermOf(full, n.snapshotIndex)
    && n.snapshotIndex <= n.commitIndex
    && n.snapshotIndex <= n.lastApplied
  }

  function Uncompacted(n: NodeState, full: seq<LogEntry>): NodeState {
    n.(log := full, snapshotIndex := 0, snapshotTerm := 0)
  }

  /** Match indexes may differ as long as they lie below what is committed: a new leader starts from its snapshot. */
  ghost predicate MatchesAgree(a: map<NodeId, nat>, b: map<NodeId, nat>, commit: nat) {
    && a.Keys == b.Keys
    && (forall p :: p in a ==> a[p] == b[p] || (a[p] <= commit && b[p] <= commit))
  }

  /** Node `n` with dropped entries behaves as node `r` without. */
  ghost predicate Refines(n: NodeState, full: seq<LogEntry>, r: NodeState) {
    && Restores(full, n)
    && r == Uncompacted(n, full).(matchIndex := r.matchIndex)
    && MatchesAgree(n.matchIndex, r.matchIndex, n.commitIndex)
    && (n.role == Follower ==> n.matchIndex == map[])
  }

  // ---------- reading the log ----------

  lemma SameTerms(n: NodeState, full: seq<LogEntry>, r: NodeState, index: nat)
    requires Refines(n, full, r)
    ensures n.LastLogIndex() == r.LastLogIndex() == |full|
    ensures index >= n.snapshotIndex ==> n.TermAt(index) == r.TermAt(index)
    ensures n.LastLogTerm() == r.LastLogTerm()
  {
  }

  /** Below the snapshot nothing is built; from it on the same request is. */
  lemma SameRequest(n: NodeState, full: seq<LogEntry>, r: NodeState, peer: NodeId)
    requires Refines(n, full, r)
    ensures n.NextIndexOf(peer, 1) <= n.snapshotIndex ==> AppendEntriesFor(n, peer).None?
    ensures n.NextIndexOf(peer, 1) > n.snapshotIndex ==> AppendEntriesFor(n, peer) == AppendEntriesFor(r, peer)
  {
    hide Refines, AppendEntriesFor, NodeState.TermAt, NodeState.LastLogIndex, TailFrom, NodeState.NextIndexOf;
    var next := n.NextIndexOf(peer, 1);
    SameNext(n, full, r);
    SameNextIndex(n, r, peer);
    RequestShape(n, peer, next);
    RequestShape(r, peer, next);
    if next > n.snapshotIndex {
      SameTerms(n, full, r, next - 1);
      SameTail(n, full, r, next);
    }
  }

  lemma SameNextIndex(n: NodeState, r: NodeState, peer: NodeId)
    requires n.nextIndex == r.nextIndex
    ensures n.NextIndexOf(peer, 1) == r.NextIndexOf(peer, 1)
  {
  }

  /** The entries from index `next` on. */
  function TailFrom(n: NodeState, next: nat): seq<LogEntry>
    requires next > n.snapshotIndex
  {
    if next > n.LastLogIndex() then [] else n.log[next - n.snapshotIndex - 1..]
  }

  lemma RequestShape(n: NodeState, peer: NodeId, next: nat)
    requires n.NextIndexOf(peer, 1) == next
    ensures next <= n.snapshotIndex ==> AppendEntriesFor(n, peer).None?
    ensures next > n.snapshotIndex && n.TermAt(next - 1).None? ==> AppendEntriesFor(n, peer).None?
    ensures next > n.snapshotIndex && n.TermAt(next - 1).Some? ==>
              AppendEntriesFor(n, peer) == Some(AppendEntries(n.currentTerm, n.id, next - 1, n.TermAt(next - 1).value,
                                                              TailFrom(n, next), n.commitIndex))
  {
  }

  lemma SameTail(n: NodeState, full: seq<LogEntry>, r: NodeState, next: nat)
    requires Refines(n, full, r) && next > n.snapshotIndex
    ensures r.snapshotIndex == 0 && TailFrom(n, next) == TailFrom(r, next)
  {
    SameTerms(n, full, r, 0);
  }

  /** The messages of `r`, less those to followers that are behind the snapshot of `n`. */
  function Served(n: NodeState, outbound: seq<OutboundMessage>): seq<OutboundMessage> {
    if outbound == [] then []
    else if n.NextIndexOf(outbound[0].to, 1) <= n.snapshotIndex then Served(n, outbound[1..])
    else [outbound[0]] + Served(n, outbound[1..])
  }

  lemma {:induction false} SameHeartbeats(n: NodeState, full: seq<LogEntry>, r: NodeState, peers: seq<NodeId>)
    requires Refines(n, full, r)
    ensures Heartbeats(n, peers) == Served(n, Heartbeats(r, peers))
    decreases |peers|
  {
    hide Refines, AppendEntriesFor;
    if peers != [] {
      SameRequest(n, full, r, peers[0]);
      SameHeartbeats(n, full, r, peers[1..]);
      if AppendEntriesFor(r, peers[0]).Some? {
        var first := SendAppendEntries(peers[0], AppendEntriesFor(r, peers[0]).value);
        assert ([first] + Heartbeats(r, peers[1..]))[1..] == Heartbeats(r, peers[1..]);
      }
    }
  }

  // ---------- voting ----------

  lemma SameStepDown(n: NodeState, full: seq<LogEntry>, r: NodeState, term: Term, leader: Option<NodeId>, draw: nat)
    requires Refines(n, full, r)
    ensures Refines(BecomeFollower(n, term, leader, draw), full, BecomeFollower(r, term, leader, draw))
  {
  }

  lemma SameBallot(n: NodeState, full: seq<LogEntry>, r: NodeState, req: RequestVote, draw: nat)
    requires Refines(n, full, r)
    ensures var (m, a) := CastVote(n, req, draw);
            var (s, b) := CastVote(r, req, draw);
            a == b && Refines(m, full, s)
  {
    SameTerms(n, full, r, 0);
    hide NodeState.LastLogTerm, NodeState.LastLogIndex, UpToDate;
  }

  lemma SameVote(n: NodeState, full: seq<LogEntry>, r: NodeState, req: RequestVote, draw: nat)
    requires Refines(n, full, r)
    ensures var (m, a) := HandleRequestVote(n, req, draw);
            var (s, b) := HandleRequestVote(r, req, draw);
            a == b && Refines(m, full, s)
  {
    hide CastVote, BecomeFollower;
    SameStepDown(n, full, r, req.term, None, draw);
    SameBallot(if req.term > n.currentTerm then BecomeFollower(n, req.term, None, draw) else n, full,
               if req.term > n.currentTerm then BecomeFollower(r, req.term, None, draw) else r, req, draw);
  }

  lemma SameElection(n: NodeState, full: seq<LogEntry>, r: NodeState, draw: nat)
    requires Refines(n, full, r)
    ensures var (m, a) := StartElection(n, draw);
            var (s, b) := StartElection(r, draw);
            a == b && Refines(m, full, s)
  {
    SameTerms(n, full, r, 0);
    SameTerms(Campaigning(n, draw), full, Campaigning(r, draw), 0);
    assert VoteRequests(Campaigning(n, draw), n.peers) == VoteRequests(Campaigning(r, draw), r.peers);
  }

  lemma SameTick(n: NodeState, full: seq<LogEntry>, r: NodeState, draw: nat)
    requires Refines(n, full, r)
    ensures var (m, a) := Tick(n, draw);
            var (s, b) := Tick(r, draw);
            Refines(m, full, s) && a == (if n.role == Leader then Served(m, b) else b)
  {
    hide Heartbeats, StartElection;
    if n.role == Leader {
      var beat := n.clock.(heartbeatElapsed := 0);
      SameHeartbeats(n.(clock := beat), full, r.(clock := beat), n.peers);
    } else {
      var later := n.clock.(electionElapsed := n.clock.electionElapsed + 1);
      SameElection(n.(clock := later), full, r.(clock := later), draw);
    }
  }

  lemma SameWin(n: NodeState, full: seq<LogEntry>, r: NodeState)
    requires Refines(n, full, r)
    ensures Refines(BecomeLeader(n), full, BecomeLeader(r))
  {
    SameTerms(n, full, r, 0);
  }

  lemma SameVoteReply(n: NodeState, full: seq<LogEntry>, r: NodeState, resp: RequestVoteResponse, draw: nat)
    requires Refines(n, full, r)
    ensures var (m, a) := HandleRequestVoteResponse(n, resp, draw);
            var (s, b) := HandleRequestVoteResponse(r, resp, draw);
            a == b && Refines(m, full, s)
  {
    hide BecomeLeader;
    if resp.term == n.currentTerm && n.role == Candidate {
      var m := if resp.voteGranted then n.(votes := n.votes + {resp.from}) else n;
      var s := if resp.voteGranted then r.(votes := r.votes + {resp.from}) else r;
      SameWin(m, full, s);
    }
  }

  // ---------- replication ----------

  /** The same change of log behind the snapshot on both sides. */
  lemma SameNewLog(n: NodeState, full: seq<LogEntry>, r: NodeState, log: seq<LogEntry>)
    requires Refines(n, full, r)
    ensures var whole := full[..n.snapshotIndex] + log; Refines(n.(log := log), whole, r.(log := whole))
  {
    var whole := full[..n.snapshotIndex] + log;
    assert whole[n.snapshotIndex..] == log;
    assert n.snapshotIndex > 0 ==> whole[n.snapshotIndex - 1] == full[n.snapshotIndex - 1];
  }

  lemma SameCommit(n: NodeState, full: seq<LogEntry>, r: NodeState, leaderCommit: nat)
    requires Refines(n, full, r) && n.role == Follower
    ensures Refines(CommitFrom(n, leaderCommit), full, CommitFrom(r, leaderCommit))
  {
    SameTerms(n, full, r, 0);
  }

  lemma SameRefusal(n: NodeState, full: seq<LogEntry>, r: NodeState, req: AppendEntries)
    requires Refines(n, full, r) && req.prevLogIndex >= n.snapshotIndex
    ensures RefusalIndex(n, req) == RefusalIndex(r, req)
  {
    SameTerms(n, full, r, req.prevLogIndex);
  }

  /** An append at or above the snapshot is answered alike and changes both logs alike. */
  lemma SameAppend(n: NodeState, full: seq<LogEntry>, r: NodeState, req: AppendEntries)
    requires Refines(n, full, r) && n.role == Follower && req.prevLogIndex >= n.snapshotIndex
    ensures var (m, a) := AppendAsFollower(n, req);
            var (s, b) := AppendAsFollower(r, req);
            a == b && Refines(m, s.log, s) && full[..n.snapshotIndex] + m.log == s.log
  {
    hide MergeFrom, RefusalIndex, CommitFrom, Refines, NodeState.LastLogIndex;
    SameNext(n, full, r);
    SameRefusal(n, full, r, req);
    SameTerms(n, full, r, req.prevLogIndex);
    if RefusalIndex(n, req).None? {
      ReachesFull(n, full, r, req);
      var log := MergeFrom(n.log, n.snapshotIndex, req.prevLogIndex + 1, req.entries);
      var whole := full[..n.snapshotIndex] + log;
      SameNewLog(n, full, r, log);
      SameCommit(n.(log := log), whole, r.(log := whole), req.leaderCommit);
      var m, s := CommitFrom(n.(log := log), req.leaderCommit), CommitFrom(r.(log := whole), req.leaderCommit);
      SameTerms(m, whole, s, 0);
      CommitKeepsLog(n.(log := log), req.leaderCommit);
      CommitKeepsLog(r.(log := whole), req.leaderCommit);
    } else {
      assert full[..n.snapshotIndex] + n.log == full by { FullAgain(n, full, r); }
    }
  }

  lemma FullAgain(n: NodeState, full: seq<LogEntry>, r: NodeState)
    requires Refines(n, full, r)
    ensures n.snapshotIndex <= |full| && full[..n.snapshotIndex] + n.log == full
  {
  }

  lemma ReachesFull(n: NodeState, full: seq<LogEntry>, r: NodeState, req: AppendEntries)
    requires Refines(n, full, r) && req.prevLogIndex >= n.snapshotIndex && RefusalIndex(n, req).None?
    ensures n.snapshotIndex <= |full|
    ensures full[..n.snapshotIndex] + MergeFrom(n.log, n.snapshotIndex, req.prevLogIndex + 1, req.entries)
         == MergeFrom(full, 0, req.prevLogIndex + 1, req.entries)
  {
    hide MergeFrom;
    MergeBehind(full, n.snapshotIndex, req.prevLogIndex, req.entries);
  }

  lemma CommitKeepsLog(n: NodeState, leaderCommit: nat)
    ensures CommitFrom(n, leaderCommit) == n.(commitIndex := CommitFrom(n, leaderCommit).commitIndex)
  {
  }

  lemma SameRecognition(n: NodeState, full: seq<LogEntry>, r: NodeState, req: AppendEntries, draw: nat)
    requires Refines(n, full, r)
    ensures Refines(Recognise(n, req, draw), full, Recognise(r, req, draw))
    ensures Recognise(n, req, draw).snapshotIndex == n.snapshotIndex
    ensures req.term >= n.currentTerm ==> Recognise(n, req, draw).role == Follower
  {
  }

  /** Appends: alike at or above the snapshot; below it the compacted node refuses, naming its snapshot, and has
      recognised the leader as the other has. */
  lemma SameAppendEntries(n: NodeState, full: seq<LogEntry>, r: NodeState, req: AppendEntries, draw: nat)
    requires Refines(n, full, r)
    ensures var (m, a) := HandleAppendEntries(n, req, draw);
            var (s, b) := HandleAppendEntries(r, req, draw);
            if req.term < n.currentTerm || req.prevLogIndex >= n.snapshotIndex then
              a == b && Refines(m, s.log, s)
            else
              && a == AppendEntriesResponse(req.term, false, n.id, n.snapshotIndex)
              && Refines(m, full, Recognise(r, req, draw))
  {
    hide AppendAsFollower, Recognise;
    SameTerms(n, full, r, 0);
    SameRecognition(n, full, r, req, draw);
    if req.term < n.currentTerm {
    } else if req.prevLogIndex >= n.snapshotIndex {
      SameAppend(Recognise(n, req, draw), full, Recognise(r, req, draw), req);
    } else {
      BelowSnapshot(n, req, draw);
    }
  }

  lemma BelowSnapshot(n: NodeState, req: AppendEntries, draw: nat)
    requires req.term >= n.currentTerm && req.prevLogIndex < n.snapshotIndex
    ensures AppendAsFollower(Recognise(n, req, draw), req)
         == (Recognise(n, req, draw), AppendEntriesResponse(req.term, false, n.id, n.snapshotIndex))
  {
  }

  lemma SameReplicas(n: NodeState, full: seq<LogEntry>, r: NodeState, index: nat)
    requires Refines(n, full, r) && index > n.commitIndex
    ensures Committable(n, index) <==> Committable(r, index)
  {
    SameTerms(n, full, r, index);
    assert n.Replicas(index) == r.Replicas(index);
  }

  lemma {:induction false} SameSearch(n: NodeState, full: seq<LogEntry>, r: NodeState, index: nat)
    requires Refines(n, full, r)
    ensures GreatestCommittable(n, index) == GreatestCommittable(r, index)
    decreases index
  {
    hide Committable;
    if index > n.commitIndex {
      SameReplicas(n, full, r, index);
      SameSearch(n, full, r, index - 1);
    }
  }

  lemma SameAdvance(n: NodeState, full: seq<LogEntry>, r: NodeState)
    requires Refines(n, full, r)
    ensures Refines(AdvanceCommit(n), full, AdvanceCommit(r))
  {
    SameTerms(n, full, r, 0);
    SameSearch(n, full, r, n.LastLogIndex());
    GreatestCommittableIsGreatest(n, n.LastLogIndex());
  }

  lemma SameAppendReply(n: NodeState, full: seq<LogEntry>, r: NodeState, resp: AppendEntriesResponse, draw: nat)
    requires Refines(n, full, r)
    ensures var (m, a) := HandleAppendEntriesResponse(n, resp, draw);
            var (s, b) := HandleAppendEntriesResponse(r, resp, draw);
            Refines(m, full, s) && a == Served(m, b)
  {
    hide AdvanceCommit, Heartbeats;
    SameTerms(n, full, r, 0);
    if resp.term == n.currentTerm && n.role == Leader {
      if resp.success {
        SameAdvance(RecordSuccess(n, resp), full, RecordSuccess(r, resp));
      } else {
        SameHeartbeats(BackOff(n, resp.from), full, BackOff(r, resp.from), [resp.from]);
      }
    }
  }

  lemma SamePush(n: NodeState, full: seq<LogEntry>, r: NodeState, command: string)
    requires Refines(n, full, r) && n.commitIndex <= |full| && n.role == Leader
    ensures var whole := full + [LogEntry(n.currentTerm, command)];
            && Refines(Pushed(n, command), whole, Pushed(r, command))
            && Pushed(r, command).log == whole && Pushed(n, command).commitIndex <= |whole|
            && Pushed(n, command).role == Leader
  {
    var whole := full + [LogEntry(n.currentTerm, command)];
    assert whole[n.snapshotIndex..] == n.log + [LogEntry(n.currentTerm, command)];
    assert n.snapshotIndex > 0 ==> whole[n.snapshotIndex - 1] == full[n.snapshotIndex - 1];
  }

  /** A leader that has written a command to its log and to its own match index. */
  function Pushed(n: NodeState, command: string): NodeState {
    var a := n.(log := n.log + [LogEntry(n.currentTerm, command)]);
    a.(matchIndex := a.matchIndex[a.id := a.LastLogIndex()])
  }

  function CommitAlone(n: NodeState): NodeState {
    if n.Majority() == 1 then CommitTo(n, n.LastLogIndex()) else n
  }

  lemma SameLoneCommit(n: NodeState, full: seq<LogEntry>, r: NodeState)
    requires Refines(n, full, r) && n.commitIndex <= |full| && n.role == Leader
    ensures Refines(CommitAlone(n), full, CommitAlone(r)) && CommitAlone(r).log == r.log
  {
    SameTerms(n, full, r, 0);
  }

  lemma ProposalInSteps(n: NodeState, command: string)
    requires n.role == Leader
    ensures var m := CommitAlone(Pushed(n, command));
            m.peers == n.peers && ProposeCommand(n, command) == Some((m, Heartbeats(m, n.peers)))
  {
    hide Heartbeats;
  }

  /** A commit index never exceeds the log in a run that keeps the node invariant. */
  lemma SameProposal(n: NodeState, full: seq<LogEntry>, r: NodeState, command: string)
    requires Refines(n, full, r) && n.role == Leader && n.commitIndex <= |full|
    ensures var (m, a) := ProposeCommand(n, command).value;
            var (s, b) := ProposeCommand(r, command).value;
            Refines(m, s.log, s) && a == Served(m, b) && s.log == full + [LogEntry(n.currentTerm, command)]
  {
    hide Heartbeats, Pushed, CommitAlone, ProposeCommand;
    ProposalInSteps(n, command);
    ProposalInSteps(r, command);
    SamePush(n, full, r, command);
    var whole := full + [LogEntry(n.currentTerm, command)];
    SameLoneCommit(Pushed(n, command), whole, Pushed(r, command));
    SameHeartbeats(CommitAlone(Pushed(n, command)), whole, CommitAlone(Pushed(r, command)), n.peers);
    hide Refines;
  }

  // ---------- applying and compacting ----------

  lemma SameEntries(n: NodeState, full: seq<LogEntry>, r: NodeState)
    requires Refines(n, full, r)
    ensures var (m, a) := TakeUnapplied(n);
            var (s, b) := TakeUnapplied(r);
            a == b && Refines(m, full, s)
  {
    SameTerms(n, full, r, 0);
    SameSlice(n, full, r);
    hide NodeState.LastLogIndex;
  }

  lemma SameSlice(n: NodeState, full: seq<LogEntry>, r: NodeState)
    requires Refines(n, full, r)
    ensures var end := Min(n.commitIndex, |full|);
            n.lastApplied < end ==>
              n.log[n.lastApplied - n.snapshotIndex..end - n.snapshotIndex] == full[n.lastApplied..end]
  {
  }

  /** Compaction itself is invisible, once everything committed is applied. */
  lemma CompactionInvisible(n: NodeState, full: seq<LogEntry>, r: NodeState)
    requires Refines(n, full, r) && n.lastApplied >= n.commitIndex
    ensures Refines(CompactCommitted(n).0, full, r)
  {
    SameTerms(n, full, r, n.commitIndex);
    if n.snapshotIndex < n.commitIndex <= |full| {
      assert n.log[n.commitIndex - n.snapshotIndex..] == full[n.commitIndex..];
    }
  }

  // ---------- all steps ----------

  /** A request that the uncompacted node would look at but the compacted one cannot. */
  predicate ReachesBelow(n: NodeState, a: Action) {
    && a.Deliver? && a.envelope.message.AppendRequest?
    && a.envelope.message.append.term >= n.currentTerm
    && a.envelope.message.append.prevLogIndex < n.snapshotIndex
  }

  /** An append that starts behind what `n` has dropped. */
  predicate StartsBelow(e: Envelope, n: NodeState) {
    e.message.AppendRequest? && e.message.append.prevLogIndex < n.snapshotIndex
  }

  /** Of the messages `all`, `n` sends those in `mine`, and leaves out only appends that start below its snapshot. */
  ghost predicate Sheds(n: NodeState, mine: set<Envelope>, all: set<Envelope>) {
    mine <= all && forall e :: e in all - mine ==> StartsBelow(e, n)
  }

  lemma {:induction false} ServedPosted(n: NodeState, full: seq<LogEntry>, r: NodeState, peers: seq<NodeId>,
                                        from: NodeId)
    requires Refines(n, full, r)
    ensures Sheds(n, Posted(from, Served(n, Heartbeats(r, peers))), Posted(from, Heartbeats(r, peers)))
    decreases |peers|
  {
    hide Refines;
    if peers != [] {
      ServedPosted(n, full, r, peers[1..], from);
      var tail := Heartbeats(r, peers[1..]);
      match AppendEntriesFor(r, peers[0])
      case None =>
      case Some(m) =>
        var first := SendAppendEntries(peers[0], m);
        assert ([first] + tail)[1..] == tail;
        SameNext(n, full, r);
        assert n.NextIndexOf(peers[0], 1) == r.NextIndexOf(peers[0], 1) && r.snapshotIndex == 0;
        hide AppendEntriesFor;
        RequestStart(r, peers[0]);
        PostedTail(from, first, tail);
        PostedTail(from, first, Served(n, tail));
    }
  }

  lemma SameNext(n: NodeState, full: seq<LogEntry>, r: NodeState)
    requires Refines(n, full, r)
    ensures n.nextIndex == r.nextIndex && r.snapshotIndex == 0 && n.role == r.role && n.peers == r.peers && n.id == r.id
    ensures n.commitIndex == r.commitIndex && r.log == full && n.currentTerm == r.currentTerm
  {
  }

  lemma RequestStart(r: NodeState, peer: NodeId)
    requires AppendEntriesFor(r, peer).Some?
    ensures AppendEntriesFor(r, peer).value.prevLogIndex + 1 == r.NextIndexOf(peer, 1)
  {
  }

  lemma PostedTail(from: NodeId, first: OutboundMessage, tail: seq<OutboundMessage>)
    requires first.SendAppendEntries?
    ensures Posted(from, [first] + tail) == {Envelope(from, first.to, AppendRequest(first.append))} + Posted(from, tail)
  {
  }

  lemma TickSheds(n: NodeState, full: seq<LogEntry>, r: NodeState, draw: nat)
    requires Refines(n, full, r)
    ensures Sheds(n, Posted(n.id, Tick(n, draw).1), Posted(n.id, Tick(r, draw).1))
  {
    hide Heartbeats, StartElection, Served, Posted, StartsBelow;
    SameTick(n, full, r, draw);
    if n.role == Leader && n.clock.heartbeatElapsed + 1 >= n.clock.heartbeatInterval {
      var beat := n.clock.(heartbeatElapsed := 0);
      ServedPosted(n.(clock := beat), full, r.(clock := beat), n.peers, n.id);
      StartsBelowAlike(n, n.(clock := beat));
    }
  }

  lemma StartsBelowAlike(n: NodeState, m: NodeState)
    requires n.snapshotIndex == m.snapshotIndex
    ensures forall e :: StartsBelow(e, n) <==> StartsBelow(e, m)
  {
  }

  lemma ReplySheds(n: NodeState, full: seq<LogEntry>, r: NodeState, resp: AppendEntriesResponse, draw: nat)
    requires Refines(n, full, r)
    ensures Sheds(n, Posted(n.id, HandleAppendEntriesResponse(n, resp, draw).1),
                  Posted(n.id, HandleAppendEntriesResponse(r, resp, draw).1))
  {
    hide AdvanceCommit, Heartbeats, Served, Posted, StartsBelow;
    SameAppendReply(n, full, r, resp, draw);
    if resp.term == n.currentTerm && n.role == Leader && !resp.success {
      SameTerms(n, full, r, 0);
      var m, s := BackOff(n, resp.from), BackOff(r, resp.from);
      ServedPosted(m, full, s, [resp.from], n.id);
      SameHeartbeats(m, full, s, [resp.from]);
      StartsBelowAlike(n, m);
    }
  }

  lemma ProposalSheds(n: NodeState, full: seq<LogEntry>, r: NodeState, command: string)
    requires Refines(n, full, r) && n.role == Leader && n.commitIndex <= |full|
    ensures Sheds(n, Posted(n.id, ProposeCommand(n, command).value.1), Posted(n.id, ProposeCommand(r, command).value.1))
  {
    hide Heartbeats, Served, Posted, StartsBelow, Refines;
    SameProposal(n, full, r, command);
    SameNext(n, full, r);
    var (m, a) := ProposeCommand(n, command).value;
    var (s, b) := ProposeCommand(r, command).value;
    ServedPosted(m, s.log, s, n.peers, n.id);
    StartsBelowAlike(n, m);
    assert b == Heartbeats(s, n.peers);
  }

  ghost predicate Alike(n: NodeState, after: (NodeState, set<Envelope>), after': (NodeState, set<Envelope>)) {
    Refines(after.0, after'.0.log, after'.0) && Sheds(n, after.1, after'.1)
  }

  lemma DeliveryRefines(n: NodeState, full: seq<LogEntry>, r: NodeState, a: Action)
    requires Refines(n, full, r) && a.Deliver? && !ReachesBelow(n, a)
    ensures Alike(n, NodeStep(n, a), NodeStep(r, a))
  {
    hide HandleRequestVote, HandleRequestVoteResponse, HandleAppendEntries, HandleAppendEntriesResponse, Posted, Served,
      StartsBelow;
    SameNext(n, full, r);
    match a.envelope.message
    case VoteRequest(req) =>
      SameVote(n, full, r, req, a.draw);
      RefinesLog(HandleRequestVote(n, req, a.draw).0, full, HandleRequestVote(r, req, a.draw).0);
    case VoteReply(resp) =>
      SameVoteReply(n, full, r, resp, a.draw);
      RefinesLog(HandleRequestVoteResponse(n, resp, a.draw).0, full, HandleRequestVoteResponse(r, resp, a.draw).0);
    case AppendRequest(req) => SameAppendEntries(n, full, r, req, a.draw);
    case AppendReply(resp) =>
      SameAppendReply(n, full, r, resp, a.draw);
      ReplySheds(n, full, r, resp, a.draw);
      RefinesLog(HandleAppendEntriesResponse(n, resp, a.draw).0, full, HandleAppendEntriesResponse(r, resp, a.draw).0);
  }

  lemma RefinesLog(n: NodeState, full: seq<LogEntry>, r: NodeState)
    requires Refines(n, full, r)
    ensures r.log == full
  {
  }

  /** Compaction is a refinement. Whatever a compacting node does, other than restart, a node that never compacts can
      do too: with the same log, vote, term and commit index, and the same messages but for appends that start below
      the snapshot. The one difference is an append that reaches below the snapshot, which it refuses. */
  lemma CompactionRefines(n: NodeState, full: seq<LogEntry>, r: NodeState, a: Action)
    requires Refines(n, full, r) && !a.Restart?
    requires n.commitIndex <= |full|
    requires a.Compact? ==> n.lastApplied >= n.commitIndex
    ensures if a.Compact? then NodeStep(n, a).1 == {} && Refines(NodeStep(n, a).0, full, r)
            else if ReachesBelow(n, a) then
              var req := a.envelope.message.append;
              && Refines(NodeStep(n, a).0, full, Recognise(r, req, a.draw))
              && NodeStep(n, a).1 == {Envelope(n.id, a.envelope.from,
                                               AppendReply(AppendEntriesResponse(req.term, false, n.id,
                                                                                 n.snapshotIndex)))}
            else Alike(n, NodeStep(n, a), NodeStep(r, a))
  {
    hide Tick, StartElection, HandleRequestVote, HandleRequestVoteResponse, HandleAppendEntries,
      HandleAppendEntriesResponse, ProposeCommand, TakeUnapplied, CompactCommitted, Recognise, Posted, Served,
        StartsBelow;
    SameNext(n, full, r);
    match a
    case TickAt(_, draw) =>
      SameTick(n, full, r, draw);
      TickSheds(n, full, r, draw);
      RefinesLog(Tick(n, draw).0, full, Tick(r, draw).0);
    case ForceElection(_, draw) =>
      SameElection(n, full, r, draw);
      RefinesLog(StartElection(n, draw).0, full, StartElection(r, draw).0);
    case Deliver(_, e, draw) =>
      if ReachesBelow(n, a) {
        SameAppendEntries(n, full, r, e.message.append, draw);
      } else {
        DeliveryRefines(n, full, r, a);
      }
    case Propose(_, command) =>
      if n.role == Leader {
        SameProposal(n, full, r, command);
        ProposalSheds(n, full, r, command);
      }
      OnlyLeadersPropose(n, command);
      OnlyLeadersPropose(r, command);
    case ApplyCommitted(_) =>
      SameEntries(n, full, r);
      RefinesLog(TakeUnapplied(n).0, full, TakeUnapplied(r).0);
    case Compact(_) => CompactionInvisible(n, full, r);
  }

  lemma OnlyLeadersPropose(n: NodeState, command: string)
    ensures ProposeCommand(n, command).Some? <==> n.role == Leader
  {
  }
}
