/** What a node has to do about its log, said about the fields of the node and of the messages alone. */
module LogHandlers {
  import opened RaftTypes
  import opened LogMerge
  import opened NodeModel
  import opened ElectionHandlers

  // ---------- what a leader sends ----------

  function NextFor(n: NodeState, peer: NodeId): nat {
    if peer in n.nextIndex then n.nextIndex[peer] else 1
  }

  /** Everything that the peer needs is still in the log. */
  predicate CanServe(n: NodeState, peer: NodeId) {
    n.snapshotIndex < NextFor(n, peer) <= LastIndex(n) + 1
  }

  /** The log from the peer's next index on. */
  function RequestTo(n: NodeState, peer: NodeId): AppendEntries
    requires CanServe(n, peer)
  {
    var prev := NextFor(n, peer) - 1;
    AppendEntries(n.currentTerm, n.id, prev, EntryTerm(n, prev), n.log[prev - n.snapshotIndex..], n.commitIndex)
  }

  /** A request is built exactly for the peers whose next index is behind the snapshot and at most one past the end. */
  lemma RequestExactly(n: NodeState, peer: NodeId)
    ensures AppendEntriesFor(n, peer) == if CanServe(n, peer) then Some(RequestTo(n, peer)) else None
  {
    ServedExactly(n, peer);
    if CanServe(n, peer) {
      hide AppendEntriesFor;
      var built, wanted := AppendEntriesFor(n, peer).value, RequestTo(n, peer);
      assert built.entries == wanted.entries;
      assert built == wanted;
    }
  }

  lemma ServedExactly(n: NodeState, peer: NodeId)
    ensures AppendEntriesFor(n, peer).Some? <==> CanServe(n, peer)
    ensures CanServe(n, peer) ==>
              var m, prev := AppendEntriesFor(n, peer).value, NextFor(n, peer) - 1;
              && m.term == n.currentTerm && m.leaderId == n.id && m.leaderCommit == n.commitIndex
              && m.prevLogIndex == prev && m.prevLogTerm == EntryTerm(n, prev)
              && m.entries == n.log[prev - n.snapshotIndex..]
  {
    var next := NextFor(n, peer);
    if next > n.snapshotIndex {
      ReadExactly(n, next - 1);
      hide EntryTerm, NodeState.TermAt;
    }
  }

  /** The requests to the peers at positions `order`. */
  ghost predicate SentInOrder(n: NodeState, peers: seq<NodeId>, order: seq<nat>, outbound: seq<OutboundMessage>) {
    && |outbound| == |order|
    && (forall a, b :: 0 <= a < b < |order| ==> order[a] < order[b])
    && (forall k: nat :: k < |peers| ==> (k in order <==> CanServe(n, peers[k])))
    && (forall a :: 0 <= a < |order| ==>
          order[a] < |peers| && CanServe(n, peers[order[a]])
          && outbound[a] == SendAppendEntries(peers[order[a]], RequestTo(n, peers[order[a]])))
  }

  lemma {:induction false} HeartbeatsConcat(n: NodeState, a: seq<NodeId>, b: seq<NodeId>)
    ensures Heartbeats(n, a + b) == Heartbeats(n, a) + Heartbeats(n, b)
    decreases |a|
  {
    hide AppendEntriesFor;
    if a == [] {
      assert a + b == b;
    } else {
      assert (a + b)[0] == a[0] && (a + b)[1..] == a[1..] + b;
      HeartbeatsConcat(n, a[1..], b);
    }
  }

  lemma HeartbeatToOne(n: NodeState, peer: NodeId)
    ensures Heartbeats(n, [peer]) == if CanServe(n, peer) then [SendAppendEntries(peer, RequestTo(n, peer))] else []
  {
    hide AppendEntriesFor, RequestTo, CanServe;
    RequestExactly(n, peer);
    assert Heartbeats(n, [peer][1..]) == [];
  }

  /** Heartbeats: one request to every peer that can be served and none to any other, in the order of the peers. */
  lemma {:induction false} HeartbeatsExactly(n: NodeState, peers: seq<NodeId>) returns (order: seq<nat>)
    ensures SentInOrder(n, peers, order, Heartbeats(n, peers))
    decreases |peers|
  {
    hide CanServe, RequestTo, Heartbeats, SentInOrder;
    if peers == [] {
      order := [];
      NothingToSend(n);
    } else {
      var front, last := peers[..|peers| - 1], peers[|peers| - 1];
      order := HeartbeatsExactly(n, front);
      assert front + [last] == peers;
      HeartbeatsConcat(n, front, [last]);
      HeartbeatToOne(n, last);
      OneMore(n, peers, order, Heartbeats(n, front));
      if CanServe(n, last) { order := order + [|peers| - 1]; }
    }
  }

  lemma NothingToSend(n: NodeState)
    ensures SentInOrder(n, [], [], Heartbeats(n, []))
  {
  }

  lemma OneMore(n: NodeState, peers: seq<NodeId>, order: seq<nat>, outbound: seq<OutboundMessage>)
    requires peers != [] && SentInOrder(n, peers[..|peers| - 1], order, outbound)
    ensures var k := |peers| - 1;
            if CanServe(n, peers[k])
            then SentInOrder(n, peers, order + [k], outbound + [SendAppendEntries(peers[k], RequestTo(n, peers[k]))])
            else SentInOrder(n, peers, order, outbound + [])
  {
    hide CanServe, RequestTo;
    var k := |peers| - 1;
    assert forall j :: 0 <= j < k ==> peers[..k][j] == peers[j];
    assert k !in order;
  }

  /** The heartbeat timer of a leader: a tick sends to the peers exactly when it fills the interval. */
  lemma HeartbeatTickExactly(n: NodeState, draw: nat)
    requires n.role == Leader
    ensures var (m, outbound) := Tick(n, draw);
            if n.clock.heartbeatElapsed + 1 >= n.clock.heartbeatInterval
            then m == n.(clock := n.clock.(heartbeatElapsed := 0))
                 && exists order :: SentInOrder(n, n.peers, order, outbound)
            else m == n.(clock := n.clock.(heartbeatElapsed := n.clock.heartbeatElapsed + 1)) && outbound == []
  {
    hide Heartbeats, SentInOrder;
    if n.clock.heartbeatElapsed + 1 >= n.clock.heartbeatInterval {
      var m := n.(clock := n.clock.(heartbeatElapsed := 0));
      var order := HeartbeatsExactly(m, n.peers);
      ClockIsNotSent(n, m, order, Heartbeats(m, n.peers));
    }
  }

  lemma ClockIsNotSent(n: NodeState, m: NodeState, order: seq<nat>, outbound: seq<OutboundMessage>)
    requires m == n.(clock := m.clock) && SentInOrder(m, n.peers, order, outbound)
    ensures SentInOrder(n, n.peers, order, outbound)
  {
    hide CanServe, RequestTo;
    forall p ensures CanServe(m, p) == CanServe(n, p) && (CanServe(n, p) ==> RequestTo(m, p) == RequestTo(n, p)) {
      SameService(n, m, p);
    }
  }

  lemma SameService(n: NodeState, m: NodeState, p: NodeId)
    requires m == n.(clock := m.clock)
    ensures CanServe(m, p) == CanServe(n, p) && (CanServe(n, p) ==> RequestTo(m, p) == RequestTo(n, p))
  {
  }

  /** A proposal is taken exactly by a leader: the entry goes to the end of its log, and out to the peers; without peers
      it is committed at once. */
  lemma ProposedExactly(n: NodeState, command: string)
    ensures ProposeCommand(n, command).Some? <==> n.role == Leader
    ensures n.role == Leader ==>
              var (m, outbound) := ProposeCommand(n, command).value;
              && m == n.(log := n.log + [LogEntry(n.currentTerm, command)],
                         matchIndex := n.matchIndex[n.id := LastIndex(n) + 1],
                         commitIndex := if n.peers == [] then LastIndex(n) + 1 else n.commitIndex)
              && exists order :: SentInOrder(m, n.peers, order, outbound)
  {
    hide Heartbeats, SentInOrder;
    if n.role == Leader {
      ProposalIs(n, command);
      hide ProposeCommand;
      var order := HeartbeatsExactly(ProposeCommand(n, command).value.0, n.peers);
    }
  }

  lemma ProposalIs(n: NodeState, command: string)
    requires n.role == Leader
    ensures var m := n.(log := n.log + [LogEntry(n.currentTerm, command)],
                        matchIndex := n.matchIndex[n.id := LastIndex(n) + 1],
                        commitIndex := if n.peers == [] then LastIndex(n) + 1 else n.commitIndex);
            ProposeCommand(n, command) == Some((m, Heartbeats(m, n.peers)))
  {
    hide Heartbeats;
  }

  // ---------- what a follower does with a request ----------

  /** The request is of this term or a later one, and its previous entry is in the log or is the snapshot. */
  predicate Fits(n: NodeState, req: AppendEntries) {
    && req.term >= n.currentTerm
    && n.snapshotIndex <= req.prevLogIndex <= LastIndex(n)
    && (req.prevLogIndex > 0 ==> EntryTerm(n, req.prevLogIndex) == req.prevLogTerm)
  }

  /** A request is accepted exactly if it fits. The answer names the end of the log, or the place to look at. */
  lemma AppendAnsweredExactly(n: NodeState, req: AppendEntries, draw: nat)
    ensures var (m, resp) := HandleAppendEntries(n, req, draw);
            && (resp.success <==> Fits(n, req))
            && resp.from == n.id
            && resp.term == (if req.term > n.currentTerm then req.term else n.currentTerm)
            && resp.matchIndex == if resp.success then LastIndex(m)
                                  else if req.term < n.currentTerm then LastIndex(n)
                                  else if req.prevLogIndex < n.snapshotIndex then n.snapshotIndex
                                  else if req.prevLogIndex > LastIndex(n) then LastIndex(n)
                                  else req.prevLogIndex - 1
  {
    hide MergeFrom;
  }

  /** What any request of this term or a later one makes of the node, and that a request of an earlier term makes
      nothing: the sender is recognised as leader, and only acceptance touches log and commit index. */
  lemma LeaderRecognisedExactly(n: NodeState, req: AppendEntries, draw: nat)
    ensures var (m, resp) := HandleAppendEntries(n, req, draw);
            && (req.term < n.currentTerm ==> m == n)
            && (req.term >= n.currentTerm ==>
                  var joins := req.term > n.currentTerm || n.role != Follower;
                  && m.currentTerm == req.term && m.role == Follower && m.leaderId == Some(req.leaderId)
                  && m.votedFor == (if joins then None else n.votedFor) && m.votes == (if joins then {} else n.votes)
                  && m.nextIndex == (if joins then map[] else n.nextIndex)
                  && m.matchIndex == (if joins then map[] else n.matchIndex)
                  && m.clock.electionElapsed == 0
                  && m.clock == (if joins then n.clock.(electionElapsed := 0, heartbeatElapsed := 0,
                                                        electionTimeout := draw)
                                 else n.clock.(electionElapsed := 0))
                  && KeepsLog(n, m.(log := n.log, commitIndex := n.commitIndex)))
            && (!resp.success ==> KeepsLog(n, m))
  {
    hide MergeFrom;
  }

  /** What acceptance makes of the log: everything up to the first entry that conflicts stays, and the request takes
      over from there; without a conflict all stays, also what is behind the request. */
  lemma AppendMergedExactly(n: NodeState, req: AppendEntries, draw: nat) returns (j: nat)
    requires Fits(n, req)
    ensures FirstConflict(n.log, req.prevLogIndex - n.snapshotIndex, req.entries, j)
    ensures HandleAppendEntries(n, req, draw).0.log
         == (if j == |req.entries| then n.log
             else n.log[..req.prevLogIndex - n.snapshotIndex + j] + req.entries[j..])
  {
    hide MergeFrom;
    j := MergeOverwrites(n.log, n.snapshotIndex, req.prevLogIndex, req.entries);
  }

  /** What acceptance makes of the commit index: it goes to that of the leader as far as the log reaches, if that is
      further than it was. */
  lemma AppendCommitsExactly(n: NodeState, req: AppendEntries, draw: nat)
    requires Fits(n, req) && n.snapshotIndex <= n.commitIndex
    ensures var m := HandleAppendEntries(n, req, draw).0;
            && (req.leaderCommit <= n.commitIndex ==> m.commitIndex == n.commitIndex)
            && (req.leaderCommit > n.commitIndex ==> m.commitIndex == Min(req.leaderCommit, LastIndex(m)))
  {
    hide MergeFrom;
  }

  /** The commit index is the greater of what it was and what the request says and the log covers, if and only if the
      request does not both cut the log below it and ask for more. */
  lemma AppendCommitsGreater(n: NodeState, req: AppendEntries, draw: nat)
    requires Fits(n, req) && n.snapshotIndex <= n.commitIndex
    ensures var m := HandleAppendEntries(n, req, draw).0;
            var asked := Min(req.leaderCommit, LastIndex(m));
            m.commitIndex == (if asked > n.commitIndex then asked else n.commitIndex)
            <==> req.leaderCommit <= n.commitIndex || n.commitIndex <= LastIndex(m)
  {
    hide HandleAppendEntries;
    AppendCommitsExactly(n, req, draw);
  }

  /** So taken alone the handler can move a commit index back: a node that has committed two entries accepts a request
      that replaces the first and claims three. In earned runs that does not happen. */
  lemma CommitCanFall() returns (n: NodeState, req: AppendEntries)
    ensures Fits(n, req) && n.snapshotIndex <= n.commitIndex <= LastIndex(n)
    ensures forall draw :: HandleAppendEntries(n, req, draw).0.commitIndex < n.commitIndex
  {
    n := Fresh(1, [2, 3], Clock(0, 20, 40, 20, 0, 4)).(currentTerm := 1, commitIndex := 2,
                                                       log := [LogEntry(1, ""), LogEntry(1, "")]);
    req := AppendEntries(2, 2, 0, 0, [LogEntry(2, "")], 3);
    forall draw ensures HandleAppendEntries(n, req, draw).0.commitIndex < n.commitIndex {
      hide HandleAppendEntries;
      var j := AppendMergedExactly(n, req, draw);
      assert j == 0;
      LeaderRecognisedExactly(n, req, draw);
      AppendCommitsExactly(n, req, draw);
    }
  }

  // ---------- what a leader does with an answer ----------

  /** The leader may commit `index` by counting: it is behind the commit index, of the leader's term, and recorded for
      more than half of the cluster. */
  ghost predicate Counted(n: NodeState, index: nat) {
    && n.snapshotIndex <= index && n.commitIndex < index <= LastIndex(n)
    && EntryTerm(n, index) == n.currentTerm
    && MoreThanHalf(n, set p | p in n.matchIndex && n.matchIndex[p] >= index)
  }

  lemma CountedIsCommittable(n: NodeState, index: nat)
    ensures Committable(n, index) <==> Counted(n, index)
  {
    var p := set p | p in n.matchIndex && n.matchIndex[p] >= index;
    assert n.Replicas(index) == p;
    MajorityExactly(n, p);
  }

  /** The node with one peer's indexes replaced. */
  function WithIndexes(n: NodeState, peer: NodeId, matched: nat): NodeState {
    n.(matchIndex := n.matchIndex[peer := matched], nextIndex := n.nextIndex[peer := matched + 1])
  }

  /** A success: the peer has all up to the index it reports and is served from behind it, no other peer is touched, and
      the greatest index that is then counted, if there is one, is committed. Nothing is sent. */
  lemma SuccessRecordedExactly(n: NodeState, resp: AppendEntriesResponse, draw: nat)
    requires n.role == Leader && resp.term == n.currentTerm && resp.success
    ensures var (m, outbound) := HandleAppendEntriesResponse(n, resp, draw);
            var recorded := WithIndexes(n, resp.from, resp.matchIndex);
            && m == recorded.(commitIndex := m.commitIndex) && outbound == []
            && (m.commitIndex == n.commitIndex || Counted(recorded, m.commitIndex))
            && (forall i: nat :: i > m.commitIndex ==> !Counted(recorded, i))
            && m.commitIndex >= n.commitIndex
  {
    hide AdvanceCommit, Committable, Counted;
    var recorded := WithIndexes(n, resp.from, resp.matchIndex);
    AdvanceCommitIsQuorumMaximum(recorded);
    CountedIsCommittable(recorded, AdvanceCommit(recorded).commitIndex);
    forall i: nat | i > AdvanceCommit(recorded).commitIndex ensures !Counted(recorded, i) {
      CountedIsCommittable(recorded, i);
    }
  }

  /** After a success the next request to the peer starts right behind what it has reported, as long as that is in the
      log, and brings all that is left. */
  lemma SuccessMovesOn(n: NodeState, resp: AppendEntriesResponse, draw: nat)
    requires n.role == Leader && resp.term == n.currentTerm && resp.success
    ensures var m := HandleAppendEntriesResponse(n, resp, draw).0;
            && resp.from in m.nextIndex && m.nextIndex[resp.from] == resp.matchIndex + 1
            && (forall p :: p != resp.from ==>
                  && (p in m.nextIndex <==> p in n.nextIndex) && (p in m.matchIndex <==> p in n.matchIndex)
                  && (p in n.nextIndex ==> m.nextIndex[p] == n.nextIndex[p])
                  && (p in n.matchIndex ==> m.matchIndex[p] == n.matchIndex[p]))
            && (AppendEntriesFor(m, resp.from).Some? <==> n.snapshotIndex <= resp.matchIndex <= LastIndex(n))
            && (AppendEntriesFor(m, resp.from).Some? ==>
                  var req := AppendEntriesFor(m, resp.from).value;
                  && req.prevLogIndex == resp.matchIndex && req.prevLogTerm == EntryTerm(n, resp.matchIndex)
                  && req.entries == n.log[resp.matchIndex - n.snapshotIndex..])
  {
    hide HandleAppendEntriesResponse, AppendEntriesFor;
    SuccessRecordedExactly(n, resp, draw);
    RequestExactly(HandleAppendEntriesResponse(n, resp, draw).0, resp.from);
  }

  /** A refusal: the peer is asked one entry earlier, and at once, if it can be served. */
  lemma RefusalRetriedExactly(n: NodeState, resp: AppendEntriesResponse, draw: nat)
    requires n.role == Leader && resp.term == n.currentTerm && !resp.success
    ensures var (m, outbound) := HandleAppendEntriesResponse(n, resp, draw);
            var next := if resp.from in n.nextIndex then n.nextIndex[resp.from] else LastIndex(n) + 1;
            && m == n.(nextIndex := n.nextIndex[resp.from := if next >= 2 then next - 1 else 1])
            && outbound
               == if CanServe(m, resp.from) then [SendAppendEntries(resp.from, RequestTo(m, resp.from))] else []
  {
    hide Heartbeats, CanServe, RequestTo;
    HeartbeatToOne(HandleAppendEntriesResponse(n, resp, draw).0, resp.from);
  }

  /** An answer of a later term makes a follower of the node, and any other answer that a leader of its term does not
      expect makes nothing. */
  lemma StrayAnswerExactly(n: NodeState, resp: AppendEntriesResponse, draw: nat)
    requires n.role != Leader || resp.term != n.currentTerm
    ensures var (m, outbound) := HandleAppendEntriesResponse(n, resp, draw);
            && outbound == []
            && (if resp.term > n.currentTerm then SteppedDown(n, m, resp.term, draw) else m == n)
  {
  }

  // ---------- applying, compacting, restoring ----------

  /** Indexes and terms are read where the log is, behind the snapshot. */
  lemma ReadExactly(n: NodeState, index: nat)
    ensures n.OffsetForIndex(index)
         == if n.snapshotIndex < index <= LastIndex(n) then Some(index - n.snapshotIndex - 1) else None
    ensures n.TermAt(index)
         == if n.snapshotIndex <= index <= LastIndex(n) then Some(EntryTerm(n, index)) else None
  {
  }

  /** What is handed over is exactly the log behind what was applied and behind the snapshot, up to the commit index and
      the end of the log, each entry at its place; and it then counts as applied. */
  lemma TakenExactly(n: NodeState)
    ensures var (m, entries) := TakeUnapplied(n);
            var from := if n.lastApplied < n.snapshotIndex then n.snapshotIndex else n.lastApplied;
            var to := if n.commitIndex <= LastIndex(n) then n.commitIndex else LastIndex(n);
            && m == n.(lastApplied := if from < to then to else from)
            && |entries| == m.lastApplied - from
            && (forall k :: 0 <= k < |entries| ==>
                  entries[k] == n.log[from - n.snapshotIndex + k])
  {
  }

  /** A node compacts exactly if it has committed entries behind its snapshot. These go, and the last of them
      becomes the snapshot. */
  lemma CompactedExactly(n: NodeState)
    ensures var (m, compacted) := CompactCommitted(n);
            && (compacted <==> n.snapshotIndex < n.commitIndex <= LastIndex(n))
            && (!compacted ==> m == n)
            && (compacted ==>
                  && m == n.(log := m.log, snapshotIndex := n.commitIndex, snapshotTerm := m.snapshotTerm,
                             lastApplied := if n.lastApplied < n.commitIndex then n.commitIndex else n.lastApplied)
                  && LastIndex(m) == LastIndex(n)
                  && m.log == n.log[n.commitIndex - n.snapshotIndex..]
                  && m.snapshotTerm == EntryTerm(n, n.commitIndex))
  {
  }

  /** A restored node is a follower with what was stored, of which it has applied the snapshot and trusts the commit
      index as far as the log reaches. */
  lemma RestoredExactly(n: NodeState, term: Term, votedFor: Option<NodeId>, log: seq<LogEntry>, commitIndex: nat,
                        includedIndex: nat, includedTerm: Term)
    ensures var m := RestoreFromStorage(n, term, votedFor, log, commitIndex, includedIndex, includedTerm);
            && m.id == n.id && m.peers == n.peers && m.currentTerm == term && m.votedFor == votedFor
            && m.log == log && m.snapshotIndex == includedIndex && m.snapshotTerm == includedTerm
            && m.role == Follower && m.leaderId.None? && m.votes == {} && m.nextIndex == map[] && m.matchIndex == map[]
            && m.clock == n.clock.(electionElapsed := 0, heartbeatElapsed := 0)
            && m.lastApplied == includedIndex
            && includedIndex <= m.commitIndex <= includedIndex + |log|
            && (includedIndex <= commitIndex <= includedIndex + |log| ==> m.commitIndex == commitIndex)
            && (commitIndex < includedIndex ==> m.commitIndex == includedIndex)
            && (commitIndex > includedIndex + |log| ==> m.commitIndex == includedIndex + |log|)
  {
  }
}
