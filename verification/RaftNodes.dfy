/** The node as an object that its handlers update in place. Every method leaves exactly the state, and returns exactly
    the messages, that the model of the handler gives for the state before the call. */
module RaftNodes {
  import opened RaftTypes
  import opened LogMerge
  import opened NodeModel

  // ---------- one step of the loops over the peers ----------

  lemma NextPeer(m: map<NodeId, nat>, peers: seq<NodeId>, k: nat, index: nat)
    requires k < |peers|
    ensures SetAll(m, peers[k..], index) == SetAll(m[peers[k] := index], peers[k + 1..], index)
  {
    assert peers[k..][0] == peers[k] && peers[k..][1..] == peers[k + 1..];
  }

  lemma NoPeers(m: map<NodeId, nat>, index: nat)
    ensures SetAll(m, [], index) == m
  {
  }

  lemma NextHeartbeat(n: NodeState, peers: seq<NodeId>, k: nat)
    requires k < |peers|
    ensures Heartbeats(n, peers[k..])
         == (match AppendEntriesFor(n, peers[k])
             case None => []
             case Some(m) => [SendAppendEntries(peers[k], m)]) + Heartbeats(n, peers[k + 1..])
  {
    hide AppendEntriesFor;
    assert peers[k..][0] == peers[k] && peers[k..][1..] == peers[k + 1..];
  }

  lemma NoneAfter(n: NodeState)
    ensures Heartbeats(n, []) == []
  {
  }

  class RaftNode {
    const id: NodeId
    const peers: seq<NodeId>
    var currentTerm: Term
    var votedFor: Option<NodeId>
    var log: seq<LogEntry>
    var snapshotIndex: nat
    var snapshotTerm: Term
    var commitIndex: nat
    var lastApplied: nat
    var role: Role
    var leaderId: Option<NodeId>
    var leaderNextIndex: map<NodeId, nat>
    var leaderMatchIndex: map<NodeId, nat>
    var votesReceived: set<NodeId>
    var electionElapsed: nat
    const electionTimeoutMin: nat
    const electionTimeoutMax: nat
    var currentElectionTimeout: nat
    var heartbeatElapsed: nat
    const heartbeatInterval: nat

    constructor (id: NodeId, peers: seq<NodeId>, timeoutMin: nat, timeoutMax: nat, interval: nat, draw: nat)
      requires 0 < timeoutMin <= draw <= timeoutMax
      ensures View() == Fresh(id, peers, Clock(0, timeoutMin, timeoutMax, draw, 0, interval))
    {
      this.id, this.peers := id, peers;
      currentTerm, votedFor, log := 0, None, [];
      snapshotIndex, snapshotTerm, commitIndex, lastApplied := 0, 0, 0, 0;
      role, leaderId := Follower, None;
      leaderNextIndex, leaderMatchIndex, votesReceived := map[], map[], {};
      electionTimeoutMin, electionTimeoutMax, heartbeatInterval := timeoutMin, timeoutMax, interval;
      electionElapsed, currentElectionTimeout, heartbeatElapsed := 0, draw, 0;
    }

    function View(): NodeState
      reads this
    {
      NodeState(id, peers, currentTerm, votedFor, log, snapshotIndex, snapshotTerm, commitIndex, lastApplied, role,
                leaderId, leaderNextIndex, leaderMatchIndex, votesReceived,
                Clock(electionElapsed, electionTimeoutMin, electionTimeoutMax, currentElectionTimeout,
                      heartbeatElapsed, heartbeatInterval))
    }

    function Majority(): nat {
      (|peers| + 1) / 2 + 1
    }

    function LastLogIndex(): nat
      reads this
    {
      snapshotIndex + |log|
    }

    function OffsetForIndex(index: nat): (r: Option<nat>)
      reads this
      ensures r.Some? ==> r.value < |log| && index == snapshotIndex + 1 + r.value
      ensures r.None? ==> index <= snapshotIndex || index > LastLogIndex()
    {
      if index <= snapshotIndex then None
      else
        var offset := index - snapshotIndex - 1;
        if offset < |log| then Some(offset) else None
    }

    function TermAt(index: nat): (r: Option<Term>)
      reads this
      ensures r == View().TermAt(index)
    {
      if index == snapshotIndex then Some(snapshotTerm)
      else
        match OffsetForIndex(index)
        case None => None
        case Some(offset) => Some(log[offset].term)
    }

    // ---------- changing roles ----------

    /** What stepping down and restoring have in common: nothing of an election or of leading survives. */
    method ClearRole()
      modifies this
      ensures View() == Cleared(old(View()))
    {
      role := Follower;
      votesReceived := {};
      leaderNextIndex := map[];
      leaderMatchIndex := map[];
      electionElapsed := 0;
      heartbeatElapsed := 0;
    }

    method BecomeFollower(term: Term, leader: Option<NodeId>, draw: nat)
      requires electionTimeoutMin <= draw <= electionTimeoutMax
      modifies this
      ensures View() == NodeModel.BecomeFollower(old(View()), term, leader, draw)
    {
      ClearRole();
      currentTerm := term;
      votedFor := None;
      currentElectionTimeout := draw;
      leaderId := leader;
    }

    /** A leader's first guess at what each follower has. */
    method TrackPeers()
      modifies this`leaderNextIndex, this`leaderMatchIndex
      ensures leaderNextIndex == SetAll(map[], peers, LastLogIndex() + 1)
      ensures leaderMatchIndex == SetAll(map[id := LastLogIndex()], peers, snapshotIndex)
    {
      hide SetAll;
      leaderNextIndex := map[];
      leaderMatchIndex := map[id := LastLogIndex()];
      var next := LastLogIndex() + 1;
      for k := 0 to |peers|
        invariant SetAll(leaderNextIndex, peers[k..], next) == SetAll(map[], peers, next)
        invariant SetAll(leaderMatchIndex, peers[k..], snapshotIndex)
               == SetAll(map[id := next - 1], peers, snapshotIndex)
      {
        NextPeer(leaderNextIndex, peers, k, next);
        NextPeer(leaderMatchIndex, peers, k, snapshotIndex);
        leaderNextIndex := leaderNextIndex[peers[k] := next];
        leaderMatchIndex := leaderMatchIndex[peers[k] := snapshotIndex];
      }
      assert peers[|peers|..] == [];
      NoPeers(leaderNextIndex, next);
      NoPeers(leaderMatchIndex, snapshotIndex);
    }

    method BecomeLeader()
      modifies this
      ensures View() == NodeModel.BecomeLeader(old(View()))
    {
      hide SetAll;
      role := Leader;
      leaderId := Some(id);
      heartbeatElapsed := 0;
      TrackPeers();
    }

    // ---------- building messages ----------

    method BuildAppendEntriesForPeer(peer: NodeId) returns (message: Option<AppendEntries>)
      ensures message == AppendEntriesFor(View(), peer)
    {
      var next := if peer in leaderNextIndex then leaderNextIndex[peer] else 1;
      if next <= snapshotIndex {
        return None;
      }
      var prev := if next == 0 then 0 else next - 1;
      var prevTerm := TermAt(prev);
      if prevTerm.None? {
        return None;
      }
      var entries := [];
      if !(next == 0 || next > LastLogIndex()) {
        var offset := OffsetForIndex(next);
        if offset.None? {
          return None;
        }
        entries := log[offset.value..];
      }
      return Some(AppendEntries(currentTerm, id, prev, prevTerm.value, entries, commitIndex));
    }

    method BuildHeartbeatMessages() returns (messages: seq<OutboundMessage>)
      ensures messages == Heartbeats(View(), peers)
    {
      hide Heartbeats, AppendEntriesFor;
      messages := [];
      NoneAfter(View());
      for k := 0 to |peers|
        invariant messages + Heartbeats(View(), peers[k..]) == Heartbeats(View(), peers)
      {
        NextHeartbeat(View(), peers, k);
        var message := BuildAppendEntriesForPeer(peers[k]);
        if message.Some? {
          messages := messages + [SendAppendEntries(peers[k], message.value)];
        }
      }
      assert peers[|peers|..] == [];
    }

    // ---------- timers and elections ----------

    method Tick(draw: nat) returns (messages: seq<OutboundMessage>)
      requires electionTimeoutMin <= draw <= electionTimeoutMax
      modifies this
      ensures (View(), messages) == NodeModel.Tick(old(View()), draw)
    {
      messages := [];
      if role == Leader {
        heartbeatElapsed := heartbeatElapsed + 1;
        if heartbeatElapsed >= heartbeatInterval {
          heartbeatElapsed := 0;
          messages := BuildHeartbeatMessages();
        }
      } else {
        electionElapsed := electionElapsed + 1;
        if electionElapsed >= currentElectionTimeout {
          messages := StartElection(draw);
        }
      }
    }

    /** A candidate for the next term, with its own vote. */
    method BecomeCandidate(draw: nat)
      requires electionTimeoutMin <= draw <= electionTimeoutMax
      modifies this
      ensures View() == Campaigning(old(View()), draw)
    {
      EnterNextTerm();
      electionElapsed := 0;
      currentElectionTimeout := draw;
      votesReceived := {id};
    }

    method EnterNextTerm()
      modifies this`role, this`currentTerm, this`votedFor, this`leaderId
      ensures role == Candidate && currentTerm == old(currentTerm) + 1 && votedFor == Some(id) && leaderId == None
    {
      role := Candidate;
      currentTerm := currentTerm + 1;
      votedFor := Some(id);
      leaderId := None;
    }

    method StartElection(draw: nat) returns (messages: seq<OutboundMessage>)
      requires electionTimeoutMin <= draw <= electionTimeoutMax
      modifies this
      ensures (View(), messages) == NodeModel.StartElection(old(View()), draw)
    {
      hide VoteRequests;
      BecomeCandidate(draw);
      messages := BuildVoteRequests();
    }

    method BuildVoteRequests() returns (messages: seq<OutboundMessage>)
      ensures messages == VoteRequests(View(), peers)
    {
      messages := [];
      var last := LastLogIndex();
      var lastTerm := TermAt(last).value;
      assert last == View().LastLogIndex() && lastTerm == View().LastLogTerm();
      for k := 0 to |peers|
        invariant |messages| == k
        invariant forall j :: 0 <= j < k ==>
                    messages[j] == SendRequestVote(peers[j], RequestVote(currentTerm, id, last, lastTerm))
      {
        messages := messages + [SendRequestVote(peers[k], RequestVote(currentTerm, id, last, lastTerm))];
      }
    }

    method HandleRequestVote(req: RequestVote, draw: nat) returns (resp: RequestVoteResponse)
      requires electionTimeoutMin <= draw <= electionTimeoutMax
      modifies this
      ensures (View(), resp) == NodeModel.HandleRequestVote(old(View()), req, draw)
    {
      if req.term < currentTerm {
        return RequestVoteResponse(currentTerm, false, id);
      }
      if req.term > currentTerm {
        BecomeFollower(req.term, None, draw);
      }
      var myLastIndex := LastLogIndex();
      var myLastTerm := TermAt(myLastIndex).value;
      var upToDate := req.lastLogTerm > myLastTerm
                      || (req.lastLogTerm == myLastTerm && req.lastLogIndex >= myLastIndex);
      var canVote := votedFor.None? || votedFor == Some(req.candidateId);
      var grant := canVote && upToDate;
      if grant {
        votedFor := Some(req.candidateId);
        electionElapsed := 0;
        currentElectionTimeout := draw;
      }
      return RequestVoteResponse(currentTerm, grant, id);
    }

    method HandleRequestVoteResponse(resp: RequestVoteResponse, draw: nat) returns (elected: bool)
      requires electionTimeoutMin <= draw <= electionTimeoutMax
      modifies this
      ensures (View(), elected) == NodeModel.HandleRequestVoteResponse(old(View()), resp, draw)
    {
      if resp.term > currentTerm {
        BecomeFollower(resp.term, None, draw);
        return false;
      }
      if role != Candidate || resp.term != currentTerm {
        return false;
      }
      if resp.voteGranted {
        votesReceived := votesReceived + {resp.from};
      }
      if |votesReceived| >= Majority() {
        BecomeLeader();
        return true;
      }
      return false;
    }

    // ---------- replication ----------

    method CommitTo(index: nat)
      modifies this`commitIndex
      ensures View() == NodeModel.CommitTo(old(View()), index)
    {
      commitIndex := Clamp(index, snapshotIndex, LastLogIndex());
    }

    /** The merge loop of an accepted request. */
    method MergeEntries(prevLogIndex: nat, entries: seq<LogEntry>)
      modifies this`log
      ensures log == MergeFrom(old(log), snapshotIndex, prevLogIndex + 1, entries)
    {
      var insertAt := prevLogIndex + 1;
      for k := 0 to |entries|
        invariant insertAt == prevLogIndex + 1 + k
        invariant MergeFrom(log, snapshotIndex, insertAt, entries[k..])
               == MergeFrom(old(log), snapshotIndex, prevLogIndex + 1, entries)
      {
        assert entries[k..][0] == entries[k] && entries[k..][1..] == entries[k + 1..];
        if insertAt <= snapshotIndex {
          insertAt := insertAt + 1;
          continue;
        }
        var offset := OffsetForIndex(insertAt);
        if offset.Some? {
          if log[offset.value].term != entries[k].term {
            log := log[..offset.value];
            log := log + [entries[k]];
          }
        } else {
          log := log + [entries[k]];
        }
        insertAt := insertAt + 1;
      }
    }

    method HandleAppendEntries(req: AppendEntries, draw: nat) returns (resp: AppendEntriesResponse)
      requires electionTimeoutMin <= draw <= electionTimeoutMax
      modifies this
      ensures (View(), resp) == NodeModel.HandleAppendEntries(old(View()), req, draw)
    {
      hide MergeFrom, NodeModel.BecomeFollower;
      if req.term < currentTerm {
        return AppendEntriesResponse(currentTerm, false, id, LastLogIndex());
      }
      if req.term > currentTerm || role != Follower {
        BecomeFollower(req.term, Some(req.leaderId), draw);
      }
      leaderId := Some(req.leaderId);
      electionElapsed := 0;
      if req.prevLogIndex < snapshotIndex {
        return AppendEntriesResponse(currentTerm, false, id, snapshotIndex);
      }
      if req.prevLogIndex > LastLogIndex() {
        return AppendEntriesResponse(currentTerm, false, id, LastLogIndex());
      }
      if req.prevLogIndex > 0 {
        if TermAt(req.prevLogIndex) != Some(req.prevLogTerm) {
          return AppendEntriesResponse(currentTerm, false, id, req.prevLogIndex - 1);
        }
      }
      MergeEntries(req.prevLogIndex, req.entries);
      if req.leaderCommit > commitIndex {
        CommitTo(Min(req.leaderCommit, LastLogIndex()));
      }
      return AppendEntriesResponse(currentTerm, true, id, LastLogIndex());
    }

    /** Downward search for an index of the current term that a majority has reached. */
    method TryAdvanceCommitIndex()
      modifies this`commitIndex
      ensures View() == AdvanceCommit(old(View()))
    {
      if role != Leader {
        return;
      }
      var index: nat := LastLogIndex();
      while index > commitIndex
        invariant View() == old(View()) && index <= LastLogIndex()
        invariant GreatestCommittable(View(), LastLogIndex()) == GreatestCommittable(View(), index)
      {
        if TermAt(index) != Some(currentTerm) {
          index := index - 1;
          continue;
        }
        var replicated := |View().Replicas(index)|;
        if replicated >= Majority() {
          CommitTo(index);
          break;
        }
        index := index - 1;
      }
    }

    method HandleAppendEntriesResponse(resp: AppendEntriesResponse, draw: nat) returns (messages: seq<OutboundMessage>)
      requires electionTimeoutMin <= draw <= electionTimeoutMax
      modifies this
      ensures (View(), messages) == NodeModel.HandleAppendEntriesResponse(old(View()), resp, draw)
    {
      messages := [];
      if resp.term > currentTerm {
        BecomeFollower(resp.term, None, draw);
        return;
      }
      if role != Leader || resp.term != currentTerm {
        return;
      }
      if resp.success {
        leaderMatchIndex := leaderMatchIndex[resp.from := resp.matchIndex];
        leaderNextIndex := leaderNextIndex[resp.from := resp.matchIndex + 1];
        TryAdvanceCommitIndex();
        return;
      }
      var currentNext := if resp.from in leaderNextIndex then leaderNextIndex[resp.from] else LastLogIndex() + 1;
      var newNext := if currentNext <= 1 then 1 else currentNext - 1;
      leaderNextIndex := leaderNextIndex[resp.from := newNext];
      var message := BuildAppendEntriesForPeer(resp.from);
      if message.Some? {
        messages := [SendAppendEntries(resp.from, message.value)];
      }
      assert [resp.from][1..] == [];
      assert messages == Heartbeats(View(), [resp.from]);
    }

    method ProposeCommand(command: string) returns (messages: Option<seq<OutboundMessage>>)
      modifies this
      ensures match NodeModel.ProposeCommand(old(View()), command)
              case None => messages == None && View() == old(View())
              case Some((m, outbound)) => messages == Some(outbound) && View() == m
    {
      if role != Leader {
        return None;
      }
      log := log + [LogEntry(currentTerm, command)];
      leaderMatchIndex := leaderMatchIndex[id := LastLogIndex()];
      if Majority() == 1 {
        CommitTo(LastLogIndex());
      }
      var outbound := BuildHeartbeatMessages();
      return Some(outbound);
    }

    // ---------- applying, compacting, restoring ----------

    method TakeUnappliedEntries() returns (entries: seq<LogEntry>)
      modifies this`lastApplied
      ensures (View(), entries) == TakeUnapplied(old(View()))
    {
      if lastApplied < snapshotIndex {
        lastApplied := snapshotIndex;
      }
      var end := Min(commitIndex, LastLogIndex());
      if lastApplied >= end {
        return [];
      }
      var start := OffsetForIndex(lastApplied + 1);
      if start.None? {
        return [];
      }
      var last := OffsetForIndex(end);
      if last.None? {
        return [];
      }
      entries := log[start.value..last.value + 1];
      lastApplied := end;
    }

    method CompactCommitted() returns (compacted: bool)
      modifies this
      ensures (View(), compacted) == NodeModel.CompactCommitted(old(View()))
    {
      var target := commitIndex;
      if target <= snapshotIndex {
        return false;
      }
      var targetTerm := TermAt(target);
      if targetTerm.None? {
        return false;
      }
      var removed := Min(target - snapshotIndex, |log|);
      log := log[removed..];
      snapshotIndex := target;
      snapshotTerm := targetTerm.value;
      if lastApplied < target {
        lastApplied := target;
      }
      return true;
    }

    method RestoreFromStorage(term: Term, vote: Option<NodeId>, entries: seq<LogEntry>, commit: nat,
                              includedIndex: nat, includedTerm: Term)
      modifies this
      ensures View() == NodeModel.RestoreFromStorage(old(View()), term, vote, entries, commit, includedIndex,
                                                     includedTerm)
    {
      ClearRole();
      currentTerm := term;
      votedFor := vote;
      log := entries;
      snapshotIndex := includedIndex;
      snapshotTerm := includedTerm;
      leaderId := None;
      commitIndex := Clamp(commit, includedIndex, LastLogIndex());
      lastApplied := includedIndex;
    }
  }
}
