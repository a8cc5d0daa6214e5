/** One Raft node as a value, and what each of its handlers makes of it.

    A parameter `draw` is the election timeout that the random generator would return. */
module NodeModel {
  import opened RaftTypes
  import opened LogMerge

  /** Election and heartbeat timers, in ticks. */
  datatype Clock = Clock(
    electionElapsed: nat,
    electionTimeoutMin: nat,
    electionTimeoutMax: nat,
    electionTimeout: nat,
    heartbeatElapsed: nat,
    heartbeatInterval: nat)

  datatype NodeState = NodeState(
    id: NodeId,
    peers: seq<NodeId>,
    currentTerm: Term,
    votedFor: Option<NodeId>,
    log: seq<LogEntry>,
    snapshotIndex: nat,
    snapshotTerm: Term,
    commitIndex: nat,
    lastApplied: nat,
    role: Role,
    leaderId: Option<NodeId>,
    nextIndex: map<NodeId, nat>,
    matchIndex: map<NodeId, nat>,
    votes: set<NodeId>,
    clock: Clock)
  {
    function Majority(): nat {
      (|peers| + 1) / 2 + 1
    }

    function LastLogIndex(): nat {
      snapshotIndex + |log|
    }

    function OffsetForIndex(index: nat): Option<nat> {
      if index <= snapshotIndex then None
      else if index - snapshotIndex - 1 < |log| then Some(index - snapshotIndex - 1)
      else None
    }

    function TermAt(index: nat): Option<Term> {
      if index == snapshotIndex then Some(snapshotTerm)
      else if snapshotIndex < index <= LastLogIndex() then Some(log[index - snapshotIndex - 1].term)
      else None
    }

    /** The term of the last entry, or of the snapshot when the log is empty. */
    function LastLogTerm(): Term {
      TermAt(LastLogIndex()).value
    }

    function NextIndexOf(peer: NodeId, default: nat): nat {
      if peer in nextIndex then nextIndex[peer] else default
    }

    /** The nodes whose recorded match index reaches `index`. */
    function Replicas(index: nat): set<NodeId> {
      set p | p in matchIndex && matchIndex[p] >= index
    }
  }

  /** A node as the constructor leaves it. */
  function Fresh(id: NodeId, peers: seq<NodeId>, clock: Clock): NodeState {
    NodeState(id, peers, 0, None, [], 0, 0, 0, 0, Follower, None, map[], map[], {}, clock)
  }

  predicate DrawInRange(c: Clock, draw: nat) {
    c.electionTimeoutMin <= draw <= c.electionTimeoutMax
  }

  /** A follower without votes, followers' indexes or elapsed ticks. */
  function Cleared(n: NodeState): NodeState {
    n.(role := Follower, votes := {}, nextIndex := map[], matchIndex := map[],
       clock := n.clock.(electionElapsed := 0, heartbeatElapsed := 0))
  }

  function BecomeFollower(n: NodeState, term: Term, leader: Option<NodeId>, draw: nat): NodeState {
    var m := Cleared(n);
    m.(currentTerm := term, votedFor := None, leaderId := leader, clock := m.clock.(electionTimeout := draw))
  }

  /** The map after one insertion of `index` for each of `peers`. */
  function SetAll(m: map<NodeId, nat>, peers: seq<NodeId>, index: nat): (r: map<NodeId, nat>)
    ensures forall p :: p in r <==> p in m || p in peers
    ensures forall p :: p in r ==> r[p] == if p in peers then index else m[p]
    decreases |peers|
  {
    if peers == [] then m else SetAll(m[peers[0] := index], peers[1..], index)
  }

  function BecomeLeader(n: NodeState): NodeState {
    var last := n.LastLogIndex();
    n.(role := Leader, leaderId := Some(n.id),
       nextIndex := SetAll(map[], n.peers, last + 1),
       matchIndex := SetAll(map[n.id := last], n.peers, n.snapshotIndex),
       clock := n.clock.(heartbeatElapsed := 0))
  }

  function CommitTo(n: NodeState, index: nat): NodeState {
    n.(commitIndex := Clamp(index, n.snapshotIndex, n.LastLogIndex()))
  }

  function AppendEntriesFor(n: NodeState, peer: NodeId): Option<AppendEntries> {
    var next := n.NextIndexOf(peer, 1);
    if next <= n.snapshotIndex then None
    else
      var prev := if next == 0 then 0 else next - 1;
      match n.TermAt(prev)
      case None => None
      case Some(prevTerm) =>
        if next == 0 || next > n.LastLogIndex() then
          Some(AppendEntries(n.currentTerm, n.id, prev, prevTerm, [], n.commitIndex))
        else
          Some(AppendEntries(n.currentTerm, n.id, prev, prevTerm, n.log[next - n.snapshotIndex - 1..], n.commitIndex))
  }

  /** The heartbeats to `peers`, skipping those for which no request can be built. */
  function Heartbeats(n: NodeState, peers: seq<NodeId>): seq<OutboundMessage> {
    if peers == [] then []
    else
      match AppendEntriesFor(n, peers[0])
      case None => Heartbeats(n, peers[1..])
      case Some(m) => [SendAppendEntries(peers[0], m)] + Heartbeats(n, peers[1..])
  }

  function VoteRequests(n: NodeState, peers: seq<NodeId>): seq<OutboundMessage> {
    seq(|peers|, k requires 0 <= k < |peers| =>
      SendRequestVote(peers[k], RequestVote(n.currentTerm, n.id, n.LastLogIndex(), n.LastLogTerm())))
  }

  function Campaigning(n: NodeState, draw: nat): NodeState {
    n.(role := Candidate, currentTerm := n.currentTerm + 1, votedFor := Some(n.id), leaderId := None, votes := {n.id},
       clock := n.clock.(electionElapsed := 0, electionTimeout := draw))
  }

  function StartElection(n: NodeState, draw: nat): (NodeState, seq<OutboundMessage>) {
    var m := Campaigning(n, draw);
    (m, VoteRequests(m, m.peers))
  }

  function Tick(n: NodeState, draw: nat): (NodeState, seq<OutboundMessage>) {
    if n.role == Leader then
      var beat := n.clock.heartbeatElapsed + 1;
      if beat >= n.clock.heartbeatInterval then
        var m := n.(clock := n.clock.(heartbeatElapsed := 0));
        (m, Heartbeats(m, m.peers))
      else (n.(clock := n.clock.(heartbeatElapsed := beat)), [])
    else
      var m := n.(clock := n.clock.(electionElapsed := n.clock.electionElapsed + 1));
      if m.clock.electionElapsed >= m.clock.electionTimeout then StartElection(m, draw) else (m, [])
  }

  /** Whether a log ending in (term, index) is at least as up to date as one ending in (myTerm, myIndex). */
  predicate UpToDate(term: Term, index: nat, myTerm: Term, myIndex: nat) {
    term > myTerm || (term == myTerm && index >= myIndex)
  }

  /** The vote of a node that is already in the term of the request. */
  function CastVote(n: NodeState, req: RequestVote, draw: nat): (NodeState, RequestVoteResponse) {
    var canVote := n.votedFor.None? || n.votedFor == Some(req.candidateId);
    if canVote && UpToDate(req.lastLogTerm, req.lastLogIndex, n.LastLogTerm(), n.LastLogIndex()) then
      (n.(votedFor := Some(req.candidateId), clock := n.clock.(electionElapsed := 0, electionTimeout := draw)),
       RequestVoteResponse(n.currentTerm, true, n.id))
    else (n, RequestVoteResponse(n.currentTerm, false, n.id))
  }

  function HandleRequestVote(n: NodeState, req: RequestVote, draw: nat): (NodeState, RequestVoteResponse) {
    if req.term < n.currentTerm then (n, RequestVoteResponse(n.currentTerm, false, n.id))
    else if req.term > n.currentTerm then CastVote(BecomeFollower(n, req.term, None, draw), req, draw)
    else CastVote(n, req, draw)
  }

  function HandleRequestVoteResponse(n: NodeState, resp: RequestVoteResponse, draw: nat): (NodeState, bool) {
    if resp.term > n.currentTerm then (BecomeFollower(n, resp.term, None, draw), false)
    else if n.role != Candidate || resp.term != n.currentTerm then (n, false)
    else
      var m := if resp.voteGranted then n.(votes := n.votes + {resp.from}) else n;
      if |m.votes| >= m.Majority() then (BecomeLeader(m), true) else (m, false)
  }

  /** A node that has recognised the sender of an AppendEntries as the leader of its term. */
  function Recognise(n: NodeState, req: AppendEntries, draw: nat): NodeState {
    var m := if req.term > n.currentTerm || n.role != Follower
             then BecomeFollower(n, req.term, Some(req.leaderId), draw) else n;
    m.(leaderId := Some(req.leaderId), clock := m.clock.(electionElapsed := 0))
  }

  function CommitFrom(n: NodeState, leaderCommit: nat): NodeState {
    if leaderCommit > n.commitIndex then CommitTo(n, Min(leaderCommit, n.LastLogIndex())) else n
  }

  /** The index a follower reports when it refuses a request for its previous entry. */
  function RefusalIndex(n: NodeState, req: AppendEntries): Option<nat> {
    if req.prevLogIndex < n.snapshotIndex then Some(n.snapshotIndex)
    else if req.prevLogIndex > n.LastLogIndex() then Some(n.LastLogIndex())
    else if req.prevLogIndex > 0 && n.TermAt(req.prevLogIndex) != Some(req.prevLogTerm) then Some(req.prevLogIndex - 1)
    else None
  }

  /** The consistency check and the merge, at a follower in the term of the request. */
  function AppendAsFollower(n: NodeState, req: AppendEntries): (NodeState, AppendEntriesResponse) {
    match RefusalIndex(n, req)
    case Some(index) => (n, AppendEntriesResponse(n.currentTerm, false, n.id, index))
    case None =>
      var merged := n.(log := MergeFrom(n.log, n.snapshotIndex, req.prevLogIndex + 1, req.entries));
      var m := CommitFrom(merged, req.leaderCommit);
      (m, AppendEntriesResponse(m.currentTerm, true, m.id, m.LastLogIndex()))
  }

  function HandleAppendEntries(n: NodeState, req: AppendEntries, draw: nat): (NodeState, AppendEntriesResponse) {
    if req.term < n.currentTerm then (n, AppendEntriesResponse(n.currentTerm, false, n.id, n.LastLogIndex()))
    else AppendAsFollower(Recognise(n, req, draw), req)
  }

  /** An index a leader may commit by counting replicas. */
  predicate Committable(n: NodeState, index: nat) {
    && n.commitIndex < index <= n.LastLogIndex()
    && n.TermAt(index) == Some(n.currentTerm)
    && |n.Replicas(index)| >= n.Majority()
  }

  /** The greatest committable index up to `index`, or None. */
  function GreatestCommittable(n: NodeState, index: nat): Option<nat> {
    if index <= n.commitIndex then None
    else if Committable(n, index) then Some(index)
    else GreatestCommittable(n, index - 1)
  }

  function AdvanceCommit(n: NodeState): NodeState {
    if n.role != Leader then n
    else
      match GreatestCommittable(n, n.LastLogIndex())
      case None => n
      case Some(index) => CommitTo(n, index)
  }

  function RecordSuccess(n: NodeState, resp: AppendEntriesResponse): NodeState {
    n.(matchIndex := n.matchIndex[resp.from := resp.matchIndex],
       nextIndex := n.nextIndex[resp.from := resp.matchIndex + 1])
  }

  /** One step back for a follower that refused. */
  function BackOff(n: NodeState, peer: NodeId): NodeState {
    var current := n.NextIndexOf(peer, n.LastLogIndex() + 1);
    n.(nextIndex := n.nextIndex[peer := if current <= 1 then 1 else current - 1])
  }

  function HandleAppendEntriesResponse(n: NodeState, resp: AppendEntriesResponse, draw: nat)
    : (NodeState, seq<OutboundMessage>)
  {
    if resp.term > n.currentTerm then (BecomeFollower(n, resp.term, None, draw), [])
    else if n.role != Leader || resp.term != n.currentTerm then (n, [])
    else if resp.success then (AdvanceCommit(RecordSuccess(n, resp)), [])
    else
      var m := BackOff(n, resp.from);
      (m, Heartbeats(m, [resp.from]))
  }

  function ProposeCommand(n: NodeState, command: string): Option<(NodeState, seq<OutboundMessage>)> {
    if n.role != Leader then None
    else
      var a := n.(log := n.log + [LogEntry(n.currentTerm, command)]);
      var b := a.(matchIndex := a.matchIndex[a.id := a.LastLogIndex()]);
      var c := if b.Majority() == 1 then CommitTo(b, b.LastLogIndex()) else b;
      Some((c, Heartbeats(c, c.peers)))
  }

  /** The committed entries not yet handed to the state machine, which count as applied from here on. */
  function TakeUnapplied(n: NodeState): (NodeState, seq<LogEntry>) {
    var m := if n.lastApplied < n.snapshotIndex then n.(lastApplied := n.snapshotIndex) else n;
    var end := Min(m.commitIndex, m.LastLogIndex());
    if m.lastApplied >= end then (m, [])
    else (m.(lastApplied := end), m.log[m.lastApplied - m.snapshotIndex..end - m.snapshotIndex])
  }

  function CompactCommitted(n: NodeState): (NodeState, bool) {
    if n.commitIndex <= n.snapshotIndex || n.TermAt(n.commitIndex).None? then (n, false)
    else
      (n.(log := n.log[n.commitIndex - n.snapshotIndex..],
          snapshotIndex := n.commitIndex,
          snapshotTerm := n.TermAt(n.commitIndex).value,
          lastApplied := if n.lastApplied < n.commitIndex then n.commitIndex else n.lastApplied), true)
  }

  function RestoreFromStorage(n: NodeState, term: Term, votedFor: Option<NodeId>, log: seq<LogEntry>, commitIndex: nat,
                              includedIndex: nat, includedTerm: Term): NodeState
  {
    Cleared(n).(currentTerm := term, votedFor := votedFor, log := log, snapshotIndex := includedIndex,
                snapshotTerm := includedTerm, leaderId := None,
                commitIndex := Clamp(commitIndex, includedIndex, includedIndex + |log|), lastApplied := includedIndex)
  }

  // ---------- the quorum maximum ----------

  /** The downward search finds the greatest committable index, if there is one. */
  lemma {:induction false} GreatestCommittableIsGreatest(n: NodeState, index: nat)
    ensures match GreatestCommittable(n, index)
            case None => forall i: nat :: i <= index ==> !Committable(n, i)
            case Some(g) => g <= index && Committable(n, g) && forall i: nat :: g < i <= index ==> !Committable(n, i)
    decreases index
  {
    if index <= n.commitIndex {
    } else if Committable(n, index) {
    } else {
      GreatestCommittableIsGreatest(n, index - 1);
    }
  }

  /** Commit advance is exact: afterwards the commit index is the greatest index of the leader's own term that a
      majority of recorded match indexes reaches, and it stays put when no index above it qualifies. */
  lemma AdvanceCommitIsQuorumMaximum(n: NodeState)
    requires n.role == Leader
    ensures var m := AdvanceCommit(n);
            && m == n.(commitIndex := m.commitIndex)
            && (m.commitIndex == n.commitIndex || Committable(n, m.commitIndex))
            && (forall i: nat :: i > m.commitIndex ==> !Committable(n, i))
            && m.commitIndex >= n.commitIndex
  {
    GreatestCommittableIsGreatest(n, n.LastLogIndex());
  }
}
