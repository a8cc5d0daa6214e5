/** What a node has to do about elections, said about the fields of the node and of the messages alone. */
module ElectionHandlers {
  import opened RaftTypes
  import opened NodeModel

  // ---------- reading the fields ----------

  /** The index of the last entry that a node has had, compacted or not. */
  function LastIndex(n: NodeState): nat {
    n.snapshotIndex + |n.log|
  }

  /** The term at an index from the snapshot to the end of the log. */
  function EntryTerm(n: NodeState, index: nat): Term
    requires n.snapshotIndex <= index <= LastIndex(n)
  {
    if index == n.snapshotIndex then n.snapshotTerm else n.log[index - n.snapshotIndex - 1].term
  }

  /** Some of the nodes, out of `n` and its peers, are more than half of them. */
  predicate MoreThanHalf(n: NodeState, nodes: set<NodeId>) {
    2 * |nodes| > |n.peers| + 1
  }

  /** Log, snapshot, commit and applied index are as they were, and so is who the node is. */
  predicate KeepsLog(n: NodeState, m: NodeState) {
    && m.id == n.id && m.peers == n.peers
    && m.log == n.log && m.snapshotIndex == n.snapshotIndex && m.snapshotTerm == n.snapshotTerm
    && m.commitIndex == n.commitIndex && m.lastApplied == n.lastApplied
  }

  /** A follower of a later term, without vote and with restarted timers. */
  predicate SteppedDown(n: NodeState, m: NodeState, term: Term, draw: nat) {
    && KeepsLog(n, m)
    && m.currentTerm == term && m.role == Follower && m.votedFor.None? && m.leaderId.None?
    && m.votes == {} && m.nextIndex == map[] && m.matchIndex == map[]
    && m.clock == n.clock.(electionElapsed := 0, heartbeatElapsed := 0, electionTimeout := draw)
  }

  /** A majority, as the code counts it, is more than half of the cluster. */
  lemma MajorityExactly(n: NodeState, nodes: set<NodeId>)
    ensures |nodes| >= n.Majority() <==> MoreThanHalf(n, nodes)
  {
  }

  // ---------- starting an election ----------

  /** A candidate for the next term that has voted for itself, and asks every peer, in order, for its vote. */
  ghost predicate Stands(n: NodeState, m: NodeState, outbound: seq<OutboundMessage>, draw: nat) {
    && KeepsLog(n, m)
    && m.currentTerm == n.currentTerm + 1 && m.role == Candidate && m.leaderId.None?
    && m.votedFor == Some(n.id) && m.votes == {n.id}
    && m.nextIndex == n.nextIndex && m.matchIndex == n.matchIndex
    && m.clock == n.clock.(electionElapsed := 0, electionTimeout := draw)
    && |outbound| == |n.peers|
    && (forall k :: 0 <= k < |outbound| ==>
          outbound[k] == SendRequestVote(n.peers[k], RequestVote(n.currentTerm + 1, n.id, LastIndex(n),
                                                                 EntryTerm(n, LastIndex(n)))))
  }

  lemma StartsExactly(n: NodeState, draw: nat)
    ensures Stands(n, StartElection(n, draw).0, StartElection(n, draw).1, draw)
  {
    EndExactly(Campaigning(n, draw));
    hide NodeState.LastLogTerm;
  }

  lemma EndExactly(n: NodeState)
    ensures n.LastLogIndex() == LastIndex(n) && n.LastLogTerm() == EntryTerm(n, LastIndex(n))
  {
  }

  /** The timer of a follower, and of a candidate that has not won: a tick starts an election exactly when it fills the
      timeout, and else counts and does nothing. */
  lemma ElectionTickExactly(n: NodeState, draw: nat)
    requires n.role != Leader
    ensures var (m, outbound) := Tick(n, draw);
            && (n.clock.electionElapsed + 1 >= n.clock.electionTimeout <==> m.currentTerm != n.currentTerm)
            && (n.clock.electionElapsed + 1 >= n.clock.electionTimeout ==> Stands(n, m, outbound, draw))
            && (n.clock.electionElapsed + 1 < n.clock.electionTimeout ==>
                  outbound == [] && m == n.(clock := n.clock.(electionElapsed := n.clock.electionElapsed + 1)))
  {
    StartsExactly(n.(clock := n.clock.(electionElapsed := n.clock.electionElapsed + 1)), draw);
    hide StartElection;
  }

  /** A node left alone for `k` ticks. */
  function Alone(n: NodeState, draw: nat, k: nat): NodeState {
    if k == 0 then n else Tick(Alone(n, draw, k - 1), draw).0
  }

  /** The number of ticks after which a node that hears nothing stands for election. */
  function Patience(n: NodeState): nat {
    if n.clock.electionElapsed + 1 >= n.clock.electionTimeout then 1
    else n.clock.electionTimeout - n.clock.electionElapsed
  }

  /** A follower or candidate that hears nothing waits in its term for exactly its patience, and then stands for the
      next term; so a candidate that has not won stands again, and again. */
  lemma {:induction false} PatienceEnds(n: NodeState, draw: nat, k: nat)
    requires n.role != Leader && k <= Patience(n)
    ensures k < Patience(n) ==>
              Alone(n, draw, k) == n.(clock := n.clock.(electionElapsed := n.clock.electionElapsed + k))
    ensures k == Patience(n) ==>
              Stands(n, Alone(n, draw, k), Tick(Alone(n, draw, k - 1), draw).1, draw)
  {
    hide Tick, Stands, StartElection;
    if k > 0 {
      PatienceEnds(n, draw, k - 1);
      var before := Alone(n, draw, k - 1);
      ElectionTickExactly(before, draw);
      if k == Patience(n) {
        SameStand(n, before, Alone(n, draw, k), Tick(before, draw).1, draw);
      }
    }
  }

  lemma SameStand(n: NodeState, before: NodeState, m: NodeState, outbound: seq<OutboundMessage>, draw: nat)
    requires before == n.(clock := n.clock.(electionElapsed := before.clock.electionElapsed))
    requires Stands(before, m, outbound, draw)
    ensures Stands(n, m, outbound, draw)
  {
  }

  // ---------- voting ----------

  /** A log that ends in (term, index) is at least as far as the node's: its last term is later, or the same with an
      index no smaller. */
  predicate AtLeast(n: NodeState, term: Term, index: nat) {
    || term > EntryTerm(n, LastIndex(n))
    || (term == EntryTerm(n, LastIndex(n)) && index >= LastIndex(n))
  }

  /** The node may vote for the candidate of the request. */
  predicate FreeFor(n: NodeState, req: RequestVote) {
    || req.term > n.currentTerm
    || (req.term == n.currentTerm && (n.votedFor.None? || n.votedFor == Some(req.candidateId)))
  }

  /** A vote is granted exactly to a candidate of a later term, or of the node's term if it has no other vote, whose log
      is at least as far. */
  lemma VoteGrantedExactly(n: NodeState, req: RequestVote, draw: nat)
    ensures var resp := HandleRequestVote(n, req, draw).1;
            && (resp.voteGranted <==> FreeFor(n, req) && AtLeast(n, req.lastLogTerm, req.lastLogIndex))
            && resp.from == n.id
            && resp.term == (if req.term > n.currentTerm then req.term else n.currentTerm)
  {
  }

  /** What the request leaves behind: a later term makes a follower of the node; a grant is recorded and restarts the
      election timer; nothing else happens. */
  lemma VoteRecordedExactly(n: NodeState, req: RequestVote, draw: nat)
    ensures var (m, resp) := HandleRequestVote(n, req, draw);
            && (resp.voteGranted ==>
                  && m.votedFor == Some(req.candidateId)
                  && m.clock.electionElapsed == 0 && m.clock.electionTimeout == draw)
            && (req.term > n.currentTerm ==>
                  SteppedDown(n, m.(votedFor := None), req.term, draw) && (!resp.voteGranted ==> m.votedFor.None?))
            && (req.term <= n.currentTerm && resp.voteGranted ==>
                  m == n.(votedFor := m.votedFor,
                          clock := n.clock.(electionElapsed := 0, electionTimeout := draw)))
            && (req.term <= n.currentTerm && !resp.voteGranted ==> m == n)
  {
    hide UpToDate, NodeState.LastLogTerm;
  }

  // ---------- counting votes ----------

  /** A node that has just won: it knows no peer's log yet, and starts each behind its own last entry. */
  ghost predicate Reigns(n: NodeState, m: NodeState, votes: set<NodeId>) {
    && KeepsLog(n, m)
    && m.currentTerm == n.currentTerm && m.role == Leader && m.leaderId == Some(n.id) && m.votedFor == n.votedFor
    && m.votes == votes
    && m.nextIndex == (map p | p in n.peers :: LastIndex(n) + 1)
    && (forall p :: p in m.matchIndex <==> p == n.id || p in n.peers)
    && (forall p :: p in n.peers ==> m.matchIndex[p] == n.snapshotIndex)
    && (n.id !in n.peers ==> m.matchIndex[n.id] == LastIndex(n))
    && m.clock == n.clock.(heartbeatElapsed := 0)
  }

  /** An election is won exactly by a candidate of the term of the reply whose votes, with this one if it is one, are
      those of more than half of the cluster. */
  lemma ElectedExactly(n: NodeState, resp: RequestVoteResponse, draw: nat)
    ensures var (m, won) := HandleRequestVoteResponse(n, resp, draw);
            var votes := if resp.voteGranted then n.votes + {resp.from} else n.votes;
            && (won <==> n.role == Candidate && resp.term == n.currentTerm && MoreThanHalf(n, votes))
            && (won ==> Reigns(n, m, votes))
            && (resp.term > n.currentTerm ==> SteppedDown(n, m, resp.term, draw))
            && (n.role == Candidate && resp.term == n.currentTerm && !won ==> m == n.(votes := votes))
            && (resp.term < n.currentTerm || (resp.term == n.currentTerm && n.role != Candidate) ==> m == n)
  {
    var votes := if resp.voteGranted then n.votes + {resp.from} else n.votes;
    MajorityExactly(n, votes);
    hide SetAll;
    WinsExactly(n, votes);
  }

  lemma WinsExactly(n: NodeState, votes: set<NodeId>)
    ensures Reigns(n, BecomeLeader(n.(votes := votes)), votes)
  {
    hide SetAll;
  }
}
