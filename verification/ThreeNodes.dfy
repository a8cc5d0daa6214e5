/** Three nodes with the default timers, and single steps of theirs. */
module ThreeNodes {
  import opened RaftTypes
  import opened LogMerge
  import opened NodeModel
  import opened Clusters

  /** Timeouts of 20 to 40 ticks, of which 20 was drawn, and a heartbeat every 4 ticks. */
  function Watch(beat: nat): Clock {
    Clock(0, 20, 40, 20, beat, 4)
  }

  function SetLine(key: string, value: string): string {
    "set " + key + " " + value
  }

  const P := LogEntry(1, SetLine("p", "1"))
  const A := LogEntry(2, SetLine("x", "a"))
  const X := LogEntry(3, SetLine("x", "b"))
  const Y := LogEntry(4, SetLine("y", "1"))

  function Others(id: NodeId): seq<NodeId> {
    if id == 1 then [2, 3] else if id == 2 then [1, 3] else [1, 2]
  }

  function Following(id: NodeId, term: Term, vote: Option<NodeId>, log: seq<LogEntry>,
                     leader: Option<NodeId>): NodeState {
    NodeState(id, Others(id), term, vote, log, 0, 0, 0, 0, Follower, leader, map[], map[], {}, Watch(0))
  }

  function Running(id: NodeId, term: Term, log: seq<LogEntry>, next: map<NodeId, nat>,
                   matched: map<NodeId, nat>, beat: nat): NodeState {
    NodeState(id, Others(id), term, Some(id), log, 0, 0, 0, 0, Candidate, None, next, matched, {id}, Watch(beat))
  }

  /** A leader that has ticked once, in the iteration in which it won. */
  function Leading(id: NodeId, term: Term, log: seq<LogEntry>, commit: nat, next: map<NodeId, nat>,
                   matched: map<NodeId, nat>): NodeState
  {
    NodeState(id, Others(id), term, Some(id), log, 0, 0, commit, commit, Leader, Some(id), next, matched, {id, 3},
              Watch(1))
  }

  /** What a node sends in a step keeps the guard. */
  ghost predicate Speaks(n: NodeState, a: Action) {
    var (m, sent) := NodeStep(n, a);
    (exists e :: e in sent && e.message.AppendRequest?) ==> m.LastLogTerm() == m.currentTerm
  }

  function LastOf(log: seq<LogEntry>): Term {
    if log == [] then 0 else log[|log| - 1].term
  }

  lemma LastOfNode(n: NodeState)
    requires n.snapshotIndex == 0 && n.snapshotTerm == 0
    ensures n.LastLogTerm() == LastOf(n.log) && n.LastLogIndex() == |n.log|
  {
  }

  function Canvass(from: NodeId, to: NodeId, term: Term, log: seq<LogEntry>): Envelope {
    Envelope(from, to, VoteRequest(RequestVote(term, from, |log|, LastOf(log))))
  }

  function Grant(to: NodeId, term: Term): Envelope {
    Envelope(3, to, VoteReply(RequestVoteResponse(term, true, 3)))
  }

  lemma Runs(n: NodeState, k: nat)
    requires n.snapshotIndex == 0 && n.snapshotTerm == 0 && n.commitIndex == 0 && n.lastApplied == 0
    requires n.clock == Watch(n.clock.heartbeatElapsed)
    requires n.peers == Others(n.id) && k < 2
    ensures var (m, sent) := NodeStep(n, ForceElection(n.id, 20));
            && m == Running(n.id, n.currentTerm + 1, n.log, n.nextIndex, n.matchIndex, n.clock.heartbeatElapsed)
            && Canvass(n.id, n.peers[k], n.currentTerm + 1, n.log) in sent
    ensures Speaks(n, ForceElection(n.id, 20))
  {
    var m := Campaigning(n, 20);
    LastOfNode(m);
    var message := VoteRequests(m, m.peers)[k];
    assert message in VoteRequests(m, m.peers);
  }

  lemma Grants(term: Term, vote: Option<NodeId>, log: seq<LogEntry>, leader: Option<NodeId>, e: Envelope)
    requires e.message.VoteRequest? && e.message.vote.term > term && e.message.vote.candidateId == e.from
    requires UpToDate(e.message.vote.lastLogTerm, e.message.vote.lastLogIndex, LastOf(log), |log|)
    ensures NodeStep(Following(3, term, vote, log, leader), Deliver(3, e, 20))
         == (Following(3, e.message.vote.term, Some(e.from), log, None), {Grant(e.from, e.message.vote.term)})
    ensures Speaks(Following(3, term, vote, log, leader), Deliver(3, e, 20))
  {
    LastOfNode(BecomeFollower(Following(3, term, vote, log, leader), e.message.vote.term, None, 20));
  }

  function FreshNext(id: NodeId, log: seq<LogEntry>): map<NodeId, nat> {
    SetAll(map[], Others(id), |log| + 1)
  }

  function FreshMatch(id: NodeId, log: seq<LogEntry>): map<NodeId, nat> {
    SetAll(map[id := |log|], Others(id), 0)
  }

  /** The vote of node 3 wins, and the tick that follows is not yet a heartbeat. */
  lemma Wins(id: NodeId, term: Term, log: seq<LogEntry>, next: map<NodeId, nat>, matched: map<NodeId, nat>, beat: nat)
    requires id in {1, 2}
    ensures var (m, elected) := HandleRequestVoteResponse(Running(id, term, log, next, matched, beat),
                                                          RequestVoteResponse(term, true, 3), 20);
            elected && Tick(m, 20) == (Leading(id, term, log, 0, FreshNext(id, log), FreshMatch(id, log)), [])
  {
    hide SetAll;
    assert {id} + {3} == {id, 3} && |{id, 3}| == 2;
  }

  lemma FreshFacts(id: NodeId, log: seq<LogEntry>)
    requires id in {1, 2}
    ensures forall p :: p in {1, 2, 3} && p != id ==> p in FreshNext(id, log) && FreshNext(id, log)[p] == |log| + 1
    ensures id in FreshMatch(id, log) && FreshMatch(id, log)[id] == |log|
  {
  }

  function Append(from: NodeId, to: NodeId, term: Term, prev: nat, prevTerm: Term, entries: seq<LogEntry>): Envelope {
    Envelope(from, to, AppendRequest(AppendEntries(term, from, prev, prevTerm, entries, 0)))
  }

  lemma SentTo(n: NodeState, k: nat)
    requires k < |n.peers| && AppendEntriesFor(n, n.peers[k]).Some?
    ensures SendAppendEntries(n.peers[k], AppendEntriesFor(n, n.peers[k]).value) in Heartbeats(n, n.peers)
  {
    InHeartbeats(n, n.peers, k);
  }

  lemma {:induction false} InHeartbeats(n: NodeState, peers: seq<NodeId>, k: nat)
    requires k < |peers| && AppendEntriesFor(n, peers[k]).Some?
    ensures SendAppendEntries(peers[k], AppendEntriesFor(n, peers[k]).value) in Heartbeats(n, peers)
    decreases |peers|
  {
    hide AppendEntriesFor;
    if k > 0 { InHeartbeats(n, peers[1..], k - 1); }
  }

  function Proposal(term: Term, log: seq<LogEntry>, command: string): seq<LogEntry> {
    log + [LogEntry(term, command)]
  }

  /** A leader proposes, and sends the new entry to a peer that has everything before it. */
  lemma Proposes(id: NodeId, term: Term, log: seq<LogEntry>, next: map<NodeId, nat>, matched: map<NodeId, nat>,
                 command: string, k: nat)
    requires id in {1, 2} && k < 2 && Others(id)[k] in next && next[Others(id)[k]] == |log| + 1
    ensures var whole := Proposal(term, log, command);
            var (m, sent) := NodeStep(Leading(id, term, log, 0, next, matched), Propose(id, command));
            && m == Leading(id, term, whole, 0, next, matched[id := |whole|])
            && Append(id, Others(id)[k], term, |log|, LastOf(log), [LogEntry(term, command)]) in sent
  {
    var whole := Proposal(term, log, command);
    var m := Leading(id, term, whole, 0, next, matched[id := |whole|]);
    BuildsLast(id, term, log, next, matched[id := |whole|], command, Others(id)[k]);
    hide AppendEntriesFor, Heartbeats;
    SentTo(m, k);
  }

  lemma BuildsLast(id: NodeId, term: Term, log: seq<LogEntry>, next: map<NodeId, nat>, matched: map<NodeId, nat>,
                   command: string, p: NodeId)
    requires p in next && next[p] == |log| + 1
    ensures AppendEntriesFor(Leading(id, term, Proposal(term, log, command), 0, next, matched), p)
         == Some(AppendEntries(term, id, |log|, LastOf(log), [LogEntry(term, command)], 0))
  {
    assert Proposal(term, log, command)[|log|..] == [LogEntry(term, command)];
  }

  lemma ProposalSpeaks(id: NodeId, term: Term, log: seq<LogEntry>, next: map<NodeId, nat>, matched: map<NodeId, nat>,
                       command: string)
    ensures Speaks(Leading(id, term, log, 0, next, matched), Propose(id, command))
  {
    hide Heartbeats, Posted;
    LastOfNode(NodeStep(Leading(id, term, log, 0, next, matched), Propose(id, command)).0);
    hide NodeState.LastLogTerm;
  }

  function Reply(from: NodeId, to: NodeId, term: Term, success: bool, index: nat): Envelope {
    Envelope(from, to, AppendReply(AppendEntriesResponse(term, success, from, index)))
  }

  /** A follower takes over everything a request carries. */
  lemma TakesAll(id: NodeId, term: Term, vote: Option<NodeId>, log: seq<LogEntry>, leader: Option<NodeId>, e: Envelope)
    requires e.message.AppendRequest?
    requires var req := e.message.append;
             && req.term >= term && req.leaderId == e.from && req.leaderCommit == 0
             && req.prevLogIndex == |log| && req.prevLogTerm == LastOf(log)
    ensures NodeStep(Following(id, term, vote, log, leader), Deliver(id, e, 20))
         == (Following(id, e.message.append.term, if e.message.append.term > term then None else vote,
                       log + e.message.append.entries, Some(e.from)),
             {Reply(id, e.from, e.message.append.term, true, |log + e.message.append.entries|)})
    ensures Speaks(Following(id, term, vote, log, leader), Deliver(id, e, 20))
  {
    var req := e.message.append;
    LastOfNode(Recognise(Following(id, term, vote, log, leader), req, 20));
    MergeAtEnd(log, 0, req.entries);
    hide MergeFrom;
  }

  /** A node of a lower term joins the term of a vote request, but keeps its vote from a log less up to date. */
  lemma Declines(n: NodeState, e: Envelope)
    requires n.snapshotIndex == 0 && n.snapshotTerm == 0 && n.commitIndex == 0 && n.lastApplied == 0
    requires n.clock == Watch(n.clock.heartbeatElapsed)
    requires n.peers == Others(n.id) && e.message.VoteRequest? && e.message.vote.term > n.currentTerm
    requires !UpToDate(e.message.vote.lastLogTerm, e.message.vote.lastLogIndex, LastOf(n.log), |n.log|)
    ensures NodeStep(n, Deliver(n.id, e, 20)).0 == Following(n.id, e.message.vote.term, None, n.log, None)
  {
    LastOfNode(BecomeFollower(n, e.message.vote.term, None, 20));
  }

  lemma Outdated(n: NodeState, e: Envelope)
    requires n.snapshotIndex == 0 && e.message.AppendRequest? && e.message.append.term < n.currentTerm
    ensures NodeStep(n, Deliver(n.id, e, 20)) == (n, {Reply(n.id, e.from, n.currentTerm, false, |n.log|)})
  {
  }

  /** A refusal makes the leader go back one entry and send again, whatever its last entry. */
  lemma Retries(id: NodeId, term: Term, log: seq<LogEntry>, next: map<NodeId, nat>, matched: map<NodeId, nat>, k: nat,
                p: NodeId, index: nat)
    requires id in {1, 2} && 1 <= k <= |log| && p in next && next[p] == k + 1
    ensures var (m, sent) := NodeStep(Leading(id, term, log, 0, next, matched),
                                      Deliver(id, Reply(p, id, term, false, index), 20));
            && m == Leading(id, term, log, 0, next[p := k], matched)
            && Append(id, p, term, k - 1, LastOf(log[..k - 1]), log[k - 1..]) in sent
  {
    var n := Leading(id, term, log, 0, next, matched);
    var m := BackOff(n, p);
    var request := AppendEntries(term, id, k - 1, LastOf(log[..k - 1]), log[k - 1..], 0);
    assert AppendEntriesFor(m, p) == Some(request);
    assert Heartbeats(m, [p]) == [SendAppendEntries(p, request)];
    assert SendAppendEntries(p, request) in Heartbeats(m, [p]);
  }

  /** The over-report: a follower accepts a request for the first entry only, and reports all it has. */
  lemma Overreports(id: NodeId, term: Term, vote: Option<NodeId>, leader: Option<NodeId>, from: NodeId)
    ensures NodeStep(Following(id, term, vote, [P, A], leader), Deliver(id, Append(from, id, term, 0, 0, [P]), 20))
         == (Following(id, term, vote, [P, A], Some(from)), {Reply(id, from, term, true, 2)})
  {
    hide MergeFrom;
    KeepsTail();
  }

  lemma KeepsTail()
    ensures MergeFrom([P, A], 0, 1, [P]) == [P, A]
  {
    var j := MergeOverwrites([P, A], 0, 0, [P]);
    assert FirstConflict([P, A], 0, [P], 1);
    FirstConflictUnique([P, A], 0, [P], 1, j);
  }

  lemma TooShort(id: NodeId, term: Term, vote: Option<NodeId>, log: seq<LogEntry>, leader: Option<NodeId>, e: Envelope)
    requires e.message.AppendRequest? && e.message.append.term == term && e.message.append.leaderId == e.from
    requires e.message.append.prevLogIndex > |log|
    ensures NodeStep(Following(id, term, vote, log, leader), Deliver(id, e, 20))
         == (Following(id, term, vote, log, Some(e.from)), {Reply(id, e.from, term, false, |log|)})
  {
    hide MergeFrom;
  }

  /** One acknowledgement up to the end of the log is enough for two of three. */
  lemma Counts(id: NodeId, term: Term, log: seq<LogEntry>, next: map<NodeId, nat>, matched: map<NodeId, nat>, p: NodeId)
    requires id in {1, 2} && p != id && log != [] && LastOf(log) == term && id in matched && matched[id] == |log|
    ensures NodeStep(Leading(id, term, log, 0, next, matched), Deliver(id, Reply(p, id, term, true, |log|), 20)).0
         == Leading(id, term, log, |log|, next[p := |log| + 1], matched[p := |log|]).(lastApplied := 0)
    ensures Speaks(Leading(id, term, log, 0, next, matched), Deliver(id, Reply(p, id, term, true, |log|), 20))
  {
    var n := RecordSuccess(Leading(id, term, log, 0, next, matched), AppendEntriesResponse(term, true, p, |log|));
    var both := {id, p};
    assert both <= n.Replicas(|log|);
    Fewer(both, n.Replicas(|log|));
    assert Committable(n, |log|);
    assert GreatestCommittable(n, |log|) == Some(|log|);
  }

  lemma {:induction false} Fewer(a: set<NodeId>, b: set<NodeId>)
    requires a <= b
    ensures |a| <= |b|
    decreases a
  {
    if a != {} {
      var x :| x in a;
      Fewer(a - {x}, b - {x});
    }
  }
}
