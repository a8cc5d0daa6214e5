/** What one iteration of a runner has to do: when it answers, applies, compacts and saves, and what. */
module Iterations {
  import opened RaftTypes
  import opened NodeModel
  import opened Clusters
  import opened KeyValue
  import opened RunnerModel
  import opened ElectionHandlers
  import opened LogHandlers

  // ---------- reacting ----------

  /** A request for a vote is answered by one message, to its sender, which grants the vote exactly if the node is free
      to give it and the candidate's log is at least as far. */
  lemma VoteAnswered(r: Runner, e: Envelope, draw: nat) returns (resp: RequestVoteResponse)
    requires e.message.VoteRequest?
    ensures Iterate(r, Arrived(e, draw)).1 == {Envelope(r.node.id, e.from, VoteReply(resp))}
    ensures resp.from == r.node.id
    ensures resp.voteGranted <==>
            FreeFor(r.node, e.message.vote) && AtLeast(r.node, e.message.vote.lastLogTerm, e.message.vote.lastLogIndex)
  {
    hide HandleRequestVote, TakeUnapplied, CompactCommitted, FreeFor, AtLeast;
    VoteGrantedExactly(r.node, e.message.vote, draw);
    resp := HandleRequestVote(r.node, e.message.vote, draw).1;
  }

  /** A request to append is answered by one message, to its sender, that reports success exactly if the request
      fits. */
  lemma AppendAnswered(r: Runner, e: Envelope, draw: nat) returns (resp: AppendEntriesResponse)
    requires e.message.AppendRequest?
    ensures Iterate(r, Arrived(e, draw)).1 == {Envelope(r.node.id, e.from, AppendReply(resp))}
    ensures resp.from == r.node.id && (resp.success <==> Fits(r.node, e.message.append))
  {
    hide HandleAppendEntries, TakeUnapplied, CompactCommitted, Fits;
    AppendAnsweredExactly(r.node, e.message.append, draw);
    resp := HandleAppendEntries(r.node, e.message.append, draw).1;
  }

  /** The timer of a runner that does not lead: when it fills the timeout, and when an election is forced, the runner
      stands and asks every peer for its vote. */
  lemma ElectionReacts(r: Runner, input: Input) returns (outbound: seq<OutboundMessage>)
    requires input.ElectionForced? || (input.TickDue? && r.node.role != Leader)
    ensures var (m, sent) := Reacted(r, input);
            && sent == Posted(r.node.id, outbound) && m.store == r.store
            && (if input.ElectionForced? || r.node.clock.electionElapsed + 1 >= r.node.clock.electionTimeout
                then Stands(r.node, m.node, outbound, input.draw)
                else outbound == []
                     && m.node == r.node.(clock := r.node.clock.(electionElapsed := r.node.clock.electionElapsed + 1)))
  {
    hide Tick, StartElection, Posted, Stands;
    if input.TickDue? {
      ElectionTickExactly(r.node, input.draw);
      outbound := Tick(r.node, input.draw).1;
    } else {
      StartsExactly(r.node, input.draw);
      outbound := StartElection(r.node, input.draw).1;
    }
  }

  /** The timer of a leader. */
  lemma HeartbeatReacts(r: Runner, draw: nat) returns (outbound: seq<OutboundMessage>)
    requires r.node.role == Leader
    ensures var (m, sent) := Reacted(r, TickDue(draw));
            && sent == Posted(r.node.id, outbound) && m.store == r.store
            && (if r.node.clock.heartbeatElapsed + 1 >= r.node.clock.heartbeatInterval
                then exists order :: SentInOrder(r.node, r.node.peers, order, outbound)
                else outbound == [])
  {
    hide Tick, Posted, SentInOrder;
    HeartbeatTickExactly(r.node, draw);
    outbound := Tick(r.node, draw).1;
  }

  /** A runner that wins an election ticks before it does anything else: it sends heartbeats at once exactly if its
      interval is at most 1, and otherwise has one tick of the interval behind it. */
  lemma WinReacts(r: Runner, e: Envelope, draw: nat) returns (won: NodeState, outbound: seq<OutboundMessage>)
    requires e.message.VoteReply? && r.node.role == Candidate && e.message.voteReply.term == r.node.currentTerm
    requires var resp := e.message.voteReply;
             MoreThanHalf(r.node, if resp.voteGranted then r.node.votes + {resp.from} else r.node.votes)
    ensures Reigns(r.node, won, if e.message.voteReply.voteGranted then r.node.votes + {e.message.voteReply.from}
                                else r.node.votes)
    ensures var (m, sent) := Reacted(r, Arrived(e, draw));
            && sent == Posted(r.node.id, outbound) && m.store == r.store
            && (if r.node.clock.heartbeatInterval <= 1
                then m.node == won && exists order :: SentInOrder(won, won.peers, order, outbound)
                else m.node == won.(clock := won.clock.(heartbeatElapsed := 1)) && outbound == [])
  {
    hide Tick, Posted, SentInOrder, HandleRequestVoteResponse, MoreThanHalf;
    ElectedExactly(r.node, e.message.voteReply, draw);
    won := HandleRequestVoteResponse(r.node, e.message.voteReply, draw).0;
    HeartbeatTickExactly(won, draw);
    outbound := Tick(won, draw).1;
  }

  /** Any other reply to a request for a vote is handled by the node alone, and in silence. */
  lemma NoWinReacts(r: Runner, e: Envelope, draw: nat)
    requires e.message.VoteReply?
    requires var resp := e.message.voteReply;
             !(r.node.role == Candidate && resp.term == r.node.currentTerm
               && MoreThanHalf(r.node, if resp.voteGranted then r.node.votes + {resp.from} else r.node.votes))
    ensures var (m, sent) := Reacted(r, Arrived(e, draw));
            sent == {} && m.store == r.store && m.node == HandleRequestVoteResponse(r.node, e.message.voteReply, draw).0
  {
    hide HandleRequestVoteResponse, MoreThanHalf, Posted;
    ElectedExactly(r.node, e.message.voteReply, draw);
  }

  /** A leader answers a refusal with the next request that it can make, and a success with nothing. */
  lemma AnswerReacts(r: Runner, e: Envelope, draw: nat) returns (outbound: seq<OutboundMessage>)
    requires e.message.AppendReply?
    ensures var (m, sent) := Reacted(r, Arrived(e, draw));
            var resp := e.message.appendReply;
            && sent == Posted(r.node.id, outbound) && m.store == r.store
            && (if r.node.role == Leader && resp.term == r.node.currentTerm && !resp.success
                   && CanServe(m.node, resp.from)
                then outbound == [SendAppendEntries(resp.from, RequestTo(m.node, resp.from))]
                else outbound == [])
  {
    hide HandleAppendEntriesResponse, Posted, CanServe, RequestTo;
    var n, resp := r.node, e.message.appendReply;
    outbound := HandleAppendEntriesResponse(n, resp, draw).1;
    if n.role != Leader || resp.term != n.currentTerm {
      StrayAnswerExactly(n, resp, draw);
    } else if resp.success {
      SuccessRecordedExactly(n, resp, draw);
    } else {
      RefusalRetriedExactly(n, resp, draw);
    }
  }

  /** A proposal to a leader goes to the end of its log and out to its peers. */
  lemma ProposalReacts(r: Runner, command: string) returns (outbound: seq<OutboundMessage>)
    requires r.node.role == Leader
    ensures var (m, sent) := Reacted(r, Proposed(command));
            && m.node.log == r.node.log + [LogEntry(r.node.currentTerm, command)]
            && sent == Posted(r.node.id, outbound) && m.store == r.store
            && exists order :: SentInOrder(m.node, r.node.peers, order, outbound)
  {
    hide ProposeCommand, Posted, SentInOrder;
    ProposedExactly(r.node, command);
    outbound := ProposeCommand(r.node, command).value.1;
  }

  /** A start takes node and store from storage, and both new if there is nothing in it. */
  lemma StartReacts(r: Runner, draw: nat)
    ensures var (m, sent) := Reacted(r, Relaunched(draw));
            && sent == {} && m.disk == r.disk && m.node.id == r.node.id && m.node.peers == r.node.peers
            && m.node.role == Follower && m.applied == [] && m.appliedFrom == m.node.lastApplied == m.node.snapshotIndex
            && (match r.disk
                case None =>
                  m.store == map[] && m.node.currentTerm == 0 && m.node.votedFor.None? && m.node.log == []
                  && m.node.snapshotIndex == 0 && m.node.commitIndex == 0
                case Some(s) =>
                  && m.store == RestoredOn(map[], s.stateMachine)
                  && m.node.currentTerm == s.currentTerm && m.node.votedFor == s.votedFor && m.node.log == s.log
                  && m.node.snapshotIndex == s.lastIncludedIndex && m.node.snapshotTerm == s.lastIncludedTerm
                  && m.node.commitIndex == Clamp(s.commitIndex, s.lastIncludedIndex, s.lastIncludedIndex + |s.log|))
  {
  }

  // ---------- applying ----------

  /** A proposal to a runner that does not lead. */
  predicate Refused(r: Runner, input: Input) {
    input.Proposed? && r.node.role != Leader
  }

  /** Where applying starts and where it ends. */
  function From(n: NodeState): nat {
    if n.lastApplied < n.snapshotIndex then n.snapshotIndex else n.lastApplied
  }

  function To(n: NodeState): nat {
    var end := if n.commitIndex <= LastIndex(n) then n.commitIndex else LastIndex(n);
    if From(n) < end then end else From(n)
  }

  /** The store has taken the commands of what was committed and not applied yet, one for each entry and in their order,
      and these now count as applied. */
  ghost predicate Applied(m: Runner, k: Runner) {
    && k.node == m.node.(lastApplied := To(m.node))
    && k.full == m.full && k.disk == m.disk && k.threshold == m.threshold && k.appliedFrom == m.appliedFrom
    && exists commands: seq<string> :: Newly(m, k, commands)
  }

  ghost predicate Newly(m: Runner, k: Runner, commands: seq<string>) {
    && |commands| == To(m.node) - From(m.node)
    && (forall i :: 0 <= i < |commands| ==>
          From(m.node) - m.node.snapshotIndex + i < |m.node.log|
          && commands[i] == m.node.log[From(m.node) - m.node.snapshotIndex + i].command)
    && k.store == ApplyAll(m.store, commands) && k.applied == m.applied + commands
  }

  /** Every iteration applies what is committed, except a tick, and a proposal that is refused; a start applies too. */
  lemma AppliesExactly(r: Runner, input: Input)
    ensures var m, k := Reacted(r, input).0, Settled(r, input).0;
            if input.TickDue? || Refused(r, input) then k == m else Applied(m, k)
  {
    hide Reacted, ApplyAll, Commands, ApplyCommittedEntries;
    var m := Reacted(r, input).0;
    ApplyingApplies(m);
  }

  lemma ApplyingApplies(m: Runner)
    ensures Applied(m, ApplyCommittedEntries(m))
  {
    hide ApplyAll, TakeUnapplied;
    TakenExactly(m.node);
    hide Commands;
    assert Newly(m, ApplyCommittedEntries(m), Commands(TakeUnapplied(m.node).1));
  }

  // ---------- compacting and saving ----------

  /** The log has reached the threshold, and something of it is committed. */
  predicate CompactsNow(k: Runner) {
    |k.node.log| >= k.threshold && k.node.snapshotIndex < k.node.commitIndex <= LastIndex(k.node)
  }

  /** Everything up to the commit index is dropped behind a snapshot. */
  predicate Compacted(n: NodeState, m: NodeState) {
    && n.snapshotIndex <= n.commitIndex <= LastIndex(n)
    && m == n.(log := n.log[n.commitIndex - n.snapshotIndex..], snapshotIndex := n.commitIndex,
               snapshotTerm := EntryTerm(n, n.commitIndex),
               lastApplied := if n.lastApplied < n.commitIndex then n.commitIndex else n.lastApplied)
  }

  /** The record in storage has everything of the runner that has to survive it. */
  predicate Recorded(k: Runner) {
    k.disk == Some(StorageSnapshot(k.node.id, k.node.currentTerm, k.node.votedFor, k.node.log, k.node.commitIndex,
                                   k.node.snapshotIndex, k.node.snapshotTerm, Encoded(k.store)))
  }

  /** Every iteration compacts, exactly if the log has reached the threshold and there is something to compact, and then
      saves what it ends in, except a start, and a proposal that is refused, which do neither. */
  lemma SavesExactly(r: Runner, input: Input)
    ensures var k, z := Settled(r, input).0, Iterate(r, input).0;
            if input.Relaunched? || Refused(r, input) then z == k
            else
              && Recorded(z)
              && (if CompactsNow(k) then Compacted(k.node, z.node) else z.node == k.node)
              && z == k.(node := z.node, disk := z.disk)
  {
    hide Settled, CompactCommitted, EntryTerm;
    CompactedExactly(Settled(r, input).0.node);
  }

  /** Applying, compacting and saving send nothing. */
  lemma OnlyReactingSends(r: Runner, input: Input)
    ensures Iterate(r, input).1 == Reacted(r, input).1
  {
    hide Reacted, ApplyCommittedEntries, Persist;
  }
}
