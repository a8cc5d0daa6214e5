/** What one iteration does to the node, the store and the storage of a runner. */
module RunnerProof {
  import opened RaftTypes
  import opened NodeModel
  import opened Clusters
  import opened EarnedTheorems
  import opened KeyValue
  import opened RunnerModel

  // ---------- the invariant of a runner between iterations ----------

  /** The store is what the committed commands make of an empty one. */
  ghost predicate StoreOk(r: Runner) {
    && r.node.commitIndex <= |r.full|
    && r.store == ApplyAll(map[], Commands(r.full[..r.node.commitIndex]))
  }

  /** This process has applied everything committed since it started, once and in order. */
  ghost predicate AppliedOk(r: Runner) {
    && InOrder(r.node)
    && r.node.lastApplied == r.node.commitIndex <= |r.full|
    && r.appliedFrom <= r.node.lastApplied
    && r.applied == Commands(r.full[r.appliedFrom..r.node.lastApplied])
  }

  /** Storage holds what a restart needs; before the first save there is nothing to hold. */
  ghost predicate DiskOk(r: Runner) {
    match r.disk
    case Some(s) => s == FromNode(r.node, Encoded(r.store))
    case None => FromNode(r.node, Encoded(r.store)) == FromNode(Fresh(r.node.id, r.node.peers, r.node.clock),
                                                                Encoded(map[]))
                 && r.full == []
  }

  ghost predicate RunnerOk(r: Runner) {
    StoreOk(r) && AppliedOk(r) && DiskOk(r)
  }

  // ---------- commands ----------

  lemma CommandsConcat(a: seq<LogEntry>, b: seq<LogEntry>)
    ensures Commands(a + b) == Commands(a) + Commands(b)
  {
  }

  /** Applying the next slice of the log extends the prefix that the store reflects. */
  lemma ApplySlice(full: seq<LogEntry>, a: nat, b: nat)
    requires a <= b <= |full|
    ensures ApplyAll(ApplyAll(map[], Commands(full[..a])), Commands(full[a..b])) == ApplyAll(map[], Commands(full[..b]))
  {
    hide Commands, ApplyAll;
    CommandsConcat(full[..a], full[a..b]);
    assert full[..a] + full[a..b] == full[..b];
    ApplyAllConcat(map[], Commands(full[..a]), Commands(full[a..b]));
  }

  /** A restart applies a committed suffix to a store that has already seen it. */
  lemma ReapplySlice(full: seq<LogEntry>, a: nat, b: nat)
    requires a <= b <= |full|
    ensures ApplyAll(ApplyAll(map[], Commands(full[..b])), Commands(full[a..b])) == ApplyAll(map[], Commands(full[..b]))
  {
    ApplySlice(full, a, b);
    ReplayIsHarmless(ApplyAll(map[], Commands(full[..a])), Commands(full[a..b]));
  }

  // ---------- reacting ----------

  function HostOf(r: Runner): Host {
    Host(r.node, r.full)
  }

  /** The host changed, but its committed entries did not. */
  ghost predicate KeepsCommitted(x: Host, y: Host) {
    && x.node.commitIndex <= |x.full|
    && x.node.commitIndex <= y.node.commitIndex <= |y.full|
    && y.full[..x.node.commitIndex] == x.full[..x.node.commitIndex]
  }

  lemma KeepsTwice(x: Host, y: Host, z: Host)
    requires KeepsCommitted(x, y) && KeepsCommitted(y, z)
    ensures KeepsCommitted(x, z)
  {
    var k := x.node.commitIndex;
    assert z.full[..k] == z.full[..y.node.commitIndex][..k] == y.full[..y.node.commitIndex][..k] == y.full[..k];
  }

  /** The action with which the node takes part in an iteration. */
  function ActionOf(i: NodeId, input: Input): Action
    requires !input.Relaunched?
  {
    match input
    case TickDue(draw) => TickAt(i, draw)
    case Arrived(e, draw) => Deliver(i, e, draw)
    case ElectionForced(draw) => ForceElection(i, draw)
    case Proposed(command) => Propose(i, command)
  }

  predicate ElectsNow(n: NodeState, input: Input) {
    input.Arrived? && input.envelope.message.VoteReply?
    && HandleRequestVoteResponse(n, input.envelope.message.voteReply, input.draw).1
  }

  /** Unless it wins an election, a runner reacts with one action of its node. */
  lemma ReactsByAction(r: Runner, input: Input)
    requires !input.Relaunched? && !ElectsNow(r.node, input) && (input.Proposed? ==> r.node.role == Leader)
    ensures var (m, sent) := NodeStep(r.node, ActionOf(r.node.id, input));
            Reacted(r, input) == (WithNode(r, m), sent)
  {
    hide HandleRequestVote, HandleRequestVoteResponse, HandleAppendEntries, HandleAppendEntriesResponse, StartElection,
      Tick, Posted;
  }

  /** A runner that wins an election takes two steps of its node in one iteration: the vote, then a tick. */
  lemma WinsInTwo(r: Runner, input: Input)
    requires ElectsNow(r.node, input)
    requires r.node.snapshotIndex <= |r.full| && r.full[..r.node.snapshotIndex] + r.node.log == r.full
    ensures var a, b := Deliver(r.node.id, input.envelope, input.draw), TickAt(r.node.id, input.draw);
            var won := WithNode(r, NodeStep(r.node, a).0);
            && NodeStep(r.node, a).1 == {}
            && Reacted(r, input) == (WithNode(won, NodeStep(won.node, b).0), NodeStep(won.node, b).1)
            && won.node.id == r.node.id && won.node.clock.electionTimeoutMin == r.node.clock.electionTimeoutMin
            && won.node.clock.electionTimeoutMax == r.node.clock.electionTimeoutMax
  {
    hide Tick, HandleRequestVoteResponse, Posted;
    VoteReplySpine(r.node, input.envelope.message.voteReply, input.draw);
  }

  lemma VoteReplySpine(n: NodeState, resp: RequestVoteResponse, draw: nat)
    ensures var (m, _) := HandleRequestVoteResponse(n, resp, draw);
            m.id == n.id && m.log == n.log && m.snapshotIndex == n.snapshotIndex
                && m.clock.electionTimeoutMin == n.clock.electionTimeoutMin
            && m.clock.electionTimeoutMax == n.clock.electionTimeoutMax
  {
  }

  /** A restart from storage is a restart from what the node held, since everything was saved. */
  lemma StartedFromDisk(r: Runner, draw: nat)
    requires DiskOk(r)
    ensures Started(r, draw).node == Restarted(r.node, draw)
    ensures Started(r, draw).store == r.store && Started(r, draw).full == r.full && Started(r, draw).disk == r.disk
    ensures Started(r, draw).applied == [] && Started(r, draw).appliedFrom == r.node.snapshotIndex
  {
  }

  lemma ReactsToStart(r: Runner, draw: nat)
    ensures Reacted(r, Relaunched(draw)) == (Started(r, draw), {})
  {
  }

  lemma ReactsByRefusing(r: Runner, command: string)
    requires r.node.role != Leader
    ensures Reacted(r, Proposed(command)) == (r, {})
  {
  }

  // ---------- applying and saving ----------

  lemma TakingKeepsLog(n: NodeState)
    ensures TakeUnapplied(n).0 == n.(lastApplied := TakeUnapplied(n).0.lastApplied)
  {
  }

  lemma ApplyingIsAction(m: Runner)
    requires m.node.snapshotIndex <= |m.full| && m.full[..m.node.snapshotIndex] + m.node.log == m.full
    ensures HostStep(HostOf(m), ApplyCommitted(m.node.id)) == (HostOf(ApplyCommittedEntries(m)), {})
  {
    hide TakeUnapplied, Commands, ApplyAll;
    TakingKeepsLog(m.node);
  }

  /** Applying brings the store from the applied to the commit index. */
  lemma ApplyingIsExact(m: Runner)
    requires InOrder(m.node) && m.node.LastLogIndex() == |m.full|
    requires m.node.snapshotIndex <= |m.full| && m.node.log == m.full[m.node.snapshotIndex..]
    ensures var k := ApplyCommittedEntries(m);
            var slice := Commands(m.full[m.node.lastApplied..m.node.commitIndex]);
            && k == m.(node := m.node.(lastApplied := m.node.commitIndex),
                       store := ApplyAll(m.store, slice), applied := m.applied + slice)
  {
    hide TakeUnapplied, Commands, ApplyAll;
    TakesSlice(m.node, m.full);
  }

  /** What holds before an iteration saves: everything committed is applied. */
  ghost predicate Caught(k: Runner) {
    StoreOk(k) && AppliedOk(k)
  }

  lemma SettledIsCaught(r: Runner, m: Runner, restarted: bool)
    requires RunnerOk(r) && InOrder(m.node) && m.node.LastLogIndex() == |m.full|
    requires m.node.snapshotIndex <= |m.full| && m.node.log == m.full[m.node.snapshotIndex..]
    requires KeepsCommitted(HostOf(r), HostOf(m)) && m.store == r.store
    requires if restarted
             then m.node.lastApplied == m.appliedFrom == m.node.snapshotIndex && m.applied == []
                  && m.node.commitIndex == r.node.commitIndex
             else m.node.lastApplied == r.node.lastApplied && m.applied == r.applied && m.appliedFrom == r.appliedFrom
    ensures Caught(ApplyCommittedEntries(m))
  {
    hide Commands, ApplyAll, DiskOk, ApplyCommittedEntries;
    var from, to := m.node.lastApplied, m.node.commitIndex;
    ApplyingIsExact(m);
    if restarted {
      ReapplySlice(m.full, from, to);
      assert [] + Commands(m.full[from..to]) == Commands(m.full[from..to]);
    } else {
      ApplySlice(m.full, from, to);
      CommandsConcat(m.full[m.appliedFrom..from], m.full[from..to]);
      assert m.full[m.appliedFrom..from] + m.full[from..to] == m.full[m.appliedFrom..to];
      assert r.full[r.appliedFrom..from] == r.full[..from][r.appliedFrom..] == m.full[..from][m.appliedFrom..]
          == m.full[m.appliedFrom..from];
    }
  }

  /** Saving keeps the store; compaction finds everything committed already applied and skips nothing. */
  lemma SavingIsOk(k: Runner)
    requires Caught(k)
    ensures RunnerOk(Persist(k)) && Persist(k).store == k.store && Persist(k).node.lastApplied == k.node.lastApplied
  {
    hide Commands, ApplyAll;
  }
}
