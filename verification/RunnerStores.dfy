/** What a runner makes of its store, in every run in which no runner truncates what it has committed: for this, nothing
    about the protocol matters. */
module RunnerStores {
  import opened RaftTypes
  import opened NodeModel
  import opened Clusters
  import opened EarnedTheorems
  import opened KeyValue
  import opened RunnerModel
  import opened RunnerProof

  // ---------- the node of a runner against its full log ----------

  ghost predicate Shaped(r: Runner) {
    r.node.snapshotIndex <= |r.full| && r.node.log == r.full[r.node.snapshotIndex..]
  }

  /** What every runner satisfies between iterations. */
  ghost predicate InStep(r: Runner) {
    Shaped(r) && RunnerOk(r)
  }

  /** A runner after its node handled something, if nothing committed was lost. */
  ghost predicate Handled(r: Runner, m: Runner) {
    && Shaped(m) && InOrder(m.node) && KeepsCommitted(HostOf(r), HostOf(m))
    && m.node.snapshotIndex == r.node.snapshotIndex && m.node.lastApplied == r.node.lastApplied
  }

  lemma HandledByNode(r: Runner, m: NodeState)
    requires Shaped(r) && InOrder(r.node)
    requires m.snapshotIndex == r.node.snapshotIndex && m.lastApplied == r.node.lastApplied
    requires r.node.commitIndex <= m.LastLogIndex() ==> r.node.commitIndex <= m.commitIndex <= m.LastLogIndex()
    requires var k := WithNode(r, m);
             r.node.commitIndex <= |k.full| && k.full[..r.node.commitIndex] == r.full[..r.node.commitIndex]
    ensures Handled(r, WithNode(r, m))
  {
  }

  // ---------- iterations ----------

  lemma OkIsInOrder(r: Runner)
    requires RunnerOk(r)
    ensures InOrder(r.node) && Caught(r) && DiskOk(r)
  {
  }

  lemma ReactionKeepsStore(r: Runner, input: Input)
    requires DiskOk(r)
    ensures var m := Reacted(r, input).0;
            && m.store == r.store && m.threshold == r.threshold
            && (!input.Relaunched? ==> m.applied == r.applied && m.appliedFrom == r.appliedFrom && m.disk == r.disk)
            && (input.Relaunched? ==> m.applied == [] && m.appliedFrom == r.node.snapshotIndex
                                      && m.node.snapshotIndex == r.node.snapshotIndex
                                      && (InOrder(r.node) ==> m.node.commitIndex == r.node.commitIndex)
                                      && m.full == r.full && m.disk == r.disk)
  {
    hide Tick, HandleRequestVote, HandleRequestVoteResponse, HandleAppendEntries, HandleAppendEntriesResponse,
      StartElection, ProposeCommand;
  }

  lemma TickKeepsCaught(r: Runner, m: Runner, input: Input)
    requires RunnerOk(r) && input.TickDue? && m == Reacted(r, input).0
    requires KeepsCommitted(HostOf(r), HostOf(m)) && InOrder(m.node)
    ensures Caught(m)
  {
    hide Heartbeats, VoteRequests, Commands, ApplyAll;
    TickCommit(r.node, input.draw);
    hide Tick;
    assert m.full[..m.node.commitIndex] == r.full[..r.node.commitIndex];
    assert m.full[m.appliedFrom..m.node.lastApplied]
        == m.full[..m.node.commitIndex][m.appliedFrom..] == r.full[r.appliedFrom..r.node.lastApplied];
  }

  lemma TickCommit(n: NodeState, draw: nat)
    ensures var (m, _) := Tick(n, draw);
            m.commitIndex == n.commitIndex && m.lastApplied == n.lastApplied && m.log == n.log
            && m.snapshotIndex == n.snapshotIndex
  {
    hide Heartbeats, VoteRequests;
  }

  lemma RelaunchedIsOk(r: Runner, m: Runner, draw: nat)
    requires RunnerOk(r) && Caught(ApplyCommittedEntries(m)) && DiskOk(r)
    requires m == Started(r, draw)
    ensures RunnerOk(ApplyCommittedEntries(m))
  {
    hide Commands, ApplyAll;
    StartedFromDisk(r, draw);
  }

  lemma WinKeepsLog(r: Runner, input: Input)
    requires ElectsNow(r.node, input) && Shaped(r)
    ensures var n := NodeStep(r.node, Deliver(r.node.id, input.envelope, input.draw)).0;
            n.log == r.node.log && WithNode(r, n).full == r.full
  {
    hide HandleRequestVoteResponse;
    VoteReplySpine(r.node, input.envelope.message.voteReply, input.draw);
    assert r.full[..r.node.snapshotIndex] + r.node.log == r.full;
  }

  lemma TickKeepsLog(r: Runner, draw: nat)
    requires Shaped(r)
    ensures WithNode(r, NodeStep(r.node, TickAt(r.node.id, draw)).0).full == r.full
  {
    hide Tick, Posted;
    TickCommit(r.node, draw);
    assert r.full[..r.node.snapshotIndex] + r.node.log == r.full;
  }

  /** The first of the two steps with which a runner wins an election. */
  lemma WinHandled(r: Runner, input: Input) returns (won: Runner)
    requires Shaped(r) && InOrder(r.node) && ElectsNow(r.node, input)
    ensures Handled(r, won) && Handled(won, Reacted(r, input).0)
  {
    assert input.Arrived?;
    hide Reacted, NodeStep, ElectsNow, Handled;
    var a, b := Deliver(r.node.id, input.envelope, input.draw), TickAt(r.node.id, input.draw);
    won := WithNode(r, NodeStep(r.node, a).0);
    assert r.full[..r.node.snapshotIndex] + r.node.log == r.full;
    WinsInTwo(r, input);
    HandlerKeepsOrder(r.node, a);
    WinKeepsLog(r, input);
    HandledByNode(r, NodeStep(r.node, a).0);
    HandledFacts(r, won);
    HandlerKeepsOrder(won.node, b);
    TickKeepsLog(won, input.draw);
    HandledByNode(won, NodeStep(won.node, b).0);
  }

  lemma HandledFacts(r: Runner, m: Runner)
    requires Handled(r, m)
    ensures Shaped(m) && InOrder(m.node) && m.node.commitIndex <= |m.full| && m.node.LastLogIndex() == |m.full|
    ensures KeepsCommitted(HostOf(r), HostOf(m)) && m.node.lastApplied == r.node.lastApplied
  {
  }

  lemma HandledTwice(r: Runner, m: Runner, k: Runner)
    requires Handled(r, m) && Handled(m, k)
    ensures Handled(r, k)
  {
    KeepsTwice(HostOf(r), HostOf(m), HostOf(k));
  }

  /** A reaction with one action of the node, or with a vote that wins and the tick after it. */
  lemma ReactionHandled(r: Runner, input: Input)
    requires Shaped(r) && InOrder(r.node) && LosesNothing(r, input)
    requires !input.Relaunched? && (input.Proposed? ==> r.node.role == Leader)
    ensures Handled(r, Reacted(r, input).0)
  {
    hide Reacted, NodeStep, ElectsNow, Handled, InOrder;
    if ElectsNow(r.node, input) {
      var won := WinHandled(r, input);
      HandledTwice(r, won, Reacted(r, input).0);
    } else {
      ReactsByAction(r, input);
      HandlerKeepsOrder(r.node, ActionOf(r.node.id, input));
      HandledByNode(r, NodeStep(r.node, ActionOf(r.node.id, input)).0);
    }
  }

  lemma StartShaped(r: Runner, draw: nat)
    requires InStep(r)
    ensures var m := Started(r, draw);
            && Shaped(m) && InOrder(m.node) && m.node.LastLogIndex() == |m.full|
            && m.node.commitIndex == r.node.commitIndex && m.full == r.full
            && m.node.snapshotIndex == m.node.lastApplied == r.node.snapshotIndex
  {
    hide StoreOk, DiskOk, Started;
    StartedFromDisk(r, draw);
  }

  /** When an iteration comes to save, everything committed is applied, and the store reflects it. */
  lemma IterationSettles(r: Runner, input: Input)
    requires InStep(r) && LosesNothing(r, input)
    ensures var k := Settled(r, input).0; Caught(k) && Shaped(k)
    ensures !Saves(r, input) ==> RunnerOk(Settled(r, input).0)
  {
    hide Reacted, StoreOk, DiskOk, Handled, ApplyCommittedEntries, Caught, InOrder, LosesNothing;
    OkIsInOrder(r);
    ReactionKeepsStore(r, input);
    var m := Reacted(r, input).0;
    if input.Relaunched? {
      StartShaped(r, input.draw);
      ReactsToStart(r, input.draw);
      SettledIsCaught(r, m, true);
      ApplyingIsExact(m);
      RelaunchedIsOk(r, m, input.draw);
    } else if input.Proposed? && r.node.role != Leader {
      ReactsByRefusing(r, input.command);
    } else {
      ReactionHandled(r, input);
      HandledFacts(r, m);
      if input.TickDue? {
        TickKeepsCaught(r, m, input);
      } else {
        SettledIsCaught(r, m, false);
        ApplyingIsExact(m);
      }
    }
  }

  lemma IterationKeepsStep(r: Runner, input: Input)
    requires InStep(r) && LosesNothing(r, input)
    ensures InStep(Iterate(r, input).0)
  {
    hide Settled, StoreOk, DiskOk, AppliedOk, Caught, Persist, LosesNothing, RunnerOk, Saves;
    IterationSettles(r, input);
    var k := Settled(r, input).0;
    if Saves(r, input) {
      SavingIsOk(k);
      SavingKeepsShape(k);
    }
  }

  lemma SavingKeepsShape(k: Runner)
    requires Caught(k) && Shaped(k)
    ensures Shaped(Persist(k))
  {
    hide Commands, ApplyAll;
    var n := k.node;
    if n.snapshotIndex < n.commitIndex { assert n.log[n.commitIndex - n.snapshotIndex..] == k.full[n.commitIndex..]; }
  }

  // ---------- runs ----------

  lemma {:induction false} AlwaysInStep(w: RunnerRun, k: nat, a: NodeId)
    requires LossFreeRun(w) && k < |w.states| && a in w.states[k].runners
    ensures InStep(w.states[k].runners[a])
  {
    hide InStep, LosesNothing, Iterate, SharesMembership;
    if k == 0 {
      FreshInStep(w.states[0].runners[a]);
    } else {
      var v := w.events[k - 1];
      assert CanHappen(w.states[k - 1], v) && w.states[k] == After(w.states[k - 1], v);
      AlwaysInStep(w, k - 1, a);
      if v.actor == a {
        IterationKeepsStep(w.states[k - 1].runners[a], v.input);
      }
    }
  }

  lemma FreshInStep(r: Runner)
    requires r == Runner(Fresh(r.node.id, r.node.peers, r.node.clock), map[], None, r.threshold, [], [], 0)
    ensures InStep(r)
  {
    assert map[] == ApplyAll(map[], []);
  }

  /** Between iterations the store of a runner is exactly what the committed commands make of an empty one. */
  lemma StoreReflectsCommitted(w: RunnerRun, k: nat, a: NodeId)
    requires LossFreeRun(w) && k < |w.states| && a in w.states[k].runners
    ensures var r := w.states[k].runners[a];
            r.node.commitIndex <= |r.full| && r.store == ApplyAll(map[], Commands(r.full[..r.node.commitIndex]))
  {
    hide LossFreeRun, AppliedOk, DiskOk, Shaped;
    AlwaysInStep(w, k, a);
  }

  /** Runner `y`, just restarted, has the store that `x` had when it stopped and that it had saved, and has replayed on
      it what was committed behind the snapshot. */
  ghost predicate Recovered(x: Runner, y: Runner) {
    && y.store == x.store && y.disk == x.disk && y.full == x.full
    && (x.disk.Some? ==> x.disk.value.stateMachine == Encoded(y.store))
    && y.node.snapshotIndex <= y.node.commitIndex == x.node.commitIndex <= |y.full|
    && y.applied == Commands(y.full[y.node.snapshotIndex..y.node.commitIndex])
  }

  lemma RelaunchRecovers(x: Runner, draw: nat)
    requires RunnerOk(x) && RunnerOk(Iterate(x, Relaunched(draw)).0)
    ensures Recovered(x, Iterate(x, Relaunched(draw)).0)
  {
    hide ApplyAll, Commands, TakeUnapplied, Started;
    StartedFromDisk(x, draw);
    ReactsToStart(x, draw);
    TakingKeepsLog(Started(x, draw).node);
  }

  /** Runner `i` before and after event `k`. */
  ghost predicate RecoversAt(w: RunnerRun, k: nat, i: NodeId) {
    && k + 1 < |w.states| && i in w.states[k].runners && i in w.states[k + 1].runners
    && Recovered(w.states[k].runners[i], w.states[k + 1].runners[i])
  }

  /** A restart gives back the store that was saved last, whatever was replayed on it. */
  lemma RestartKeepsStore(w: RunnerRun, k: nat)
    requires LossFreeRun(w) && k < |w.events| && w.events[k].input.Relaunched?
    ensures RecoversAt(w, k, w.events[k].actor)
  {
    hide InStep, RunnerOk, Iterate, Recovered, LosesNothing;
    var v := w.events[k];
    assert CanHappen(w.states[k], v) && w.states[k + 1] == After(w.states[k], v);
    AlwaysInStep(w, k, v.actor);
    AlwaysInStep(w, k + 1, v.actor);
    var x := w.states[k].runners[v.actor];
    assert v.input == Relaunched(v.input.draw);
    StepIsOk(x);
    StepIsOk(w.states[k + 1].runners[v.actor]);
    RelaunchRecovers(x, v.input.draw);
  }

  lemma StepIsOk(r: Runner)
    requires InStep(r)
    ensures RunnerOk(r)
  {
    hide RunnerOk;
  }

  ghost predicate NeverRelaunched(w: RunnerRun, k: nat, a: NodeId) {
    forall j :: 0 <= j < k && j < |w.events| && w.events[j].actor == a ==> !w.events[j].input.Relaunched?
  }

  /** Applied exactly once, in order, none skipped: a process that was never restarted has handed to its state machine
      the commands of the committed log, no more and no less. */
  lemma AppliedOnce(w: RunnerRun, k: nat, a: NodeId)
    requires LossFreeRun(w) && k < |w.states| && a in w.states[k].runners && NeverRelaunched(w, k, a)
    ensures var r := w.states[k].runners[a];
            r.node.commitIndex <= |r.full| && r.applied == Commands(r.full[..r.node.commitIndex])
  {
    hide LossFreeRun, NeverRelaunched, StoreOk, DiskOk, Shaped, Commands, InOrder;
    AlwaysInStep(w, k, a);
    StartsAtZero(w, k, a);
    var r := w.states[k].runners[a];
    assert r.full[0..r.node.lastApplied] == r.full[..r.node.commitIndex];
  }

  lemma {:induction false} StartsAtZero(w: RunnerRun, k: nat, a: NodeId)
    requires LossFreeRun(w) && k < |w.states| && a in w.states[k].runners && NeverRelaunched(w, k, a)
    ensures w.states[k].runners[a].appliedFrom == 0
  {
    hide LosesNothing, Iterate;
    if k > 0 {
      StartsAtZero(w, k - 1, a);
      KeepsStart(w.states[k - 1].runners[w.events[k - 1].actor], w.events[k - 1].input);
    }
  }

  lemma KeepsStart(r: Runner, input: Input)
    ensures !input.Relaunched? ==> Iterate(r, input).0.appliedFrom == r.appliedFrom
  {
    hide Tick, HandleRequestVote, HandleRequestVoteResponse, HandleAppendEntries, HandleAppendEntriesResponse,
      StartElection, ProposeCommand, ApplyAll, Commands, TakeUnapplied, CompactCommitted;
  }

  /** Compaction skips nothing: whenever an iteration comes to save, and so perhaps to compact, everything committed has
      been applied, so the applied index is never bumped over an entry. */
  lemma CompactionSkipsNothing(w: RunnerRun, k: nat)
    requires LossFreeRun(w) && k < |w.events|
    ensures var a := w.events[k].actor;
            && a in w.states[k].runners
            && var m := Settled(w.states[k].runners[a], w.events[k].input).0;
               && m.node.lastApplied == m.node.commitIndex
               && CompactCommitted(m.node).0.lastApplied == m.node.lastApplied
  {
    hide InStep, LosesNothing, Settled, StoreOk, Shaped, CanHappen, After, Installed;
    var v := w.events[k];
    assert k < |w.states| && v.actor in w.states[k].runners;
    AlwaysInStep(w, k, v.actor);
    IterationSettles(w.states[k].runners[v.actor], v.input);
  }
}
