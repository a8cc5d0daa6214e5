/** What the theorems about nodes say about clusters of runners, and what they mean for the stores, over whole runs with
    restarts. */
module RunnerTheorems {
  import opened RaftTypes
  import opened NodeModel
  import opened Clusters
  import opened Histories
  import opened HostLemmas
  import opened LeaderSteps
  import opened RunInvariant
  import opened RunTheorems
  import opened EarnedInvariant
  import opened EarnedTheorems
  import opened SoundRuns
  import opened GuardedRuns
  import opened KeyValue
  import opened RunnerModel
  import opened RunnerProof
  import opened RunnerStores
  import opened Unfolding

  // ---------- the run behind a run ----------

  /** The run of the nodes behind a run of runners. */
  function Behind(w: RunnerRun): Run {
    if |w.states| == |w.events| + 1 then Unfolded(w, |w.events|) else Run([], [])
  }

  /** The state of the run behind that corresponds to state `k`. */
  function Moment(w: RunnerRun, k: nat): nat
    requires k <= |w.events| && k < |w.states|
  {
    |Unfolded(w, k).actions|
  }

  lemma {:induction false} UnfoldingGrows(w: RunnerRun, j: nat, k: nat)
    requires ValidRunnerRun(w) && j <= k <= |w.events|
    ensures |w.states| == |w.events| + 1
    ensures Unfolded(w, j).states <= Unfolded(w, k).states && Unfolded(w, j).actions <= Unfolded(w, k).actions
    decreases k
  {
    hide ValidRunnerRun, Unfolded, GuardedSince, AllSaved, ValidRun, Guarded;
    RunUnfolds(w, k);
    if j < k {
      UnfoldingGrows(w, j, k - 1);
      RunUnfolds(w, k - 1);
      EventUnfolds(w, k - 1);
    }
  }

  /** The runners in state `k`, as the hosts of the run behind. */
  lemma Seen(w: RunnerRun, j: nat, k: nat)
    requires ValidRunnerRun(w) && j <= k < |w.states|
    ensures |w.states| == |w.events| + 1
    ensures Moment(w, j) <= Moment(w, k) < |Behind(w).states| && ValidRun(Behind(w))
    ensures Behind(w).states[Moment(w, j)] == ClusterOf(w.states[j])
    ensures Behind(w).states[Moment(w, k)] == ClusterOf(w.states[k])
  {
    hide ValidRunnerRun, Unfolded, AllSaved, ValidRun, GuardedRunnerRun, GuardedRun;
    assert k <= |w.events| by { MoreStatesThanEvents(w); }
    UnfoldingGrows(w, j, k);
    UnfoldingGrows(w, k, |w.events|);
    RunUnfolds(w, j);
    RunUnfolds(w, k);
    RunUnfolds(w, |w.events|);
  }

  lemma MoreStatesThanEvents(w: RunnerRun)
    requires ValidRunnerRun(w)
    ensures |w.states| == |w.events| + 1
  {
  }

  // ---------- every run ----------

  /** Runner `i` leads `term` in state `k`. */
  ghost predicate RunnerLeads(w: RunnerRun, k: nat, i: NodeId, term: Term) {
    && k < |w.states| && i in w.states[k].runners
    && w.states[k].runners[i].node.role == Leader && w.states[k].runners[i].node.currentTerm == term
  }

  /** Election Safety of runners. */
  lemma RunnersElectionSafety(w: RunnerRun, j: nat, k: nat, a: NodeId, b: NodeId, term: Term)
    requires ValidRunnerRun(w) && j <= k && RunnerLeads(w, j, a, term) && RunnerLeads(w, k, b, term)
    ensures a == b
  {
    hide ValidRunnerRun, Behind, Moment, ValidRun;
    Seen(w, j, k);
    ElectionSafety(Behind(w), Moment(w, j), Moment(w, k), a, b, term);
  }

  /** Log Matching of runners. */
  lemma RunnersLogMatching(w: RunnerRun, j: nat, k: nat, a: NodeId, b: NodeId, index: nat)
    requires ValidRunnerRun(w) && j <= k < |w.states| && a in w.states[j].runners && b in w.states[k].runners
    requires var la, lb := w.states[j].runners[a].full, w.states[k].runners[b].full;
             1 <= index <= |la| && index <= |lb| && la[index - 1].term == lb[index - 1].term
    ensures w.states[j].runners[a].full[..index] == w.states[k].runners[b].full[..index]
  {
    hide ValidRunnerRun, Behind, Moment, ValidRun;
    Seen(w, j, k);
    LogMatching(Behind(w), Moment(w, j), Moment(w, k), a, b, index);
  }

  /** Leader Append-Only of runners. */
  lemma RunnersAppendOnly(w: RunnerRun, j: nat, k: nat, a: NodeId, term: Term)
    requires ValidRunnerRun(w) && j <= k && RunnerLeads(w, j, a, term) && RunnerLeads(w, k, a, term)
    ensures w.states[j].runners[a].full <= w.states[k].runners[a].full
  {
    hide ValidRunnerRun, Behind, Moment, ValidRun;
    Seen(w, j, k);
    LeaderAppendOnly(Behind(w), Moment(w, j), Moment(w, k), a, term);
  }

  // ---------- earned, sound and guarded runs ----------

  /** A run of runners in which every commit of a leader is earned. */
  ghost predicate EarnedRunnerRun(w: RunnerRun) {
    ValidRunnerRun(w) && EarnedRun(Behind(w))
  }

  /** A run of runners in which every acknowledgement is sound. */
  ghost predicate SoundRunnerRun(w: RunnerRun) {
    ValidRunnerRun(w) && SoundRun(Behind(w))
  }

  /** The guard of the runners is that of the nodes; it makes acknowledgements sound, and these make commits earned. */
  lemma GuardedIsSoundIsEarned(w: RunnerRun)
    ensures GuardedRunnerRun(w) ==> SoundRunnerRun(w)
    ensures SoundRunnerRun(w) ==> EarnedRunnerRun(w)
  {
    if GuardedRunnerRun(w) {
      hide ValidRunnerRun, Unfolded, GuardedRun, SoundRun, EarnedRun, ValidRun, AllSaved, CanHappen, Guarded;
      MoreStatesThanEvents(w);
      RunUnfolds(w, |w.events|);
      GuardedRunIsSound(Behind(w));
    }
    if SoundRunnerRun(w) {
      hide ValidRunnerRun, Behind, SoundRun, EarnedRun;
      SoundRunIsEarned(Behind(w));
    }
  }

  /** State Machine Safety of runners. */
  lemma RunnersAgree(w: RunnerRun, j: nat, k: nat, a: NodeId, b: NodeId)
    requires EarnedRunnerRun(w) && j <= k < |w.states| && a in w.states[j].runners && b in w.states[k].runners
    ensures var x, y := w.states[j].runners[a], w.states[k].runners[b];
            var common := Min(x.node.commitIndex, y.node.commitIndex);
            common <= |x.full| && common <= |y.full| && x.full[..common] == y.full[..common]
  {
    hide ValidRunnerRun, Behind, Moment, ValidRun, EarnedRun;
    Seen(w, j, k);
    StateMachineSafety(Behind(w), Moment(w, j), Moment(w, k), a, b);
  }

  /** Leader Completeness of runners. */
  lemma RunnersCompleteness(w: RunnerRun, j: nat, k: nat, a: NodeId, b: NodeId, term: Term)
    requires EarnedRunnerRun(w) && j < |w.states| && a in w.states[j].runners && RunnerLeads(w, k, b, term)
    requires term > w.states[j].runners[a].node.currentTerm
             || (term == w.states[j].runners[a].node.currentTerm && j <= k)
    ensures var x, y := w.states[j].runners[a], w.states[k].runners[b];
            var index := x.node.commitIndex;
            index <= |x.full| && index <= |y.full| && x.full[..index] == y.full[..index]
  {
    hide ValidRunnerRun, Behind, Moment, ValidRun, EarnedRun;
    if j <= k { Seen(w, j, k); } else { Seen(w, k, j); }
    LeaderCompleteness(Behind(w), Moment(w, j), Moment(w, k), a, b, term);
  }

  /** When commits are earned, no runner truncates what it has committed, so all that holds of loss-free runs holds. */
  lemma EarnedRunLosesNothing(w: RunnerRun)
    requires EarnedRunnerRun(w)
    ensures LossFreeRun(w)
  {
    hide LosesNothing, After, Installed, EarnedRun, Behind, CanHappen;
    forall k | 0 <= k < |w.events|
      ensures w.events[k].actor in w.states[k].runners
      ensures LosesNothing(w.states[k].runners[w.events[k].actor], w.events[k].input)
    {
      EventLosesNothing(w, k);
    }
  }

  lemma EventLosesNothing(w: RunnerRun, k: nat)
    requires EarnedRunnerRun(w) && k < |w.events|
    ensures k < |w.states| && w.events[k].actor in w.states[k].runners
    ensures LosesNothing(w.states[k].runners[w.events[k].actor], w.events[k].input)
  {
    hide ValidRunnerRun, Behind, Moment, ValidRun, EarnedRun, Reacted, Iterate, CanHappen;
    EventAt(w, k);
    Seen(w, k, k + 1);
    var i := w.events[k].actor;
    NeverBack(Behind(w), Moment(w, k), Moment(w, k + 1), i);
    OnlyReactingMovesLog(w.states[k].runners[i], w.events[k].input);
  }

  /** Applying and saving leave the full log alone. */
  lemma OnlyReactingMovesLog(r: Runner, input: Input)
    ensures Iterate(r, input).0.full == Reacted(r, input).0.full
  {
    hide Reacted, TakeUnapplied, CompactCommitted, Commands, ApplyAll;
  }

  /** Replicated state: of any two runners at any moments, with any restarts in between, the one that has committed
      less holds a store from which the other's is reached by the commands in between; at equal commit indexes the
      stores are equal. */
  lemma ReplicatedStores(w: RunnerRun, j: nat, k: nat, a: NodeId, b: NodeId)
    requires EarnedRunnerRun(w) && j <= k < |w.states| && a in w.states[j].runners && b in w.states[k].runners
    ensures var x, y := w.states[j].runners[a], w.states[k].runners[b];
            var m, n := x.node.commitIndex, y.node.commitIndex;
            && m <= |x.full| && n <= |y.full|
            && (m <= n ==> x.full[..m] == y.full[..m] && y.store == ApplyAll(x.store, Commands(y.full[m..n])))
            && (n <= m ==> x.full[..n] == y.full[..n] && x.store == ApplyAll(y.store, Commands(x.full[n..m])))
            && (m == n ==> x.store == y.store)
  {
    hide EarnedRunnerRun, LossFreeRun, ApplyAll, Commands;
    RunnersAgree(w, j, k, a, b);
    EarnedRunLosesNothing(w);
    StoreReflectsCommitted(w, j, a);
    StoreReflectsCommitted(w, k, b);
    var x, y := w.states[j].runners[a], w.states[k].runners[b];
    var m, n := x.node.commitIndex, y.node.commitIndex;
    if m <= n { ApplySlice(y.full, m, n); }
    if n <= m { ApplySlice(x.full, n, m); }
  }

  // ---------- what a new leader sends ----------

  /** A leader that has just won beats at once exactly with an interval of at most 1. */
  lemma WinnerBeats(r: Runner, input: Input)
    requires ElectsNow(r.node, input) && r.node.peers != []
    ensures var (m, sent) := Reacted(r, input);
            && (exists e :: e in sent && e.message.AppendRequest?) == (r.node.clock.heartbeatInterval <= 1)
            && m.node.currentTerm == r.node.currentTerm && m.node.LastLogTerm() == r.node.LastLogTerm()
  {
    hide Heartbeats, AppendEntriesFor, SetAll;
    var n := HandleRequestVoteResponse(r.node, input.envelope.message.voteReply, input.draw).0;
    var t := n.(clock := n.clock.(heartbeatElapsed := 0));
    if r.node.clock.heartbeatInterval <= 1 {
      FirstBeat(t);
      assert Envelope(r.node.id, t.peers[0], AppendRequest(AppendEntriesFor(t, t.peers[0]).value))
          in Posted(r.node.id, Heartbeats(t, t.peers)) by { FirstPosted(r.node.id, t); }
    }
  }

  lemma FirstBeat(n: NodeState)
    requires n.peers != [] && n.peers[0] in n.nextIndex && n.nextIndex[n.peers[0]] == n.LastLogIndex() + 1
    ensures AppendEntriesFor(n, n.peers[0]).Some?
    ensures var m := AppendEntriesFor(n, n.peers[0]).value; SendAppendEntries(n.peers[0], m) in Heartbeats(n, n.peers)
  {
  }

  lemma FirstPosted(from: NodeId, n: NodeState)
    requires n.peers != [] && AppendEntriesFor(n, n.peers[0]).Some?
    requires var m := AppendEntriesFor(n, n.peers[0]).value; SendAppendEntries(n.peers[0], m) in Heartbeats(n, n.peers)
    ensures Envelope(from, n.peers[0], AppendRequest(AppendEntriesFor(n, n.peers[0]).value))
         in Posted(from, Heartbeats(n, n.peers))
  {
    hide AppendEntriesFor, Heartbeats;
  }

  /** A candidate that wins has no entry of its term yet. */
  lemma WinnersLogIsOlder(c: Cluster, h: History, i: NodeId, e: Envelope, draw: nat)
    requires Inv(c, h) && i in c.hosts && e in c.network && e.to == i && e.message.VoteReply?
    requires HandleRequestVoteResponse(c.hosts[i].node, e.message.voteReply, draw).1
    ensures c.hosts[i].node.LastLogTerm() < c.hosts[i].node.currentTerm
  {
    hide Inv, HistoryOk, MessageOk, HostShape, Traced, VotesFor;
    var x, resp := c.hosts[i], e.message.voteReply;
    ActorFacts(c, h, i);
    KnownMessage(c, h, e);
    ReplyCases(x.node, resp, draw);
    VotesAfterReply(i, x, e, c.network, c.members, h);
    assert SharesMembership(x.node, c.members) by { OfMembers(i, x, c.members); }
    MajorityIsMajority(x.node, c.members);
    NoRival(c, h, i, Counting(x.node, resp).votes);
    TermAtFull(x, i, c.members, 0);
    if x.full != [] { LastTermRecorded(h, c.members, x.full); }
    assert x.node.currentTerm >= 1 by { VotedTermPositive(h, c.members, i, x.node.currentTerm); }
  }

  lemma OfMembers(i: NodeId, x: Host, members: set<NodeId>)
    requires HostShape(i, x, members)
    ensures SharesMembership(x.node, members)
  {
  }

  lemma LastTermRecorded(h: History, members: set<NodeId>, log: seq<LogEntry>)
    requires HistoryOk(h, members) && Traced(log, h.leaderLogs) && log != []
    ensures LastTermOf(log) in h.elections
  {
  }

  /** The guard at an election, exactly: in any run, a new leader with a peer keeps the guard in the iteration in which
      it wins if and only if its heartbeat interval is more than 1. */
  lemma WinKeepsGuard(w: RunnerRun, k: nat)
    requires ValidRunnerRun(w) && k < |w.events| && k < |w.states| && w.events[k].actor in w.states[k].runners
    requires ElectsNow(w.states[k].runners[w.events[k].actor].node, w.events[k].input)
    requires w.states[k].runners[w.events[k].actor].node.peers != []
    ensures Guarded(w.states[k], w.events[k]) <==>
            w.states[k].runners[w.events[k].actor].node.clock.heartbeatInterval > 1
  {
    hide ValidRunnerRun, Behind, Moment, ValidRun, Reacted, HandleRequestVoteResponse, NodeState.LastLogTerm, HistoryAt,
      Inv;
    EventAt(w, k);
    Seen(w, k, k);
    var r, v := w.states[k].runners[w.events[k].actor], w.events[k];
    InvAt(Behind(w), Moment(w, k));
    var c, h := ClusterOf(w.states[k]), HistoryAt(Behind(w), Moment(w, k));
    WinnersLogIsOlder(c, h, v.actor, v.input.envelope, v.input.draw);
    WinnerBeats(r, v.input);
  }
}
