/** A run of runners taken apart into a run of their nodes: every iteration is a few steps of one node. */
module Unfolding {
  import opened RaftTypes
  import opened NodeModel
  import opened Clusters
  import opened Histories
  import opened RunTheorems
  import opened EarnedInvariant
  import opened KeyValue
  import opened RunnerModel
  import opened RunnerProof

  // ---------- the steps behind an iteration ----------

  /** The steps with which the node of a runner takes part in an iteration, before it applies and saves. */
  function Reaction(r: Runner, input: Input): seq<Action> {
    if input.Relaunched? then [Restart(r.node.id, input.draw)]
    else if input.Proposed? && r.node.role != Leader then []
    else if ElectsNow(r.node, input) then [ActionOf(r.node.id, input), TickAt(r.node.id, input.draw)]
    else [ActionOf(r.node.id, input)]
  }

  function Applying(r: Runner, input: Input): seq<Action> {
    if Applies(r, input) then [ApplyCommitted(r.node.id)] else []
  }

  function Saving(r: Runner, input: Input): seq<Action> {
    var m := Settled(r, input).0;
    if Saves(r, input) && |m.node.log| >= m.threshold then [Compact(r.node.id)] else []
  }

  // ---------- longer runs ----------

  function Last(r: Run): Cluster
    requires r.states != []
  {
    r.states[|r.states| - 1]
  }

  /** The run with one more step, if some host can make it. */
  function Extend(r: Run, a: Action): Run {
    if r.states == [] || a.actor !in Last(r).hosts then r
    else Run(r.states + [Step(Last(r), a)], r.actions + [a])
  }

  function Extended(r: Run, actions: seq<Action>): Run
    decreases |actions|
  {
    if actions == [] then r else Extended(Extend(r, actions[0]), actions[1..])
  }

  function ClusterOf(c: RunnerCluster): Cluster {
    Cluster(c.members, map i | i in c.runners :: HostOf(c.runners[i]), c.network)
  }

  /** The run of the nodes behind the first `k` events of a run of runners. */
  function Unfolded(w: RunnerRun, k: nat): Run
    requires k <= |w.events| && k < |w.states|
  {
    if k == 0 then Run([ClusterOf(w.states[0])], [])
    else
      var before, v := Unfolded(w, k - 1), w.events[k - 1];
      if v.actor !in w.states[k - 1].runners then before
      else
        var r := w.states[k - 1].runners[v.actor];
        Extended(before, Reaction(r, v.input) + Applying(r, v.input) + Saving(r, v.input))
  }

  // ---------- storage ----------

  /** The record has what a restart needs of the node; its commit index may be one that a restart has cut back. */
  ghost predicate SavedAs(n: NodeState, s: StorageSnapshot) {
    && s.currentTerm == n.currentTerm && s.votedFor == n.votedFor && s.log == n.log
    && s.lastIncludedIndex == n.snapshotIndex && s.lastIncludedTerm == n.snapshotTerm
    && Clamp(s.commitIndex, n.snapshotIndex, n.LastLogIndex())
       == Clamp(n.commitIndex, n.snapshotIndex, n.LastLogIndex())
  }

  /** A restart from storage is a restart from what the node holds. */
  ghost predicate NodeSaved(r: Runner) {
    match r.disk
    case Some(s) => SavedAs(r.node, s)
    case None =>
      && SavedAs(r.node, FromNode(Fresh(r.node.id, r.node.peers, r.node.clock), Encoded(map[])))
      && r.node.commitIndex == 0
  }

  lemma StartsFromSaved(r: Runner, draw: nat)
    requires NodeSaved(r)
    ensures Started(r, draw).node == Restarted(r.node, draw) && Started(r, draw).full == r.full
  {
  }

  lemma StartIsSaved(r: Runner, draw: nat)
    requires NodeSaved(r)
    ensures NodeSaved(Started(r, draw))
  {
  }

  lemma ApplyingIsSaved(r: Runner)
    requires NodeSaved(r)
    ensures NodeSaved(ApplyCommittedEntries(r))
  {
    hide TakeUnapplied, Commands, ApplyAll;
    TakingKeepsLog(r.node);
  }

  /** Between iterations, storage agrees with the node, in any run. */
  lemma IterationSaves(r: Runner, input: Input)
    requires NodeSaved(r)
    ensures NodeSaved(Iterate(r, input).0)
  {
    hide ApplyCommittedEntries, MaybeCompactLog, Started, Reacted, Persist;
    if input.Relaunched? {
      ReactsToStart(r, input.draw);
      StartIsSaved(r, input.draw);
      ApplyingIsSaved(Started(r, input.draw));
    } else if !Saves(r, input) {
      ReactsByRefusing(r, input.command);
    } else {
      PersistSaves(Settled(r, input).0);
    }
  }

  lemma PersistSaves(m: Runner)
    ensures NodeSaved(Persist(m))
  {
    hide MaybeCompactLog;
  }

  // ---------- reaching the next state ----------

  /** The steps that `s` has on top of `r` turn host `i` into that of `m` and send `sent`. */
  ghost predicate Reached(r: Run, s: Run, i: NodeId, m: Runner, sent: set<Envelope>) {
    && ValidRun(s) && r.states != [] && r.states <= s.states && r.actions <= s.actions
    && Last(s) == Last(r).(hosts := Last(r).hosts[i := HostOf(m)], network := Last(r).network + sent)
  }

  /** The steps that `s` has on top of `r` keep the guard. */
  ghost predicate GuardedSince(r: Run, s: Run) {
    |s.states| == |s.actions| + 1
    && forall k :: |r.actions| <= k < |s.actions| ==>
         s.actions[k].actor in s.states[k].hosts && GuardedStep(s.states[k], s.actions[k])
  }

  ghost predicate At(r: Run, x: Runner) {
    && ValidRun(r) && |r.states| == |r.actions| + 1
    && x.node.id in Last(r).members && x.node.id in Last(r).hosts && Last(r).hosts[x.node.id] == HostOf(x)
  }

  lemma AtShape(r: Run, x: Runner)
    requires At(r, x)
    ensures x.node.snapshotIndex <= |x.full| && x.full[..x.node.snapshotIndex] + x.node.log == x.full
  {
    hide ValidRun, Traced, Sorted;
    LogAt(r, |r.states| - 1, x.node.id);
  }

  lemma ReachedAt(r: Run, s: Run, i: NodeId, m: Runner, sent: set<Envelope>)
    requires Reached(r, s, i, m, sent) && i in Last(r).members
    ensures s.states != [] && Last(s).members == Last(r).members && i in Last(s).hosts && Last(s).hosts[i] == HostOf(m)
    ensures m.node.id == i && At(s, m)
  {
    hide HostStep, Enabled, Initial, HistoryAt, Inv;
    InvAt(s, |s.states| - 1);
    ActorId(Last(s), HistoryAt(s, |s.states| - 1), i);
  }

  lemma ReachedTwice(r: Run, s: Run, t: Run, i: NodeId, m: Runner, k: Runner, sent: set<Envelope>, more: set<Envelope>)
    requires Reached(r, s, i, m, sent) && Reached(s, t, i, k, more)
    ensures Reached(r, t, i, k, sent + more)
    ensures GuardedSince(r, s) && GuardedSince(s, t) ==> GuardedSince(r, t)
  {
    hide ValidRun, GuardedStep;
    assert Last(r).hosts[i := HostOf(m)][i := HostOf(k)] == Last(r).hosts[i := HostOf(k)];
    if GuardedSince(r, s) && GuardedSince(s, t) {
      forall k | |r.actions| <= k < |t.actions|
        ensures t.actions[k].actor in t.states[k].hosts && GuardedStep(t.states[k], t.actions[k])
      {
        if k < |s.actions| { assert t.states[k] == s.states[k] && t.actions[k] == s.actions[k]; }
      }
    }
  }

  /** Nothing happens to the node. */
  lemma Stays(r: Run, x: Runner, y: Runner)
    requires At(r, x) && HostOf(y) == HostOf(x)
    ensures Reached(r, Extended(r, []), x.node.id, y, {}) && GuardedSince(r, Extended(r, []))
  {
    hide ValidRun;
    assert Last(r).hosts[x.node.id := HostOf(y)] == Last(r).hosts;
    assert Last(r).network + {} == Last(r).network;
  }

  lemma ExtendValid(r: Run, a: Action)
    requires ValidRun(r) && r.states != [] && Enabled(Last(r), a)
    ensures ValidRun(Extend(r, a)) && |r.states| == |r.actions| + 1
    ensures a.actor in Last(r).hosts && Extend(r, a) == Run(r.states + [Step(Last(r), a)], r.actions + [a])
  {
    hide Step, Initial;
    assert a.actor in Last(r).hosts;
    var s := Extend(r, a);
    hide Enabled;
    forall k | 0 <= k < |s.actions|
      ensures Enabled(s.states[k], s.actions[k]) && s.states[k + 1] == Step(s.states[k], s.actions[k])
    {
      if k < |r.actions| { assert s.states[k] == r.states[k] && s.actions[k] == r.actions[k]; }
    }
  }

  /** One step of the node. */
  lemma Takes(r: Run, x: Runner, a: Action, y: Runner, sent: set<Envelope>)
    requires At(r, x) && Enabled(Last(r), a) && a.actor == x.node.id && HostStep(HostOf(x), a) == (HostOf(y), sent)
    ensures Reached(r, Extended(r, [a]), x.node.id, y, sent)
    ensures Polite(y, sent) ==> GuardedSince(r, Extended(r, [a]))
  {
    hide HostStep, ValidRun, Enabled, NodeState.LastLogTerm;
    ExtendValid(r, a);
    var s := Extend(r, a);
    assert Extended(r, [a]) == s;
    assert Last(s) == Step(Last(r), a);
  }

  lemma {:induction false} ExtendedConcat(r: Run, a: seq<Action>, b: seq<Action>)
    ensures Extended(r, a + b) == Extended(Extended(r, a), b)
    decreases |a|
  {
    if a == [] {
      assert a + b == b;
    } else {
      assert (a + b)[0] == a[0] && (a + b)[1..] == a[1..] + b;
      ExtendedConcat(Extend(r, a[0]), a[1..], b);
    }
  }

  // ---------- iterations ----------

  ghost predicate InputOk(d: Cluster, i: NodeId, input: Input) {
    && i in d.members && i in d.hosts
    && (input.Arrived? ==> input.envelope in d.network && input.envelope.to == i)
    && (!input.Proposed? ==> DrawInRange(d.hosts[i].node.clock, input.draw))
  }

  lemma ReactionReached(r: Run, x: Runner, input: Input)
    requires At(r, x) && NodeSaved(x) && InputOk(Last(r), x.node.id, input)
    ensures var (m, sent) := Reacted(x, input);
            Reached(r, Extended(r, Reaction(x, input)), x.node.id, m, sent)
    ensures GuardOk(x, input) ==> GuardedSince(r, Extended(r, Reaction(x, input)))
  {
    hide Reacted, NodeStep, NodeSaved, Started, Extended, ValidRun, ElectsNow, NodeState.LastLogTerm, Reached,
      GuardedSince, Restarted, Polite;
    AtShape(r, x);
    if input.Relaunched? {
      ReactsToStart(x, input.draw);
      StartsFromSaved(x, input.draw);
      RestartIsStart(x, input.draw);
      Takes(r, x, Restart(x.node.id, input.draw), Started(x, input.draw), {});
    } else if input.Proposed? && x.node.role != Leader {
      ReactsByRefusing(x, input.command);
      Stays(r, x, x);
    } else if ElectsNow(x.node, input) {
      WinReached(r, x, input);
    } else {
      ReactsByAction(x, input);
      var (m, sent) := NodeStep(x.node, ActionOf(x.node.id, input));
      Takes(r, x, ActionOf(x.node.id, input), WithNode(x, m), sent);
    }
  }

  lemma RestartIsStart(x: Runner, draw: nat)
    requires Started(x, draw).node == Restarted(x.node, draw) && Started(x, draw).full == x.full
    requires x.node.snapshotIndex <= |x.full| && x.full[..x.node.snapshotIndex] + x.node.log == x.full
    ensures HostStep(HostOf(x), Restart(x.node.id, draw)) == (HostOf(Started(x, draw)), {})
  {
    hide Started;
  }

  lemma CanTake(d: Cluster, i: NodeId, input: Input)
    requires InputOk(d, i, input) && !input.Relaunched?
    ensures Enabled(d, ActionOf(i, input))
  {
  }

  /** After winning, a node can tick with the timeout drawn for the vote. */
  lemma CanTick(e: Cluster, won: Runner, x: Runner, d: Cluster, input: Input)
    requires InputOk(d, x.node.id, input) && !input.Proposed? && d.hosts[x.node.id] == HostOf(x)
    requires e.members == d.members && x.node.id in e.hosts && e.hosts[x.node.id] == HostOf(won)
    requires won.node.clock.electionTimeoutMin == x.node.clock.electionTimeoutMin
    requires won.node.clock.electionTimeoutMax == x.node.clock.electionTimeoutMax
    ensures Enabled(e, TickAt(x.node.id, input.draw))
  {
  }

  lemma ByNode(x: Runner, a: Action)
    requires !a.Compact?
    ensures var (m, sent) := NodeStep(x.node, a); HostStep(HostOf(x), a) == (HostOf(WithNode(x, m)), sent)
  {
    hide NodeStep;
  }

  lemma SilenceIsPolite(m: Runner)
    ensures Polite(m, {})
  {
  }

  /** An election won, with the tick of the same iteration. */
  lemma WinReached(r: Run, x: Runner, input: Input)
    requires At(r, x) && InputOk(Last(r), x.node.id, input) && ElectsNow(x.node, input)
    ensures var (m, sent) := Reacted(x, input);
            Reached(r, Extended(r, Reaction(x, input)), x.node.id, m, sent)
    ensures GuardOk(x, input) ==> GuardedSince(r, Extended(r, Reaction(x, input)))
  {
    assert input.Arrived? && Reaction(x, input) == [ActionOf(x.node.id, input), TickAt(x.node.id, input.draw)];
    hide Reacted, NodeStep, Extended, ValidRun, ElectsNow, Polite, Reached, GuardedSince, Reaction, WithNode, HostStep,
      Enabled, HostOf;
    AtShape(r, x);
    WinsInTwo(x, input);
    var a, b := ActionOf(x.node.id, input), TickAt(x.node.id, input.draw);
    var won := WithNode(x, NodeStep(x.node, a).0);
    CanTake(Last(r), x.node.id, input);
    ByNode(x, a);
    ByNode(won, b);
    forall e: Cluster | e.members == Last(r).members && x.node.id in e.hosts && e.hosts[x.node.id] == HostOf(won)
      ensures Enabled(e, b)
    {
      CanTick(e, won, x, Last(r), input);
    }
    TakesTwo(r, x, a, won, b, Reacted(x, input).0, Reacted(x, input).1);
  }

  /** Two steps of the node, the first of which sends nothing. */
  lemma TakesTwo(r: Run, x: Runner, a: Action, y: Runner, b: Action, z: Runner, sent: set<Envelope>)
    requires At(r, x) && a.actor == b.actor == x.node.id
    requires Enabled(Last(r), a) && HostStep(HostOf(x), a) == (HostOf(y), {})
    requires forall e: Cluster ::
               e.members == Last(r).members && x.node.id in e.hosts && e.hosts[x.node.id] == HostOf(y) ==> Enabled(e, b)
    requires HostStep(HostOf(y), b) == (HostOf(z), sent)
    ensures Reached(r, Extended(r, [a, b]), x.node.id, z, sent)
    ensures Polite(z, sent) ==> GuardedSince(r, Extended(r, [a, b]))
  {
    hide Extended, ValidRun, Polite, Reached, GuardedSince, HostStep, Enabled, HostOf;
    var i := x.node.id;
    SilenceIsPolite(y);
    Takes(r, x, a, y, {});
    var s := Extended(r, [a]);
    ReachedAt(r, s, i, y, {});
    Takes(s, y, b, z, sent);
    assert [a, b] == [a] + [b];
    ExtendedConcat(r, [a], [b]);
    ReachedTwice(r, s, Extended(s, [b]), i, y, z, {}, sent);
    assert {} + sent == sent;
  }

  lemma ApplyingReached(r: Run, x: Runner, m: Runner, input: Input)
    requires At(r, m) && m.node.id == x.node.id
    ensures var k := if Applies(x, input) then ApplyCommittedEntries(m) else m;
            var s := Extended(r, Applying(x, input));
            Reached(r, s, x.node.id, k, {}) && GuardedSince(r, s)
  {
    hide Extended, ValidRun, ApplyCommittedEntries, Reached, GuardedSince, HostStep, Applies;
    if Applies(x, input) {
      AtShape(r, m);
      ApplyingIsAction(m);
      Takes(r, m, ApplyCommitted(m.node.id), ApplyCommittedEntries(m), {});
    } else {
      Stays(r, m, m);
    }
  }

  lemma CompactingIsAction(m: Runner)
    requires |m.node.log| >= m.threshold
    ensures HostStep(HostOf(m), Compact(m.node.id)) == (HostOf(Persist(m)), {})
  {
    hide CompactCommitted;
  }

  lemma NotCompacting(m: Runner)
    requires |m.node.log| < m.threshold
    ensures HostOf(Persist(m)) == HostOf(m)
  {
  }

  lemma SavingReached(r: Run, x: Runner, input: Input)
    requires At(r, Settled(x, input).0) && Settled(x, input).0.node.id == x.node.id
    ensures var s := Extended(r, Saving(x, input));
            Reached(r, s, x.node.id, Iterate(x, input).0, {}) && GuardedSince(r, s)
  {
    hide Extended, ValidRun, Persist, Reached, GuardedSince, HostStep, Saves, Settled;
    var m := Settled(x, input).0;
    if Saves(x, input) && |m.node.log| >= m.threshold {
      CompactingIsAction(m);
      Takes(r, m, Compact(m.node.id), Persist(m), {});
    } else {
      if Saves(x, input) { NotCompacting(m); }
      Stays(r, m, Iterate(x, input).0);
    }
  }

  /** Every iteration, start included, is what the steps behind it make of the cluster. */
  lemma IterationReached(r: Run, x: Runner, input: Input)
    requires At(r, x) && NodeSaved(x) && InputOk(Last(r), x.node.id, input)
    ensures var s := Extended(r, Reaction(x, input) + Applying(x, input) + Saving(x, input));
            && Reached(r, s, x.node.id, Iterate(x, input).0, Iterate(x, input).1)
            && (GuardOk(x, input) ==> GuardedSince(r, s))
  {
    hide Extended, ValidRun, Persist, ApplyCommittedEntries, Reached, GuardedSince, Saves, Applies, Reacted, Reaction,
      Applying,
      Saving, NodeSaved, GuardOk;
    var i := x.node.id;
    var (m, sent) := Reacted(x, input);
    var settled := Settled(x, input).0;
    ReactionReached(r, x, input);
    var s := Extended(r, Reaction(x, input));
    ReachedAt(r, s, i, m, sent);
    ApplyingReached(s, x, m, input);
    var t := Extended(s, Applying(x, input));
    ReachedTwice(r, s, t, i, m, settled, sent, {});
    assert sent + {} == sent;
    ReachedAt(r, t, i, settled, sent);
    SavingReached(t, x, input);
    var u := Extended(t, Saving(x, input));
    ReachedTwice(r, t, u, i, settled, Iterate(x, input).0, sent, {});
    ExtendedConcat(r, Reaction(x, input), Applying(x, input));
    ExtendedConcat(r, Reaction(x, input) + Applying(x, input), Saving(x, input));
  }

  // ---------- runs ----------

  ghost predicate AllSaved(c: RunnerCluster) {
    forall i :: i in c.runners ==> NodeSaved(c.runners[i])
  }

  lemma InstalledUnfolds(c: RunnerCluster)
    requires Installed(c)
    ensures ValidRun(Run([ClusterOf(c)], [])) && AllSaved(c)
  {
    hide SharesMembership;
  }

  /** Event `k` of a run of runners. */
  lemma EventAt(w: RunnerRun, k: nat)
    requires ValidRunnerRun(w) && k < |w.events|
    ensures |w.states| == |w.events| + 1
    ensures CanHappen(w.states[k], w.events[k]) && w.events[k].actor in w.states[k].runners
    ensures w.states[k + 1] == After(w.states[k], w.events[k])
  {
    hide After, Installed;
  }

  lemma RunnerAt(r: Run, c: RunnerCluster, i: NodeId)
    requires ValidRun(r) && r.states != [] && Last(r) == ClusterOf(c) && i in c.runners && i in c.members
    ensures c.runners[i].node.id == i && At(r, c.runners[i])
  {
    hide HostStep, Enabled, Initial, HistoryAt, Inv;
    InvAt(r, |r.states| - 1);
    ActorId(Last(r), HistoryAt(r, |r.states| - 1), i);
  }

  lemma EventUnfolds(w: RunnerRun, k: nat)
    requires ValidRunnerRun(w) && k < |w.events| && |w.states| == |w.events| + 1
    requires ValidRun(Unfolded(w, k)) && Unfolded(w, k).states != [] && Last(Unfolded(w, k)) == ClusterOf(w.states[k])
    requires AllSaved(w.states[k])
    ensures var r, s := Unfolded(w, k), Unfolded(w, k + 1);
            && ValidRun(s) && r.states <= s.states && r.actions <= s.actions
            && Last(s) == ClusterOf(w.states[k + 1]) && AllSaved(w.states[k + 1])
            && (Guarded(w.states[k], w.events[k]) ==> GuardedSince(r, s))
  {
    hide ValidRunnerRun, ValidRun, Extended, Iterate, GuardedSince, Reaction, Applying, Saving, NodeSaved,
      NodeState.LastLogTerm, Reacted, Inv;
    EventAt(w, k);
    var c, v := w.states[k], w.events[k];
    var x := c.runners[v.actor];
    RunnerAt(Unfolded(w, k), c, v.actor);
    IterationReached(Unfolded(w, k), x, v.input);
    IterationSaves(x, v.input);
    var s := Unfolded(w, k + 1);
    assert s == Extended(Unfolded(w, k), Reaction(x, v.input) + Applying(x, v.input) + Saving(x, v.input));
    assert Last(s).hosts == ClusterOf(w.states[k + 1]).hosts;
  }

  /** A cluster of runners is a cluster of nodes: the run behind it is a run of the nodes, and passes through the states
      of the runners. */
  lemma {:induction false} RunUnfolds(w: RunnerRun, k: nat)
    requires ValidRunnerRun(w) && k <= |w.events|
    ensures |w.states| == |w.events| + 1
    ensures var r := Unfolded(w, k);
            && ValidRun(r) && |r.states| == |r.actions| + 1
            && Last(r) == ClusterOf(w.states[k]) && AllSaved(w.states[k])
    ensures GuardedRunnerRun(w) ==> GuardedRun(Unfolded(w, k))
  {
    hide AllSaved, Extended, After, CanHappen, Installed, Reaction, Applying, Saving, HostStep, Guarded;
    if k == 0 {
      InstalledUnfolds(w.states[0]);
    } else {
      RunUnfolds(w, k - 1);
      EventUnfolds(w, k - 1);
      hide Unfolded, Enabled, Initial;
      if GuardedRunnerRun(w) { GuardContinues(w, k - 1); }
    }
  }

  lemma GuardContinues(w: RunnerRun, k: nat)
    requires GuardedRunnerRun(w) && k < |w.events| && |w.states| == |w.events| + 1
    requires var r, s := Unfolded(w, k), Unfolded(w, k + 1);
             && GuardedRun(r) && ValidRun(s) && r.states <= s.states && r.actions <= s.actions
             && (Guarded(w.states[k], w.events[k]) ==> GuardedSince(r, s))
    ensures GuardedRun(Unfolded(w, k + 1))
  {
    hide Unfolded, GuardedStep, Guarded, After, Installed, Initial, Step;
    var r, s := Unfolded(w, k), Unfolded(w, k + 1);
    EventAt(w, k);
    assert Guarded(w.states[k], w.events[k]);
    forall j | 0 <= j < |s.actions|
      ensures s.actions[j].actor in s.states[j].hosts && GuardedStep(s.states[j], s.actions[j])
    {
      if j < |r.actions| { assert s.states[j] == r.states[j] && s.actions[j] == r.actions[j]; }
    }
  }
}
