/** That leaders commit only what a majority has held is less than that every acknowledgement is sound. */
module EarnedIsMore {
  import opened RaftTypes
  import opened NodeModel
  import opened Clusters
  import opened Histories
  import opened RunTheorems
  import opened Holdings
  import opened Commitment
  import opened EarnedInvariant
  import opened Acknowledgement
  import opened SoundRuns
  import opened RunnerModel
  import opened RunnerProof
  import opened Unfolding
  import opened RunnerTheorems
  import opened ThreeNodes
  import opened Counterexample

  /** The step delivers the report of an acceptance. */
  predicate Reports(a: Action) {
    a.Deliver? && a.envelope.message.AppendReply? && a.envelope.message.appendReply.success
  }

  lemma {:induction false} ExtendedBy(r: Run, actions: seq<Action>)
    requires (forall a :: a in r.actions ==> !Reports(a)) && (forall a :: a in actions ==> !Reports(a))
    ensures forall a :: a in Extended(r, actions).actions ==> !Reports(a)
    decreases |actions|
  {
    if actions != [] {
      ExtendedBy(Extend(r, actions[0]), actions[1..]);
    }
  }

  lemma {:induction false} NoReportsBehind(w: RunnerRun, k: nat)
    requires NoReports(w) && k <= |w.events| && k < |w.states|
    ensures forall a :: a in Unfolded(w, k).actions ==> !Reports(a)
  {
    hide ElectsNow, Applies, Saves, Settled, Extended;
    if k > 0 {
      NoReportsBehind(w, k - 1);
      var v := w.events[k - 1];
      if v.actor in w.states[k - 1].runners {
        var r := w.states[k - 1].runners[v.actor];
        ExtendedBy(Unfolded(w, k - 1), Reaction(r, v.input) + Applying(r, v.input) + Saving(r, v.input));
      }
    }
  }

  /** Among several nodes, a leader that hears of no acceptance commits nothing. */
  lemma SilentKeepsCommit(n: NodeState, a: Action)
    requires !Reports(a) && |n.peers| == 2
    ensures NodeStep(n, a).0.role == Leader ==> NodeStep(n, a).0.commitIndex == n.commitIndex
  {
    hide NodeStep, AdvanceCommit, RecordSuccess;
    LeaderMoves(n, a);
    if a.Propose? { KeepsPeers(n, a); }
  }

  lemma KeepsPeers(n: NodeState, a: Action)
    requires a.Propose?
    ensures NodeStep(n, a).0.peers == n.peers
  {
    hide Heartbeats, Posted;
  }

  lemma SilentStepIsEarned(r: Run, k: nat)
    requires ValidRun(r) && k < |r.actions| && k < |r.states| && !Reports(r.actions[k]) && |r.states[0].members| == 3
    ensures r.actions[k].actor in r.states[k].hosts && EarnedStep(r.states[k], HeldAt(r, k), r.actions[k])
  {
    hide NodeStep, HistoryAt, HeldAt, Initial, Chosen, Traced, Sorted, Reports;
    var a := r.actions[k];
    EnabledActor(r.states[k], a);
    InvAt(r, k);
    LogAt(r, k, a.actor);
    SilentKeepsCommit(r.states[k].hosts[a.actor].node, a);
  }

  lemma QuietRunIsEarned(w: RunnerRun)
    requires ValidRunnerRun(w) && NoReports(w) && |w.states[0].members| == 3
    ensures EarnedRunnerRun(w)
  {
    hide ValidRunnerRun, NoReports, ValidRun, EarnedStep, Unfolded;
    var r := Behind(w);
    MoreStatesThanEvents(w);
    Seen(w, 0, 0);
    NoReportsBehind(w, |w.events|);
    assert r.states[0].members == w.states[0].members by { StartsAs(w); }
    assert |r.states| == |r.actions| + 1 by { MoreStates(r); }
    forall k | 0 <= k < |r.actions|
      ensures r.actions[k].actor in r.states[k].hosts && EarnedStep(r.states[k], HeldAt(r, k), r.actions[k])
    {
      SilentStepIsEarned(r, k);
    }
  }

  lemma StartsAs(w: RunnerRun)
    requires ValidRunnerRun(w)
    ensures Behind(w).states != [] && Behind(w).states[0].members == w.states[0].members
  {
    hide ValidRunnerRun, ValidRun;
    MoreStatesThanEvents(w);
    Seen(w, 0, 0);
    assert Moment(w, 0) == 0;
  }

  /** In a sound run, no report reaches beyond the log of the leader it is for. */
  lemma ReportedWithin(w: RunnerRun, k: nat, e: Envelope, b: NodeId)
    requires SoundRunnerRun(w) && k < |w.states| && e in w.states[k].network
    requires e.message.AppendReply? && e.message.appendReply.success && RunnerLeads(w, k, b, e.message.appendReply.term)
    ensures e.message.appendReply.matchIndex <= |w.states[k].runners[b].full|
  {
    hide ValidRunnerRun, Behind, Moment, ValidRun, SoundRun, HistoryAt, HeldAt;
    var r := Behind(w);
    Seen(w, k, k);
    SoundInvAt(r, Moment(w, k));
    assert ReplyTies(e, HeldAt(r, Moment(w, k)), HistoryAt(r, Moment(w, k)));
    LeaderAt(r, Moment(w, k), b, e.message.appendReply.term);
  }

  /** Earning commits asks for less than sound acknowledgements: an over-report that nobody has counted yet. */
  lemma EarnedIsMore() returns (w: RunnerRun)
    ensures EarnedRunnerRun(w) && !SoundRunnerRun(w)
  {
    hide Trio, ValidRunnerRun, EarnedRunnerRun, SoundRunnerRun, GuardedRunnerRun, NoReports, FreshNext, FreshMatch;
    var d1, d2, d3;
    w, d1, d2, d3 := OverReport();
    EndsAt(w, d1, d2, d3);
    assert w.states[0].members == {1, 2, 3} by { MembersStay(w, |w.events|); }
    QuietRunIsEarned(w);
    if SoundRunnerRun(w) {
      ReportedWithin(w, |w.events|, Reply(1, 2, 3, true, 2), 2);
    }
  }

  lemma {:induction false} MembersStay(w: RunnerRun, k: nat)
    requires ValidRunnerRun(w) && k < |w.states|
    ensures w.states[k].members == w.states[0].members
  {
    hide Installed, CanHappen, Iterate;
    if k > 0 {
      MembersStay(w, k - 1);
    }
  }
}
