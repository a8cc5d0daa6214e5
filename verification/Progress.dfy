/** Replication never undoes itself, in any run. */
module Progress {
  import opened RaftTypes
  import opened NodeModel
  import opened Clusters
  import opened Histories
  import opened LeaderSteps
  import opened RunInvariant
  import opened LogSteps
  import opened RunTheorems

  /** The first `common` entries of the node's log are those of the leader of `term`. */
  ghost predicate Shares(full: seq<LogEntry>, h: History, term: Term, common: nat) {
    && term in h.leaderLogs && common <= |full| && common <= |h.leaderLogs[term]|
    && full[..common] == h.leaderLogs[term][..common]
  }

  lemma SharesGrows(full: seq<LogEntry>, h: History, g: History, term: Term, common: nat)
    requires Shares(full, h, term, common) && Grows(h, g)
    ensures Shares(full, g, term, common)
  {
    assert h.leaderLogs[term][..common] == g.leaderLogs[term][..common];
  }

  lemma AcceptedShares(full: seq<LogEntry>, req: AppendEntries, merged: seq<LogEntry>, h: History, common: nat)
    requires Shares(full, h, req.term, common) && Accepted(full, req, merged, h.leaderLogs[req.term])
    ensures Shares(merged, h, req.term, common)
  {
    AcceptedKeepsShared(full, req, merged, h.leaderLogs[req.term], common);
  }

  /** An append leaves the shared part in place. */
  lemma AppendShares(c: Cluster, h: History, i: NodeId, e: Envelope, draw: nat, common: nat)
    requires Inv(c, h) && i in c.hosts && e in c.network && e.to == i && e.message.AppendRequest?
    requires Shares(c.hosts[i].full, h, e.message.append.term, common)
    requires e.message.append.term >= c.hosts[i].node.currentTerm
    ensures var n := c.hosts[i].node;
            && n.snapshotIndex <= |c.hosts[i].full|
            && Shares(c.hosts[i].full[..n.snapshotIndex] + HandleAppendEntries(n, e.message.append, draw).0.log,
                      h, e.message.append.term, common)
  {
    hide Inv, Accepted, HandleAppendEntries, Shares;
    var x, req := c.hosts[i], e.message.append;
    AppendAcross(c, h, i, e, draw);
    if HandleAppendEntries(x.node, req, draw).1.success {
      var merged := x.full[..x.node.snapshotIndex] + HandleAppendEntries(x.node, req, draw).0.log;
      AcceptedShares(x.full, req, merged, h, common);
    }
  }

  /** A step of the node itself, as long as it stays in the term. */
  lemma StepShares(c: Cluster, h: History, a: Action, common: nat)
    requires Inv(c, h) && Enabled(c, a)
    requires Shares(c.hosts[a.actor].full, h, c.hosts[a.actor].node.currentTerm, common)
    requires Step(c, a).hosts[a.actor].node.currentTerm == c.hosts[a.actor].node.currentTerm
    ensures var y := Step(c, a).hosts[a.actor];
            Shares(y.full, Observe(h, a.actor, y), y.node.currentTerm, common)
  {
    hide Inv, Observe, Grows, Shares, HandleAppendEntries, DeliverTo, Posted, ProposeCommand, Tick, StartElection,
      TakeUnapplied, CompactCommitted, Restarted;
    var i := a.actor;
    var x, y := c.hosts[i], Step(c, a).hosts[i];
    Known(c, h, i);
    FullStays(i, x, c.members);
    hide HostShape, LogTies, VoteTies, RoleTies;
    StepKeepsInv(c, h, a);
    var g := Observe(h, i, y);
    var term := x.node.currentTerm;
    if a.Deliver? && a.envelope.message.AppendRequest? {
      var e := a.envelope;
      if e.message.append.term >= term {
        TermAfter(x.node, e.message.append, a.draw);
        AppendedHost(x, a);
        AppendShares(c, h, i, e, a.draw, common);
      } else {
        StaleKeepsLog(x.node, a);
      }
      SharesGrows(y.full, h, g, term, common);
    } else if a.Propose? && x.node.role == Leader {
      SharesGrows(x.full, h, g, term, common);
      assert x.full <= y.full by { ProposalExtends(x, a); }
      SharesMore(x.full, y.full, g, term, common);
    } else {
      if !a.Compact? { LogUntouched(x.node, a); }
      SharesGrows(x.full, h, g, term, common);
    }
  }

  lemma SharesMore(a: seq<LogEntry>, b: seq<LogEntry>, h: History, term: Term, common: nat)
    requires Shares(a, h, term, common) && a <= b
    ensures Shares(b, h, term, common)
  {
  }

  /** The last of the first `k` steps of a run, as seen by node `a`. */
  lemma LastStep(r: Run, k: nat, a: NodeId)
    requires ValidRun(r) && 0 < k < |r.states| && a in r.states[0].members
    ensures |r.states| == |r.actions| + 1
    ensures var c, action := r.states[k - 1], r.actions[k - 1];
            && Enabled(c, action) && a in c.hosts && a in r.states[k].hosts
            && r.states[k] == Step(c, action) && (action.actor != a ==> r.states[k].hosts[a] == c.hosts[a])
            && HistoryAt(r, k) == Observe(HistoryAt(r, k - 1), action.actor, r.states[k].hosts[action.actor])
            && Inv(c, HistoryAt(r, k - 1)) && Grows(HistoryAt(r, k - 1), HistoryAt(r, k))
  {
    hide Inv, Observe, Grows, HostStep;
    HostsFixed(r, k - 1, k);
    InvAt(r, k - 1);
    InvAt(r, k);
  }

  /** Follower progress never regresses: while a node stays in a term whose leader is known, the part of its log that it
      shares with that leader's log never shrinks, whatever requests arrive, in any order and any number of times. */
  lemma {:induction false} ProgressNeverRegresses(r: Run, j: nat, k: nat, a: NodeId, common: nat)
    requires ValidRun(r) && j <= k < |r.states| && a in r.states[j].hosts && a in r.states[k].hosts
    requires r.states[k].hosts[a].node.currentTerm == r.states[j].hosts[a].node.currentTerm
    requires Shares(r.states[j].hosts[a].full, HistoryAt(r, j), r.states[j].hosts[a].node.currentTerm, common)
    ensures Shares(r.states[k].hosts[a].full, HistoryAt(r, k), r.states[k].hosts[a].node.currentTerm, common)
    decreases k
  {
    hide ValidRun, Inv, Observe, Grows, Shares, HostStep, Enabled, HistoryAt;
    if j < k {
      HostsFixed(r, j, k - 1);
      TermsNeverBack(r, j, k - 1, a);
      TermsNeverBack(r, k - 1, k, a);
      ProgressNeverRegresses(r, j, k - 1, a, common);
      LastStep(r, k, a);
      if r.actions[k - 1].actor == a {
        StepShares(r.states[k - 1], HistoryAt(r, k - 1), r.actions[k - 1], common);
      } else {
        var x := r.states[k - 1].hosts[a];
        SharesGrows(x.full, HistoryAt(r, k - 1), HistoryAt(r, k), x.node.currentTerm, common);
      }
    }
  }

  lemma {:induction false} TermsNeverBack(r: Run, j: nat, k: nat, a: NodeId)
    requires ValidRun(r) && j <= k < |r.states| && a in r.states[j].hosts
    ensures a in r.states[k].hosts && r.states[j].hosts[a].node.currentTerm <= r.states[k].hosts[a].node.currentTerm
    decreases k
  {
    hide ValidRun, NodeStep, Enabled, HistoryAt, Inv, Grows, Observe;
    HostsFixed(r, j, k);
    if j < k {
      TermsNeverBack(r, j, k - 1, a);
      LastStep(r, k, a);
      var c, action := r.states[k - 1], r.actions[k - 1];
      if action.actor == a { TermsForward(c.hosts[a].node, action); }
    }
  }
}
