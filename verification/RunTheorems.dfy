/** What holds over whole runs, with any loss, duplication and reordering of messages, compaction and restarts. */
module RunTheorems {
  import opened RaftTypes
  import opened LogMerge
  import opened NodeModel
  import opened Clusters
  import opened Histories
  import opened HostLemmas
  import opened LeaderSteps
  import opened RunInvariant

  lemma InitialInv(c: Cluster)
    requires Initial(c)
    ensures Inv(c, Nothing)
  {
  }

  lemma {:induction false} InvAt(r: Run, k: nat)
    requires ValidRun(r) && k < |r.states|
    ensures Inv(r.states[k], HistoryAt(r, k))
    ensures k > 0 ==> Grows(HistoryAt(r, k - 1), HistoryAt(r, k))
    ensures r.states[k].members == r.states[0].members
  {
    hide Inv, Observe, Grows, Enabled, HostStep;
    if k == 0 {
      InitialInv(r.states[0]);
    } else {
      InvAt(r, k - 1);
      StepKeepsInv(r.states[k - 1], HistoryAt(r, k - 1), r.actions[k - 1]);
    }
  }

  lemma {:induction false} HistoryGrows(r: Run, j: nat, k: nat)
    requires ValidRun(r) && j <= k < |r.states|
    ensures Grows(HistoryAt(r, j), HistoryAt(r, k))
    decreases k
  {
    hide Observe, Grows, ValidRun;
    if j == k {
      GrowsRefl(HistoryAt(r, j));
    } else {
      HistoryGrows(r, j, k - 1);
      InvAt(r, k);
      GrowsTransitive(HistoryAt(r, j), HistoryAt(r, k - 1), HistoryAt(r, k));
    }
  }

  lemma GrowsRefl(h: History)
    ensures Grows(h, h)
  {
  }

  lemma HostsFixed(r: Run, j: nat, k: nat)
    requires ValidRun(r) && j < |r.states| && k < |r.states|
    ensures r.states[j].hosts.Keys == r.states[k].hosts.Keys == r.states[0].members
  {
    hide ValidRun, HistoryAt, HistoryOk, HostOk, MessageOk;
    InvAt(r, j);
    InvAt(r, k);
  }

  /** Node `i` leads `term` in state `k` of the run. */
  ghost predicate Leads(r: Run, k: nat, i: NodeId, term: Term) {
    && k < |r.states|
    && i in r.states[k].hosts
    && r.states[k].hosts[i].node.role == Leader
    && r.states[k].hosts[i].node.currentTerm == term
  }

  lemma LeaderAt(r: Run, k: nat, i: NodeId, term: Term)
    requires ValidRun(r) && Leads(r, k, i, term)
    ensures var h := HistoryAt(r, k);
            && term in h.elections && h.elections[term].leader == i
            && term in h.leaderLogs && h.leaderLogs[term] == r.states[k].hosts[i].full
  {
    hide Inv, HistoryOk, HostShape, LogTies, VoteTies, ValidRun;
    InvAt(r, k);
    ActorFacts(r.states[k], HistoryAt(r, k), i);
  }

  lemma LogAt(r: Run, k: nat, i: NodeId)
    requires ValidRun(r) && k < |r.states| && i in r.states[k].hosts
    ensures Traced(r.states[k].hosts[i].full, HistoryAt(r, k).leaderLogs)
    ensures Sorted(r.states[k].hosts[i].full)
    ensures LastTermOf(r.states[k].hosts[i].full) <= r.states[k].hosts[i].node.currentTerm
    ensures HostShape(i, r.states[k].hosts[i], r.states[k].members)
  {
    hide Inv, HistoryOk, HostShape, RoleTies, VoteTies, ValidRun, Traced, Sorted;
    InvAt(r, k);
    ActorFacts(r.states[k], HistoryAt(r, k), i);
    TracedSorted(HistoryAt(r, k), r.states[k].members, r.states[k].hosts[i].full);
  }

  // ---------- the safety properties of all runs ----------

  /** Election Safety: no two nodes lead the same term, at the same or at different moments. */
  lemma ElectionSafety(r: Run, j: nat, k: nat, a: NodeId, b: NodeId, term: Term)
    requires ValidRun(r) && j <= k
    requires Leads(r, j, a, term) && Leads(r, k, b, term)
    ensures a == b
  {
    hide ValidRun, HistoryAt;
    LeaderAt(r, j, a, term);
    LeaderAt(r, k, b, term);
    HistoryGrows(r, j, k);
  }

  /** Log Matching: logs of any nodes at any moments that have an entry of the same term at an index are the same
      up to it. */
  lemma LogMatching(r: Run, j: nat, k: nat, a: NodeId, b: NodeId, index: nat)
    requires ValidRun(r) && j <= k < |r.states| && a in r.states[j].hosts && b in r.states[k].hosts
    requires var la, lb := r.states[j].hosts[a].full, r.states[k].hosts[b].full;
             1 <= index <= |la| && index <= |lb| && la[index - 1].term == lb[index - 1].term
    ensures var la, lb := r.states[j].hosts[a].full, r.states[k].hosts[b].full;
            la[..index] == lb[..index]
  {
    hide ValidRun, HistoryAt, Traced, Sorted, HostShape;
    LogAt(r, j, a);
    LogAt(r, k, b);
    HistoryGrows(r, j, k);
    var la, lb := r.states[j].hosts[a].full, r.states[k].hosts[b].full;
    TracedGrows(la, HistoryAt(r, j).leaderLogs, HistoryAt(r, k).leaderLogs);
    TracedMatch(la, lb, HistoryAt(r, k).leaderLogs, index);
  }

  /** Leader Append-Only: while a node leads a term, its earlier log is a prefix of its later one. */
  lemma LeaderAppendOnly(r: Run, j: nat, k: nat, a: NodeId, term: Term)
    requires ValidRun(r) && j <= k
    requires Leads(r, j, a, term) && Leads(r, k, a, term)
    ensures r.states[j].hosts[a].full <= r.states[k].hosts[a].full
  {
    hide ValidRun, HistoryAt;
    LeaderAt(r, j, a, term);
    LeaderAt(r, k, a, term);
    HistoryGrows(r, j, k);
  }

  // ---------- the election restriction, with content ----------

  /** Node `u` gave its vote of `term` to `candidate` by state `k`, with full log `log` at that moment. */
  ghost predicate Voted(r: Run, k: nat, u: NodeId, term: Term, candidate: NodeId, log: seq<LogEntry>) {
    exists j :: 0 < j <= k < |r.states| && CastAt(r.states[j - 1], r.states[j], u, term, candidate, log)
  }

  /** Between two states node `u` casts its vote: before, it was in another term or had not voted. */
  ghost predicate CastAt(c: Cluster, d: Cluster, u: NodeId, term: Term, candidate: NodeId, log: seq<LogEntry>) {
    && u in c.hosts && u in d.hosts
    && (c.hosts[u].node.currentTerm != term || c.hosts[u].node.votedFor.None?)
    && d.hosts[u].node.currentTerm == term && d.hosts[u].node.votedFor == Some(candidate)
    && c.hosts[u].full == log == d.hosts[u].full
  }

  lemma {:induction false} BallotWasCast(r: Run, k: nat, u: NodeId, t: Term)
    requires ValidRun(r) && k < |r.states| && (u, t) in HistoryAt(r, k).ballots
    ensures var b := HistoryAt(r, k).ballots[(u, t)];
            Voted(r, k, u, t, b.candidate, b.log)
  {
    hide Inv, HostStep, Enabled, Initial, Observe, CastAt;
    if k > 0 {
      var h, a := HistoryAt(r, k - 1), r.actions[k - 1];
      InvAt(r, k - 1);
      assert a.actor in r.states[k].hosts by { FirstVote(r.states[k - 1], h, a, u, t); }
      if (u, t) in h.ballots {
        BallotWasCast(r, k - 1, u, t);
        assert Grows(h, HistoryAt(r, k)) by { StepKeepsInv(r.states[k - 1], h, a); }
      } else {
        FirstVote(r.states[k - 1], h, a, u, t);
      }
    }
  }

  /** A vote that a step puts on record is cast by that step, which leaves the voter's log alone. */
  lemma FirstVote(c: Cluster, h: History, a: Action, u: NodeId, t: Term)
    requires Inv(c, h) && Enabled(c, a)
    ensures a.actor in c.hosts && a.actor in Step(c, a).hosts
    ensures var g := Observe(h, a.actor, Step(c, a).hosts[a.actor]);
            (u, t) in g.ballots && (u, t) !in h.ballots ==>
              CastAt(c, Step(c, a), u, t, g.ballots[(u, t)].candidate, g.ballots[(u, t)].log)
  {
    hide Inv, HistoryOk, LogTies, RoleTies, NodeStep, HostShape;
    ActorFacts(c, h, a.actor);
    FullStays(a.actor, c.hosts[a.actor], c.members);
    VotersKeepLog(c.hosts[a.actor].node, a);
  }

  /** A step that leaves a node with a vote that it did not have leaves its log alone. */
  lemma VotersKeepLog(n: NodeState, a: Action)
    ensures var m := NodeStep(n, a).0;
            m.votedFor.Some? && (n.currentTerm != m.currentTerm || n.votedFor.None?) ==> m.log == n.log && !a.Compact?
  {
    hide Heartbeats, VoteRequests, Posted, DeliverTo, UpToDate, NodeState.LastLogTerm;
    if a.Deliver? { DeliveryKeepsLog(n, a.envelope.from, a.envelope.message, a.draw); }
  }

  lemma DeliveryKeepsLog(n: NodeState, from: NodeId, message: RaftMessage, draw: nat)
    ensures var m := DeliverTo(n, from, message, draw).0;
            m.votedFor.Some? && (n.currentTerm != m.currentTerm || n.votedFor.None?) ==> m.log == n.log
  {
    hide Heartbeats, Posted, MergeFrom, GreatestCommittable, UpToDate, NodeState.LastLogTerm, SetAll;
  }

  /** The vote of `u` in a term led by `a`, against the log `a` stood for election with. */
  ghost predicate Endorsed(r: Run, k: nat, u: NodeId, term: Term, a: NodeId, stood: seq<LogEntry>) {
    exists log :: Voted(r, k, u, term, a, log) && NoNewerThan(log, stood)
  }

  /** `log` is no more up to date than `stood`, and a prefix of it when both end in the same term. */
  ghost predicate NoNewerThan(log: seq<LogEntry>, stood: seq<LogEntry>) {
    && UpToDate(LastTermOf(stood), |stood|, LastTermOf(log), |log|)
    && (LastTermOf(log) == LastTermOf(stood) ==> log <= stood)
  }

  /** Election restriction: whoever leads a term stood for election with a log, still a prefix of its own, that a
      majority, itself included, endorsed when voting. */
  lemma ElectionRestriction(r: Run, k: nat, a: NodeId, term: Term)
    returns (stood: seq<LogEntry>, quorum: set<NodeId>)
    requires ValidRun(r) && Leads(r, k, a, term)
    ensures quorum <= r.states[k].members && 2 * |quorum| > |r.states[k].members| && a in quorum
    ensures stood <= r.states[k].hosts[a].full && LastTermOf(stood) < term
    ensures Voted(r, k, a, term, a, stood)
    ensures forall u :: u in quorum ==> Endorsed(r, k, u, term, a, stood)
  {
    hide ValidRun, HistoryAt, HostOk, MessageOk, Voted, Traced, Sorted, NoNewerThan;
    InvAt(r, k);
    LeaderAt(r, k, a, term);
    var h := HistoryAt(r, k);
    var members := r.states[k].members;
    assert HistoryOk(h, members) && ElectionOk(h, members, term) && LeaderLogOk(h, term);
    quorum := h.elections[term].quorum;
    stood := h.ballots[(a, term)].log;
    BallotWasCast(r, k, a, term);
    forall u | u in quorum ensures Endorsed(r, k, u, term, a, stood) {
      BallotWasCast(r, k, u, term);
      assert BallotOk(h, members, u, term) && BallotOk(h, members, a, term);
      BallotNoNewer(h, h.ballots[(u, term)].log, stood);
    }
  }

  lemma BallotNoNewer(h: History, log: seq<LogEntry>, stood: seq<LogEntry>)
    requires Traced(log, h.leaderLogs) && Traced(stood, h.leaderLogs)
    requires UpToDate(LastTermOf(stood), |stood|, LastTermOf(log), |log|)
    ensures NoNewerThan(log, stood)
  {
    if LastTermOf(log) == LastTermOf(stood) && log != [] && stood != [] {
      TracedIsPrefix(log, h.leaderLogs);
      TracedIsPrefix(stood, h.leaderLogs);
    }
  }
}
