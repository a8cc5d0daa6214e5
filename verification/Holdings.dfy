/** Which node has held which entry while in the term of the entry, in any run. An entry of a term that a node of that
    term holds is one that the leader of the term has sent it, or is that leader's own. */
module Holdings {
  import opened RaftTypes
  import opened LogMerge
  import opened NodeModel
  import opened Clusters
  import opened Histories
  import opened HostLemmas
  import opened LeaderSteps
  import opened RunInvariant
  import opened LogSteps
  import opened RunTheorems

  /** Node `holder`, in term `term`, had an entry of that term at `index`. */
  datatype Holding = Holding(holder: NodeId, term: Term, index: nat)

  /** What node `i` holds as `x`. */
  function HeldBy(i: NodeId, x: Host): set<Holding> {
    set index | 1 <= index <= |x.full| && x.full[index - 1].term == x.node.currentTerm
      :: Holding(i, x.node.currentTerm, index)
  }

  /** What has been held in the first `k` steps of a run. */
  function HeldAt(r: Run, k: nat): set<Holding> {
    if k == 0 || k >= |r.states| || k > |r.actions| then {}
    else
      var i := r.actions[k - 1].actor;
      HeldAt(r, k - 1) + if i in r.states[k].hosts then HeldBy(i, r.states[k].hosts[i]) else {}
  }

  /** Some leader after `term`, up to `bound`, lacks the entry of `term` at `index`. */
  ghost predicate Lost(h: History, term: Term, index: nat, bound: Term) {
    exists t :: t in h.elections && t in h.leaderLogs && term < t <= bound && !Has(h.leaderLogs[t], term, index)
  }

  /** What a node has held it still has, unless a later leader lacks it. */
  ghost predicate StillHeld(x: Host, e: Holding, h: History) {
    && e.term <= x.node.currentTerm
    && e.term in h.elections && e.term in h.leaderLogs && Has(h.leaderLogs[e.term], e.term, e.index)
    && (Has(x.full, e.term, e.index) || Lost(h, e.term, e.index, x.node.currentTerm))
  }

  ghost predicate HoldTies(i: NodeId, x: Host, held: set<Holding>, h: History) {
    forall e :: e in held && e.holder == i ==> StillHeld(x, e, h)
  }

  /** What a voter held in an earlier term is in the log that it voted with, unless a leader in between lacks it. */
  ghost predicate BroughtTo(h: History, e: Holding, v: Term)
    requires (e.holder, v) in h.ballots && e.term < v
  {
    Has(h.ballots[(e.holder, v)].log, e.term, e.index) || Lost(h, e.term, e.index, v - 1)
  }

  ghost predicate BallotTies(held: set<Holding>, h: History) {
    forall e, v :: e in held && (e.holder, v) in h.ballots && Binding(h, e.holder, v) && e.term < v ==>
      BroughtTo(h, e, v)
  }

  /** Holds, on top of Inv, in every state of every run. */
  ghost predicate HeldInv(c: Cluster, h: History, held: set<Holding>) {
    && (forall i :: i in c.hosts ==> HoldTies(i, c.hosts[i], held, h))
    && BallotTies(held, h)
    && (forall e :: e in held ==> e.holder in c.members)
  }

  // ---------- stability ----------

  lemma LostStays(h: History, g: History, t: Term, index: nat, bound: Term, bound': Term)
    requires Lost(h, t, index, bound) && Grows(h, g) && bound <= bound'
    ensures Lost(g, t, index, bound')
  {
    var u :| u in h.elections && u in h.leaderLogs && t < u <= bound && !Has(h.leaderLogs[u], t, index);
    assert !Has(g.leaderLogs[u], t, index);
  }

  lemma StillHeldGrows(x: Host, e: Holding, h: History, g: History)
    requires StillHeld(x, e, h) && Grows(h, g)
    ensures StillHeld(x, e, g)
  {
    if !Has(x.full, e.term, e.index) { LostStays(h, g, e.term, e.index, x.node.currentTerm, x.node.currentTerm); }
  }

  /** A held entry survives a step of its holder unless the leader whose request is accepted lacks it. */
  lemma HeldAcross(x: Host, y: Host, e: Holding, h: History)
    requires StillHeld(x, e, h) && x.node.currentTerm <= y.node.currentTerm
    requires x.full <= y.full || Replaced(x.full, y.full, h, y.node.currentTerm)
    requires LogTies(x, h) && (forall t :: t in h.leaderLogs ==> Traced(h.leaderLogs[t], h.leaderLogs))
    ensures StillHeld(y, e, h)
  {
    hide Traced, Accepted;
    if !Has(x.full, e.term, e.index) {
      LostLater(h, e.term, e.index, x.node.currentTerm, y.node.currentTerm);
    } else if !(x.full <= y.full) {
      var req: AppendEntries :| req.term == y.node.currentTerm && Accepted(x.full, req, y.full, h.leaderLogs[req.term]);
      var l := h.leaderLogs[req.term];
      if Has(l, e.term, e.index) {
        TracedMatch(x.full, l, h.leaderLogs, e.index);
        AcceptedKeepsShared(x.full, req, y.full, l, e.index);
        assert y.full[e.index - 1] == y.full[..e.index][e.index - 1] == x.full[..e.index][e.index - 1];
      }
    }
  }

  lemma LostLater(h: History, t: Term, index: nat, bound: Term, bound': Term)
    requires Lost(h, t, index, bound) && bound <= bound'
    ensures Lost(h, t, index, bound')
  {
  }

  lemma LeaderLogsTraced(h: History, members: set<NodeId>)
    requires HistoryOk(h, members)
    ensures forall t :: t in h.leaderLogs ==> Traced(h.leaderLogs[t], h.leaderLogs)
    ensures h.leaderLogs.Keys == h.elections.Keys
  {
    hide BallotOk, ElectionOk, Traced;
    forall t | t in h.leaderLogs ensures Traced(h.leaderLogs[t], h.leaderLogs) {
      assert LeaderLogOk(h, t);
    }
  }

  /** What a node holds now is in the log of the leader of its term. */
  lemma NewlyHeld(i: NodeId, x: Host, h: History, members: set<NodeId>, e: Holding)
    requires e in HeldBy(i, x) && LogTies(x, h) && HistoryOk(h, members)
    ensures StillHeld(x, e, h)
  {
    hide BallotOk, ElectionOk, LeaderLogOk;
    assert x.full[..e.index] == h.leaderLogs[e.term][..e.index];
    assert x.full[e.index - 1] == x.full[..e.index][e.index - 1] == h.leaderLogs[e.term][..e.index][e.index - 1];
  }

  // ---------- steps ----------

  /** A ballot first recorded by a step of node `i` carries its log, and counts only while its term has no leader. */
  ghost predicate FreshBallots(h: History, g: History, i: NodeId, x: Host) {
    forall u, v :: (u, v) in g.ballots && (u, v) !in h.ballots ==>
      u == i && v == x.node.currentTerm && g.ballots[(u, v)].log == x.full
      && g.elections == h.elections && (v in h.elections ==> i !in h.elections[v].quorum)
  }

  lemma NewBallots(c: Cluster, h: History, i: NodeId, x: Host)
    requires Inv(c, h) && i in c.hosts
    requires x.node.role == Leader ==> (i, x.node.currentTerm) in h.ballots
    ensures FreshBallots(h, Observe(h, i, x), i, x)
  {
    hide LeaderLogOk, BallotOk, HostOk, MessageOk;
    var t := x.node.currentTerm;
    if t in h.elections { assert ElectionOk(h, c.members, t); }
  }

  lemma LostBelow(g: History, t: Term, index: nat, v: Term)
    requires Lost(g, t, index, v) && v !in g.elections && v >= 1
    ensures Lost(g, t, index, v - 1)
  {
    var u :| u in g.elections && u in g.leaderLogs && t < u <= v && !Has(g.leaderLogs[u], t, index);
  }

  lemma BroughtGrows(h: History, g: History, e: Holding, v: Term)
    requires (e.holder, v) in h.ballots && e.term < v && BroughtTo(h, e, v) && Grows(h, g)
    ensures (e.holder, v) in g.ballots && BroughtTo(g, e, v)
  {
    if !Has(h.ballots[(e.holder, v)].log, e.term, e.index) { LostStays(h, g, e.term, e.index, v - 1, v - 1); }
  }

  lemma BallotsAfter(h: History, g: History, held: set<Holding>, i: NodeId, x: Host)
    requires Grows(h, g) && BallotTies(held, h) && FreshBallots(h, g, i, x)
    requires HoldTies(i, x, held, g)
    requires forall v :: (i, v) in g.ballots ==> v <= x.node.currentTerm
    ensures BallotTies(held + HeldBy(i, x), g)
  {
    hide Lost, BroughtTo;
    forall e, v | e in held + HeldBy(i, x) && (e.holder, v) in g.ballots && Binding(g, e.holder, v) && e.term < v
      ensures BroughtTo(g, e, v)
    {
      assert e in held;
      if (e.holder, v) in h.ballots {
        BindingBefore(h, g, e.holder, v);
        BroughtGrows(h, g, e, v);
      } else {
        NewlyBrought(g, e, x, v);
      }
    }
  }

  lemma BindingBefore(h: History, g: History, u: NodeId, v: Term)
    requires Binding(g, u, v) && Grows(h, g)
    ensures Binding(h, u, v)
  {
  }

  lemma NewlyBrought(g: History, e: Holding, x: Host, v: Term)
    requires (e.holder, v) in g.ballots && e.term < v == x.node.currentTerm && g.ballots[(e.holder, v)].log == x.full
    requires v !in g.elections && StillHeld(x, e, g)
    ensures BroughtTo(g, e, v)
  {
    if !Has(x.full, e.term, e.index) { LostBelow(g, e.term, e.index, v); }
  }

  /** A leader has a recorded vote in its term. */
  lemma LeaderVoted(c: Cluster, h: History, i: NodeId)
    requires Inv(c, h) && i in c.hosts
    ensures c.hosts[i].node.role != Follower ==> (i, c.hosts[i].node.currentTerm) in h.ballots
  {
    hide Inv, HistoryOk, HostShape, LogTies, RoleTies;
    ActorFacts(c, h, i);
  }

  /** Any step keeps what has been held: in the logs, in the ballots, and in the logs of leaders. */
  lemma StepKeepsHeld(c: Cluster, h: History, held: set<Holding>, a: Action)
    requires Inv(c, h) && HeldInv(c, h, held) && Enabled(c, a)
    ensures var y := Step(c, a).hosts[a.actor];
            HeldInv(Step(c, a), Observe(h, a.actor, y), held + HeldBy(a.actor, y))
  {
    hide Inv, Observe, Grows, HistoryOk, LogTies, VoteTies, RoleTies, HostShape, HostStep, StillHeld, Replaced, Traced,
      BallotTies, FreshBallots, Binding;
    var i := a.actor;
    var x, d := c.hosts[i], Step(c, a);
    var y := d.hosts[i];
    var g, held' := Observe(h, i, y), held + HeldBy(i, y);
    StepKeepsInv(c, h, a);
    StepAcross(c, h, a);
    ActorFacts(c, h, i);
    ActorFacts(d, g, i);
    LeaderLogsTraced(h, c.members);
    forall e | e in held' && e.holder == i ensures StillHeld(y, e, g) {
      if e in held {
        HeldAcross(x, y, e, h);
        StillHeldGrows(y, e, h, g);
      } else {
        NewlyHeld(i, y, g, c.members, e);
      }
    }
    forall j | j in d.hosts ensures HoldTies(j, d.hosts[j], held', g) {
      if j != i { BystanderHolds(j, c.hosts[j], held, h, g, i, y); }
    }
    if y.node.role == Leader { LeaderHadVoted(c, h, a); }
    NewBallots(c, h, i, y);
    assert forall v :: (i, v) in g.ballots ==> v <= y.node.currentTerm by { BallotsBounded(i, y, g); }
    BallotsAfter(h, g, held, i, y);
  }

  lemma BystanderHolds(j: NodeId, x: Host, held: set<Holding>, h: History, g: History, i: NodeId, y: Host)
    requires HoldTies(j, x, held, h) && Grows(h, g) && j != i
    ensures HoldTies(j, x, held + HeldBy(i, y), g)
  {
    hide StillHeld, Grows;
    forall e | e in held + HeldBy(i, y) && e.holder == j ensures StillHeld(x, e, g) {
      StillHeldGrows(x, e, h, g);
    }
  }

  lemma BallotsBounded(i: NodeId, x: Host, g: History)
    requires VoteTies(i, x, g)
    ensures forall v :: (i, v) in g.ballots ==> v <= x.node.currentTerm
  {
  }

  /** Nobody leads a term that it has not stood in before. */
  lemma LeaderHadVoted(c: Cluster, h: History, a: Action)
    requires Inv(c, h) && Enabled(c, a) && HostStep(c.hosts[a.actor], a).0.node.role == Leader
    ensures (a.actor, HostStep(c.hosts[a.actor], a).0.node.currentTerm) in h.ballots
  {
    hide Inv;
    LeaderVoted(c, h, a.actor);
    LeadersStood(c.hosts[a.actor].node, a);
  }

  lemma LeadersStood(n: NodeState, a: Action)
    requires NodeStep(n, a).0.role == Leader
    ensures n.role != Follower && NodeStep(n, a).0.currentTerm == n.currentTerm
  {
    hide Heartbeats, VoteRequests, Posted, MergeFrom, GreatestCommittable, UpToDate, NodeState.LastLogTerm;
  }

  // ---------- runs ----------

  lemma {:induction false} HeldInvAt(r: Run, k: nat)
    requires ValidRun(r) && k < |r.states|
    ensures HeldInv(r.states[k], HistoryAt(r, k), HeldAt(r, k))
    ensures k > 0 ==> HeldAt(r, k - 1) <= HeldAt(r, k)
  {
    hide HeldInv, Inv, Observe, HostStep, Enabled, HeldBy;
    if k == 0 {
      NothingHeld(r.states[0]);
    } else {
      HeldInvAt(r, k - 1);
      InvAt(r, k - 1);
      assert r.actions[k - 1].actor in r.states[k].hosts by { EnabledActor(r.states[k - 1], r.actions[k - 1]); }
      StepKeepsHeld(r.states[k - 1], HistoryAt(r, k - 1), HeldAt(r, k - 1), r.actions[k - 1]);
    }
  }

  lemma NothingHeld(c: Cluster)
    ensures HeldInv(c, Nothing, {})
  {
  }

  lemma EnabledActor(c: Cluster, a: Action)
    requires Enabled(c, a)
    ensures a.actor in c.hosts && a.actor in Step(c, a).hosts
  {
    hide HostStep;
  }

  lemma {:induction false} HeldGrows(r: Run, j: nat, k: nat)
    requires ValidRun(r) && j <= k < |r.states|
    ensures HeldAt(r, j) <= HeldAt(r, k)
    decreases k
  {
    hide ValidRun, HeldInv, HeldAt, HistoryAt;
    if j < k {
      HeldGrows(r, j, k - 1);
      HeldInvAt(r, k);
    }
  }

  /** Node `u` had an entry of `term` at `index` in state `j`, while in that term. */
  ghost predicate Had(r: Run, j: nat, e: Holding) {
    j < |r.states| && e.holder in r.states[j].hosts && e in HeldBy(e.holder, r.states[j].hosts[e.holder])
  }

  /** What is recorded as held is what some node had in some state of the run. */
  lemma {:induction false} HeldMeans(r: Run, k: nat, e: Holding)
    requires ValidRun(r) && k < |r.states|
    ensures e in HeldAt(r, k) <==> exists j :: 0 <= j <= k && Had(r, j, e)
  {
    hide HostStep, HeldBy, Initial;
    if k == 0 {
      assert !Had(r, 0, e) by { StartsEmpty(r.states[0], e); }
    } else {
      var a := r.actions[k - 1];
      EnabledActor(r.states[k - 1], a);
      HeldMeans(r, k - 1, e);
      if e in HeldAt(r, k) && e !in HeldAt(r, k - 1) {
        HeldIsOwn(a.actor, r.states[k].hosts[a.actor], e);
        assert Had(r, k, e);
      }
      if Had(r, k, e) && e.holder != a.actor { assert Had(r, k - 1, e); }
    }
  }

  lemma StartsEmpty(c: Cluster, e: Holding)
    requires Initial(c)
    ensures e.holder in c.hosts ==> e !in HeldBy(e.holder, c.hosts[e.holder])
  {
  }

  lemma HeldIsOwn(i: NodeId, x: Host, e: Holding)
    requires e in HeldBy(i, x)
    ensures e.holder == i
  {
  }

  /** In every run: an entry that a node had while in its term is still in the node's log, unless some leader of a
      later term, no later than the node's, lacks it. */
  lemma HeldIsKept(r: Run, j: nat, k: nat, e: Holding)
    requires ValidRun(r) && j <= k < |r.states| && Had(r, j, e)
    ensures e.holder in r.states[k].hosts && StillHeld(r.states[k].hosts[e.holder], e, HistoryAt(r, k))
  {
    hide ValidRun, HeldBy, HistoryAt, HeldAt, StillHeld, BallotTies;
    HeldMeans(r, k, e);
    HeldInvAt(r, k);
    HostsFixed(r, j, k);
  }
}
