/** Why leaders that send AppendEntries only after a proposal of their own term get sound acknowledgements. */
module GuardedRuns {
  import opened RaftTypes
  import opened NodeModel
  import opened Clusters
  import opened Histories
  import opened HostLemmas
  import opened LeaderSteps
  import opened RunInvariant
  import opened LogSteps
  import opened RunTheorems
  import opened Holdings
  import opened EarnedInvariant
  import opened SoundRuns

  /** The last entry that a request covers is of the sender's own term. */
  ghost predicate OwnRequest(e: Envelope, h: History) {
    e.message.AppendRequest? ==>
      var m := e.message.append;
      m.term in h.leaderLogs && Has(h.leaderLogs[m.term], m.term, m.prevLogIndex + |m.entries|)
  }

  /** Holds, on top of Inv, in every state of a guarded run. */
  ghost predicate OwnRequests(c: Cluster, h: History) {
    forall e :: e in c.network ==> OwnRequest(e, h)
  }

  // ---------- soundness ----------

  /** A follower that accepts a request ending in an entry of the request's own term acknowledges soundly. */
  lemma OwnIsSound(c: Cluster, h: History, a: Action)
    requires Inv(c, h) && OwnRequests(c, h) && Enabled(c, a)
    ensures SoundStep(c, h, a)
  {
    hide Inv, HistoryOk, HostShape, VoteTies, RoleTies, LogTies, Accepted, Observe, Grows, HandleAppendEntries,
      NodeStep;
    if a.Deliver? && a.envelope.message.AppendRequest?
       && HandleAppendEntries(c.hosts[a.actor].node, a.envelope.message.append, a.draw).1.success
    {
      var x, req := c.hosts[a.actor], a.envelope.message.append;
      AcceptedAfterRecognition(x.node, req, a.draw);
      AppendAcross(c, h, a.actor, a.envelope, a.draw);
      AppendedHost(x, a);
      StepKeepsInv(c, h, a);
      var d := Step(c, a);
      var g := Observe(h, a.actor, d.hosts[a.actor]);
      ActorFacts(d, g, a.actor);
      SameLogsObserved(h, a.actor, d.hosts[a.actor]);
      ActorFacts(c, h, a.actor);
      SameLogTies(d.hosts[a.actor], h, g);
      AcceptedIsSound(h, c.members, req, x.full, d.hosts[a.actor]);
    }
  }

  lemma SameLogsObserved(h: History, i: NodeId, x: Host)
    requires x.node.role != Leader
    ensures Observe(h, i, x).leaderLogs == h.leaderLogs
  {
  }

  lemma SameLogTies(x: Host, h: History, g: History)
    requires LogTies(x, g) && g.leaderLogs == h.leaderLogs
    ensures LogTies(x, h)
  {
  }

  // ---------- what leaders send ----------

  /** A leader whose log ends in its own term sends requests that end in it. */
  lemma SentIsOwn(i: NodeId, x: Host, network: set<Envelope>, members: set<NodeId>, h: History, e: Envelope)
    requires HostShape(i, x, members) && RoleTies(i, x, network, members, h) && HistoryOk(h, members)
             && VoteTies(i, x, h)
    requires x.node.role == Leader && x.node.LastLogTerm() == x.node.currentTerm
    requires e.message.AppendRequest? && AppendEntriesFor(x.node, e.to) == Some(e.message.append)
    ensures OwnRequest(e, h)
  {
    hide HistoryOk, AppendEntriesFor;
    BuiltIsSlice(i, x, members, e.to);
    TermAtFull(x, i, members, 0);
    VotedTermPositive(h, members, i, x.node.currentTerm);
  }

  lemma VotedTermPositive(h: History, members: set<NodeId>, u: NodeId, t: Term)
    requires HistoryOk(h, members) && (u, t) in h.ballots
    ensures t >= 1
  {
    assert BallotOk(h, members, u, t);
  }

  lemma OwnRequestStays(e: Envelope, h: History, g: History)
    requires OwnRequest(e, h) && Grows(h, g)
    ensures OwnRequest(e, g)
  {
  }

  lemma OnlyRequests(e: Envelope, h: History)
    requires !e.message.AppendRequest?
    ensures OwnRequest(e, h)
  {
  }

  /** Under the guard, every request in the network ends in an entry of its own term. */
  lemma StepKeepsOwn(c: Cluster, h: History, a: Action)
    requires Inv(c, h) && OwnRequests(c, h) && Enabled(c, a) && GuardedStep(c, a)
    ensures OwnRequests(Step(c, a), Observe(h, a.actor, Step(c, a).hosts[a.actor]))
  {
    hide Inv, Observe, Grows, OwnRequest, NodeStep, HistoryOk, HostShape, LogTies, VoteTies, RoleTies;
    var i := a.actor;
    var d := Step(c, a);
    var x, g := d.hosts[i], Observe(h, i, d.hosts[i]);
    StepKeepsInv(c, h, a);
    ActorFacts(d, g, i);
    ActorId(c, h, i);
    forall e | e in d.network ensures OwnRequest(e, g) {
      if e in c.network {
        OwnRequestStays(e, h, g);
      } else if e.message.AppendRequest? {
        SentIsBuilt(c.hosts[i].node, a, e);
        SentIsOwn(i, x, d.network, c.members, g, e);
      } else {
        OnlyRequests(e, g);
      }
    }
  }

  // ---------- runs ----------

  lemma {:induction false} OwnRequestsAt(r: Run, k: nat)
    requires GuardedRun(r) && k < |r.states|
    ensures Inv(r.states[k], HistoryAt(r, k)) && OwnRequests(r.states[k], HistoryAt(r, k))
  {
    hide Inv, OwnRequest, Observe, HostStep, GuardedStep, Enabled;
    InvAt(r, k);
    if k > 0 {
      OwnRequestsAt(r, k - 1);
      StepKeepsOwn(r.states[k - 1], HistoryAt(r, k - 1), r.actions[k - 1]);
    }
  }

  /** The guard makes every acknowledgement of the run sound, and with that every commit of a leader earned. */
  lemma GuardedRunIsSound(r: Run)
    requires GuardedRun(r)
    ensures SoundRun(r) && EarnedRun(r)
  {
    hide OwnRequests, Inv, HistoryAt, HeldAt, HostStep, GuardedStep, SoundStep, EarnedStep, Initial;
    forall k | 0 <= k < |r.actions|
      ensures r.actions[k].actor in r.states[k].hosts && SoundStep(r.states[k], HistoryAt(r, k), r.actions[k])
    {
      OwnRequestsAt(r, k);
      OwnIsSound(r.states[k], HistoryAt(r, k), r.actions[k]);
    }
    SoundRunIsEarned(r);
  }
}
