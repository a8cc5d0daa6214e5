/** Runs in which every acknowledgement is sound: leaders earn what they commit in them. */
module SoundRuns {
  import opened RaftTypes
  import opened LogMerge
  import opened NodeModel
  import opened Clusters
  import opened Histories
  import opened HostLemmas
  import opened LeaderSteps
  import opened RunInvariant
  import opened LogSteps
  import opened RunTheorems
  import opened Holdings
  import opened Commitment
  import opened EarnedInvariant

  /** If the step accepts an append, the length it reports is one up to which the follower's new log is that of the
      leader of the request. */
  ghost predicate SoundStep(c: Cluster, h: History, a: Action)
    requires a.actor in c.hosts
  {
    a.Deliver? && a.envelope.message.AppendRequest? ==>
      var req := a.envelope.message.append;
      HandleAppendEntries(c.hosts[a.actor].node, req, a.draw).1.success && req.term in h.leaderLogs ==>
        HostStep(c.hosts[a.actor], a).0.full <= h.leaderLogs[req.term]
  }

  /** A run in which every acknowledgement is sound. */
  ghost predicate SoundRun(r: Run) {
    && ValidRun(r)
    && (forall k :: 0 <= k < |r.actions| ==> SoundStep(r.states[k], HistoryAt(r, k), r.actions[k]))
  }

  function SuccessReply(from: NodeId, to: NodeId, term: Term, matchIndex: nat): Envelope {
    Envelope(from, to, AppendReply(AppendEntriesResponse(term, true, from, matchIndex)))
  }

  /** A match index of a leader is one that the peer has reported, its own, or no more than its snapshot. */
  ghost predicate MatchTies(i: NodeId, n: NodeState, network: set<Envelope>, members: set<NodeId>) {
    n.role == Leader ==>
      forall p :: p in n.matchIndex ==>
        && p in members
        && (n.matchIndex[p] <= n.snapshotIndex || p == i
            || SuccessReply(p, i, n.currentTerm, n.matchIndex[p]) in network)
  }

  /** Who reports an index holds every entry of the leader's own term up to it. */
  ghost predicate ReplyTies(e: Envelope, held: set<Holding>, h: History) {
    e.message.AppendReply? && e.message.appendReply.success ==>
      var m := e.message.appendReply;
      && m.term in h.leaderLogs && m.matchIndex <= |h.leaderLogs[m.term]|
      && (forall index :: 1 <= index <= m.matchIndex && h.leaderLogs[m.term][index - 1].term == m.term ==>
            Holding(m.from, m.term, index) in held)
  }

  /** Holds in every state of a sound run. */
  ghost predicate SoundInv(c: Cluster, h: History, held: set<Holding>) {
    && (forall i :: i in c.hosts ==> MatchTies(i, c.hosts[i].node, c.network, c.members))
    && (forall e :: e in c.network ==> ReplyTies(e, held, h))
  }

  // ---------- match indexes ----------

  /** How the match indexes of a node that leads after a step come about. */
  ghost predicate MatchMove(n: NodeState, m: NodeState, message: RaftMessage) {
    && m.currentTerm == n.currentTerm && m.snapshotIndex >= n.snapshotIndex
    && (if n.role == Leader
        then
          || m.matchIndex == n.matchIndex
          || m.matchIndex == n.matchIndex[n.id := m.LastLogIndex()]
          || (message.AppendReply? && message.appendReply.success && message.appendReply.term == n.currentTerm
              && m.matchIndex == n.matchIndex[message.appendReply.from := message.appendReply.matchIndex])
        else m.matchIndex == SetAll(map[n.id := m.LastLogIndex()], n.peers, n.snapshotIndex))
  }

  /** The message that a step handles, if it does. */
  function MessageOf(a: Action): RaftMessage {
    if a.Deliver? then a.envelope.message else VoteReply(RequestVoteResponse(0, false, 0))
  }

  lemma MatchMoves(n: NodeState, a: Action)
    ensures NodeStep(n, a).0.role == Leader ==> MatchMove(n, NodeStep(n, a).0, MessageOf(a))
  {
    hide Heartbeats, VoteRequests, Posted, DeliverTo, SetAll;
    if a.Deliver? {
      hide MatchMove;
      DeliveryMatches(n, a.envelope.from, a.envelope.message, a.draw);
    }
  }

  lemma DeliveryMatches(n: NodeState, from: NodeId, message: RaftMessage, draw: nat)
    ensures var m := DeliverTo(n, from, message, draw).0; m.role == Leader ==> MatchMove(n, m, message)
  {
    hide HandleRequestVote, HandleRequestVoteResponse, HandleAppendEntries, HandleAppendEntriesResponse, Posted,
      MatchMove;
    match message
    case VoteRequest(req) => VoteMatches(n, req, draw, message);
    case VoteReply(resp) => WinMatches(n, resp, draw, message);
    case AppendRequest(req) => StaleMatches(n, req, draw, message);
    case AppendReply(resp) => ReplyMatches(n, resp, draw);
  }

  lemma VoteMatches(n: NodeState, req: RequestVote, draw: nat, message: RaftMessage)
    ensures var m := HandleRequestVote(n, req, draw).0; m.role == Leader ==> MatchMove(n, m, message)
  {
    hide UpToDate, NodeState.LastLogTerm, SetAll;
  }

  lemma WinMatches(n: NodeState, resp: RequestVoteResponse, draw: nat, message: RaftMessage)
    ensures var m := HandleRequestVoteResponse(n, resp, draw).0; m.role == Leader ==> MatchMove(n, m, message)
  {
    hide SetAll;
  }

  lemma StaleMatches(n: NodeState, req: AppendEntries, draw: nat, message: RaftMessage)
    ensures var m := HandleAppendEntries(n, req, draw).0; m.role == Leader ==> MatchMove(n, m, message)
  {
    hide MergeFrom, SetAll;
  }

  lemma ReplyMatches(n: NodeState, resp: AppendEntriesResponse, draw: nat)
    ensures var m := HandleAppendEntriesResponse(n, resp, draw).0;
            m.role == Leader ==> MatchMove(n, m, AppendReply(resp))
  {
    hide Heartbeats, SetAll, AdvanceCommit;
    AdvanceKeepsRest(RecordSuccess(n, resp));
  }

  lemma AdvanceKeepsRest(n: NodeState)
    ensures AdvanceCommit(n) == n.(commitIndex := AdvanceCommit(n).commitIndex)
  {
    hide GreatestCommittable;
  }

  lemma MatchAcross(c: Cluster, h: History, a: Action)
    requires Inv(c, h) && Enabled(c, a) && MatchTies(a.actor, c.hosts[a.actor].node, c.network, c.members)
    ensures MatchTies(a.actor, Step(c, a).hosts[a.actor].node, Step(c, a).network, c.members)
  {
    hide Inv, NodeStep, LogTies, VoteTies, RoleTies, HistoryOk;
    var i := a.actor;
    var n := c.hosts[i].node;
    Known(c, h, i);
    MatchMoves(n, a);
    var m := Step(c, a).hosts[i].node;
    if m.role == Leader && a.Deliver? && a.envelope.message.AppendReply? {
      KnownMessage(c, h, a.envelope);
      var resp := a.envelope.message.appendReply;
      assert resp.success && resp.term == n.currentTerm ==>
        a.envelope == SuccessReply(resp.from, i, n.currentTerm, resp.matchIndex);
    }
  }

  // ---------- replies ----------

  lemma ReplyStays(e: Envelope, held: set<Holding>, held': set<Holding>, h: History, g: History)
    requires ReplyTies(e, held, h) && held <= held' && Grows(h, g)
    ensures ReplyTies(e, held', g)
  {
  }

  /** What a sound acknowledgement reports is held. */
  lemma SoundReply(i: NodeId, y: Host, to: NodeId, h: History, g: History)
    requires y.node.currentTerm in h.leaderLogs && y.full <= h.leaderLogs[y.node.currentTerm] && Grows(h, g)
    ensures ReplyTies(SuccessReply(i, to, y.node.currentTerm, |y.full|), HeldBy(i, y), g)
  {
    var t := y.node.currentTerm;
    assert h.leaderLogs[t] <= g.leaderLogs[t];
    forall index | 1 <= index <= |y.full| && g.leaderLogs[t][index - 1].term == t
      ensures Holding(i, t, index) in HeldBy(i, y)
    {
      assert y.full[index - 1] == h.leaderLogs[t][index - 1];
    }
  }

  /** Success is reported only by accepting an append. */
  lemma OnlyAppendsReport(n: NodeState, a: Action, e: Envelope)
    requires e in NodeStep(n, a).1 && e.message.AppendReply? && e.message.appendReply.success
    ensures a.Deliver? && a.envelope.message.AppendRequest?
    ensures var (m, resp) := HandleAppendEntries(n, a.envelope.message.append, a.draw);
            && resp.success && e == Envelope(n.id, a.envelope.from, AppendReply(resp)) && resp.from == n.id
            && a.envelope.message.append.term >= n.currentTerm && resp.term == a.envelope.message.append.term
            && resp.matchIndex == m.LastLogIndex() && m.snapshotIndex == n.snapshotIndex
  {
    hide Heartbeats, VoteRequests, MergeFrom, AdvanceCommit, UpToDate, NodeState.LastLogTerm;
  }

  lemma NewReply(c: Cluster, h: History, a: Action, e: Envelope)
    requires Inv(c, h) && Enabled(c, a) && SoundStep(c, h, a)
    requires e in NodeStep(c.hosts[a.actor].node, a).1 && e.message.AppendReply? && e.message.appendReply.success
    ensures var y := Step(c, a).hosts[a.actor]; ReplyTies(e, HeldBy(a.actor, y), Observe(h, a.actor, y))
  {
    hide Inv, NodeStep, HistoryOk, HandleAppendEntries, LogTies, VoteTies, RoleTies, Accepted, Observe, Grows,
      ReplyTies,
      HeldBy;
    var i := a.actor;
    var x := c.hosts[i];
    Known(c, h, i);
    assert x.node.id == i;
    hide HostShape;
    OnlyAppendsReport(x.node, a, e);
    AppendAcross(c, h, i, a.envelope, a.draw);
    AppendedHost(x, a);
    StepKeepsInv(c, h, a);
    var y := Step(c, a).hosts[i];
    assert y == HostStep(x, a).0;
    SoundReply(i, y, a.envelope.from, h, Observe(h, i, y));
  }

  lemma StepKeepsSound(c: Cluster, h: History, held: set<Holding>, a: Action)
    requires Inv(c, h) && SoundInv(c, h, held) && Enabled(c, a) && SoundStep(c, h, a)
    ensures var y := Step(c, a).hosts[a.actor];
            SoundInv(Step(c, a), Observe(h, a.actor, y), held + HeldBy(a.actor, y))
  {
    hide Inv, NodeStep, Observe, Grows, ReplyTies, HeldBy, MatchTies, SoundStep;
    var i := a.actor;
    var d := Step(c, a);
    var y := d.hosts[i];
    var g, held' := Observe(h, i, y), held + HeldBy(i, y);
    StepKeepsInv(c, h, a);
    MatchAcross(c, h, a);
    forall j | j in d.hosts ensures MatchTies(j, d.hosts[j].node, d.network, d.members) {
      if j != i { MatchStays(j, c.hosts[j].node, c.network, d.network, c.members); }
    }
    forall e | e in d.network ensures ReplyTies(e, held', g) {
      if e in c.network {
        ReplyStays(e, held, held', h, g);
      } else if e.message.AppendReply? && e.message.appendReply.success {
        NewReply(c, h, a, e);
        GrowsRefl(g);
        ReplyStays(e, HeldBy(i, y), held', g, g);
      } else {
        NoReport(e, held', g);
      }
    }
  }

  lemma MatchStays(i: NodeId, n: NodeState, network: set<Envelope>, network': set<Envelope>, members: set<NodeId>)
    requires MatchTies(i, n, network, members) && network <= network'
    ensures MatchTies(i, n, network', members)
  {
  }

  lemma NoReport(e: Envelope, held: set<Holding>, h: History)
    requires !(e.message.AppendReply? && e.message.appendReply.success)
    ensures ReplyTies(e, held, h)
  {
  }

  // ---------- sound runs are earned ----------

  /** A leader moves its commit index by counting, or alone in its cluster. */
  ghost predicate LeaderMoved(n: NodeState, m: NodeState, a: Action) {
    && n.role == Leader && m.currentTerm == n.currentTerm
    && (if a.Deliver?
        then
          && a.envelope.message.AppendReply?
          && var resp := a.envelope.message.appendReply;
             resp.success && resp.term == n.currentTerm && m == AdvanceCommit(RecordSuccess(n, resp))
        else
          && a.Propose? && m.Majority() == 1 && |m.log| > 0
          && m.commitIndex == m.LastLogIndex() && m.log[|m.log| - 1].term == m.currentTerm)
  }

  lemma LeaderMoves(n: NodeState, a: Action)
    ensures var m := NodeStep(n, a).0;
            m.role == Leader && m.commitIndex != n.commitIndex ==> LeaderMoved(n, m, a)
  {
    hide Heartbeats, VoteRequests, Posted, MergeFrom, AdvanceCommit, UpToDate, NodeState.LastLogTerm, SetAll;
    if a.Deliver? && a.envelope.message.AppendReply? {
      AdvanceKeepsRest(RecordSuccess(n, a.envelope.message.appendReply));
    }
  }

  /** Whoever is counted for an index holds the leader's entry there. */
  lemma CountedHolds(i: NodeId, x: Host, network: set<Envelope>, members: set<NodeId>, held: set<Holding>, h: History,
                     index: nat, p: NodeId)
    requires HostShape(i, x, members) && RoleTies(i, x, network, members, h) && x.node.role == Leader
    requires MatchTies(i, x.node, network, members) && (forall e :: e in network ==> ReplyTies(e, held, h))
    requires Committable(x.node, index) && p in x.node.Replicas(index)
    ensures p in members && Holding(p, x.node.currentTerm, index) in held + HeldBy(i, x)
  {
    TermAtFull(x, i, members, index);
    var t := x.node.currentTerm;
    assert x.full[index - 1].term == t;
    if p == i {
      assert Holding(i, t, index) in HeldBy(i, x);
    } else {
      var e := SuccessReply(p, i, t, x.node.matchIndex[p]);
      assert e in network && ReplyTies(e, held, h);
      assert h.leaderLogs[t][index - 1] == x.full[index - 1];
    }
  }

  lemma CountedIsChosen(i: NodeId, x: Host, network: set<Envelope>, members: set<NodeId>, held: set<Holding>,
                        h: History, index: nat)
    requires HostShape(i, x, members) && RoleTies(i, x, network, members, h) && x.node.role == Leader
    requires MatchTies(i, x.node, network, members) && (forall e :: e in network ==> ReplyTies(e, held, h))
    requires Committable(x.node, index)
    ensures Chosen(x.node.currentTerm, index, held + HeldBy(i, x), members)
  {
    hide RoleTies, MatchTies, ReplyTies, HeldBy;
    var q := x.node.Replicas(index);
    forall u | u in q ensures u in members && Holding(u, x.node.currentTerm, index) in held + HeldBy(i, x) {
      CountedHolds(i, x, network, members, held, h, index, u);
    }
    MajorityIsMajority(x.node, members);
    assert HeldByAll(q, x.node.currentTerm, index, held + HeldBy(i, x), members);
  }

  /** A node alone in its cluster is a majority. */
  lemma AloneIsChosen(i: NodeId, x: Host, members: set<NodeId>, held: set<Holding>)
    requires HostShape(i, x, members) && x.node.Majority() == 1 && |x.node.log| > 0
    requires x.node.log[|x.node.log| - 1].term == x.node.currentTerm
    ensures Chosen(x.node.currentTerm, x.node.LastLogIndex(), held + HeldBy(i, x), members)
  {
    var t, index := x.node.currentTerm, x.node.LastLogIndex();
    assert index == |x.full| && x.full[index - 1] == x.node.log[|x.node.log| - 1];
    assert Holding(i, t, index) in HeldBy(i, x);
    assert HeldByAll({i}, t, index, held + HeldBy(i, x), members);
  }

  /** The node of a leader that has recorded an acknowledgement, before it counts. */
  lemma Recorded(c: Cluster, h: History, held: set<Holding>, a: Action)
    requires Inv(c, h) && SoundInv(c, h, held) && Enabled(c, a) && a.Deliver? && a.envelope.message.AppendReply?
    requires var n, resp := c.hosts[a.actor].node, a.envelope.message.appendReply;
             n.role == Leader && resp.success && resp.term == n.currentTerm
    ensures var x := c.hosts[a.actor];
            var r := Host(RecordSuccess(x.node, a.envelope.message.appendReply), x.full);
            && HostShape(a.actor, r, c.members) && RoleTies(a.actor, r, c.network, c.members, h)
            && MatchTies(a.actor, r.node, c.network, c.members)
  {
    hide Inv, HistoryOk, LogTies, VoteTies, ReplyTies;
    ActorFacts(c, h, a.actor);
    KnownMessage(c, h, a.envelope);
    var n, resp := c.hosts[a.actor].node, a.envelope.message.appendReply;
    assert a.envelope == SuccessReply(resp.from, a.actor, n.currentTerm, resp.matchIndex);
  }

  lemma CountingEarns(c: Cluster, h: History, held: set<Holding>, a: Action)
    requires Inv(c, h) && SoundInv(c, h, held) && Enabled(c, a) && a.Deliver?
    requires var n, y := c.hosts[a.actor].node, Step(c, a).hosts[a.actor];
             LeaderMoved(n, y.node, a) && y.node.commitIndex != n.commitIndex
    ensures var y := Step(c, a).hosts[a.actor];
            Chosen(y.node.currentTerm, y.node.commitIndex, held + HeldBy(a.actor, y), c.members)
  {
    hide Inv, HistoryOk, MatchTies, ReplyTies, HeldBy, HostShape, RoleTies, Chosen, AdvanceCommit, RecordSuccess,
      Committable, HostStep;
    var i := a.actor;
    var x := c.hosts[i];
    var y, r := Step(c, a).hosts[i], Host(RecordSuccess(x.node, a.envelope.message.appendReply), x.full);
    Recorded(c, h, held, a);
    RecordingKeeps(x.node, a.envelope.message.appendReply);
    AdvanceCommitIsQuorumMaximum(r.node);
    CountedIsChosen(i, r, c.network, c.members, held, h, y.node.commitIndex);
    CountingKeepsLog(c, h, a);
    assert HeldBy(i, r) == HeldBy(i, y) by { SameHeld(i, r, y); }
  }

  lemma RecordingKeeps(n: NodeState, resp: AppendEntriesResponse)
    ensures var m := RecordSuccess(n, resp);
            m.role == n.role && m.currentTerm == n.currentTerm && m.commitIndex == n.commitIndex
  {
  }

  lemma CountingKeepsLog(c: Cluster, h: History, a: Action)
    requires Inv(c, h) && Enabled(c, a) && a.Deliver? && !a.envelope.message.AppendRequest?
    ensures Step(c, a).hosts[a.actor].full == c.hosts[a.actor].full
  {
    hide Inv, HistoryOk, LogTies, VoteTies, RoleTies, NodeStep;
    ActorFacts(c, h, a.actor);
    FullStays(a.actor, c.hosts[a.actor], c.members);
    LogUntouched(c.hosts[a.actor].node, a);
  }

  lemma SameHeld(i: NodeId, x: Host, y: Host)
    requires x.full == y.full && x.node.currentTerm == y.node.currentTerm
    ensures HeldBy(i, x) == HeldBy(i, y)
  {
  }

  /** When acknowledgements are sound, a leader commits only what a majority has held. */
  lemma SoundStepIsEarned(c: Cluster, h: History, held: set<Holding>, a: Action)
    requires Inv(c, h) && SoundInv(c, h, held) && Enabled(c, a)
    ensures EarnedStep(c, held, a)
  {
    hide Inv, SoundInv, NodeStep, LogTies, VoteTies, RoleTies, HistoryOk, HeldBy, HostShape, Chosen, Observe, Grows;
    var i := a.actor;
    var x, d := c.hosts[i], Step(c, a);
    var y := d.hosts[i];
    LeaderMoves(x.node, a);
    if y.node.role == Leader && y.node.commitIndex != x.node.commitIndex {
      if a.Propose? {
        StepKeepsInv(c, h, a);
        ActorFacts(d, Observe(h, i, y), i);
        AloneIsChosen(i, y, c.members, held);
      } else {
        CountingEarns(c, h, held, a);
      }
    }
  }

  // ---------- runs ----------

  lemma NothingSent(c: Cluster)
    requires Initial(c)
    ensures SoundInv(c, Nothing, {})
  {
  }

  lemma {:induction false} SoundInvAt(r: Run, k: nat)
    requires SoundRun(r) && k < |r.states|
    ensures SoundInv(r.states[k], HistoryAt(r, k), HeldAt(r, k))
  {
    hide SoundInv, SoundStep, Inv, Observe, HostStep, Enabled, HeldBy, Initial;
    if k == 0 {
      NothingSent(r.states[0]);
    } else {
      SoundInvAt(r, k - 1);
      InvAt(r, k - 1);
      EnabledActor(r.states[k - 1], r.actions[k - 1]);
      StepKeepsSound(r.states[k - 1], HistoryAt(r, k - 1), HeldAt(r, k - 1), r.actions[k - 1]);
    }
  }

  /** In a run in which every acknowledgement is sound, every commit of a leader is earned. */
  lemma SoundRunIsEarned(r: Run)
    requires SoundRun(r)
    ensures EarnedRun(r)
  {
    hide SoundInv, SoundStep, Inv, HistoryAt, HeldAt, HostStep, Enabled, Initial, EarnedStep;
    forall k | 0 <= k < |r.actions|
      ensures r.actions[k].actor in r.states[k].hosts && EarnedStep(r.states[k], HeldAt(r, k), r.actions[k])
    {
      EnabledActor(r.states[k], r.actions[k]);
      SoundInvAt(r, k);
      InvAt(r, k);
      SoundStepIsEarned(r.states[k], HistoryAt(r, k), HeldAt(r, k), r.actions[k]);
    }
  }
}
