/** What a run has decided so far: who voted for whom with which log, who was elected, and the log of each leader.

    None of it is part of a node; it is computed from the hosts a run passes through. */
module Histories {
  import opened RaftTypes
  import opened NodeModel
  import opened Clusters

  datatype Ballot = Ballot(candidate: NodeId, log: seq<LogEntry>)

  datatype Election = Election(leader: NodeId, quorum: set<NodeId>)

  datatype History = History(
    /** the first vote of a node in a term, with its full log at that moment */
    ballots: map<(NodeId, Term), Ballot>,
    elections: map<Term, Election>,
    /** the full log of the leader of a term, as of its last step in that term */
    leaderLogs: map<Term, seq<LogEntry>>)

  const Nothing := History(map[], map[], map[])

  /** The history after host `i` became `x`. */
  function Observe(h: History, i: NodeId, x: Host): History {
    var term := x.node.currentTerm;
    var ballots := if x.node.votedFor.Some? && (i, term) !in h.ballots
                   then h.ballots[(i, term) := Ballot(x.node.votedFor.value, x.full)] else h.ballots;
    if x.node.role == Leader then
      History(ballots,
              if term in h.elections then h.elections else h.elections[term := Election(i, x.node.votes)],
              h.leaderLogs[term := x.full])
    else h.(ballots := ballots)
  }

  /** The history of the first `k` steps of a run. */
  function HistoryAt(r: Run, k: nat): History {
    if k == 0 || k >= |r.states| || k > |r.actions| then Nothing
    else
      var h := HistoryAt(r, k - 1);
      var i := r.actions[k - 1].actor;
      if i in r.states[k].hosts then Observe(h, i, r.states[k].hosts[i]) else h
  }

  // ---------- logs ----------

  function TermOf(log: seq<LogEntry>, index: nat): Term
    requires index <= |log|
  {
    if index == 0 then 0 else log[index - 1].term
  }

  function LastTermOf(log: seq<LogEntry>): Term {
    TermOf(log, |log|)
  }

  /** Every prefix of the log that ends in an entry of term t is a prefix of the log of the leader of t. */
  ghost predicate Traced(log: seq<LogEntry>, leaderLogs: map<Term, seq<LogEntry>>) {
    forall k :: 0 <= k < |log| ==>
      && log[k].term in leaderLogs
      && k < |leaderLogs[log[k].term]|
      && log[..k + 1] == leaderLogs[log[k].term][..k + 1]
  }

  ghost predicate Sorted(log: seq<LogEntry>) {
    forall a, b :: 0 <= a <= b < |log| ==> log[a].term <= log[b].term
  }

  /** The log has an entry of `term` at `index`; with Log Matching this fixes everything up to there. */
  predicate Has(log: seq<LogEntry>, term: Term, index: nat) {
    1 <= index <= |log| && log[index - 1].term == term
  }

  // ---------- growth ----------

  /** Later leader logs extend earlier ones by entries of the leader's own term. */
  ghost predicate LogsGrow(old_: map<Term, seq<LogEntry>>, new_: map<Term, seq<LogEntry>>) {
    forall t :: t in old_ ==>
      && t in new_
      && old_[t] <= new_[t]
      && (forall k :: |old_[t]| <= k < |new_[t]| ==> new_[t][k].term == t)
  }

  ghost predicate Grows(h: History, g: History) {
    && (forall v, t :: (v, t) in h.ballots ==> (v, t) in g.ballots && g.ballots[(v, t)] == h.ballots[(v, t)])
    && (forall t :: t in h.elections ==> t in g.elections && g.elections[t] == h.elections[t])
    && LogsGrow(h.leaderLogs, g.leaderLogs)
  }

  /** Growth by a step of node `i`: it adds only its own votes and the elections and logs it leads. */
  ghost predicate GrowsBy(h: History, g: History, i: NodeId) {
    && Grows(h, g)
    && (forall v, t :: (v, t) in g.ballots && (v, t) !in h.ballots ==> v == i)
    && (forall t :: t in g.elections && t !in h.elections ==> g.elections[t].leader == i)
    && (forall t :: t in h.leaderLogs && g.leaderLogs[t] != h.leaderLogs[t] ==>
          t in h.elections && h.elections[t].leader == i)
  }

  lemma GrowsTransitive(h: History, g: History, f: History)
    requires Grows(h, g) && Grows(g, f)
    ensures Grows(h, f)
  {
    forall t | t in h.leaderLogs
      ensures h.leaderLogs[t] <= f.leaderLogs[t]
      ensures forall k :: |h.leaderLogs[t]| <= k < |f.leaderLogs[t]| ==> f.leaderLogs[t][k].term == t
    {
      forall k | |h.leaderLogs[t]| <= k < |f.leaderLogs[t]| ensures f.leaderLogs[t][k].term == t {
        if k < |g.leaderLogs[t]| { assert f.leaderLogs[t][k] == g.leaderLogs[t][k]; }
      }
    }
  }

  // ---------- the invariant of all runs ----------

  /** A node whose first vote in `term` still decides: the term has no leader yet, or this vote elected it. */
  ghost predicate Binding(h: History, v: NodeId, term: Term) {
    term in h.elections ==> v in h.elections[term].quorum
  }

  /** The log of a candidate was at least as up to date as the log of each of its voters. */
  ghost predicate BallotOk(h: History, members: set<NodeId>, v: NodeId, t: Term) {
    && (v, t) in h.ballots
    && var b := h.ballots[(v, t)];
    && v in members && t >= 1
    && Traced(b.log, h.leaderLogs)
    && (b.candidate, t) in h.ballots
    && h.ballots[(b.candidate, t)].candidate == b.candidate
    && var cl := h.ballots[(b.candidate, t)].log;
       UpToDate(LastTermOf(cl), |cl|, LastTermOf(b.log), |b.log|)
  }

  ghost predicate ElectionOk(h: History, members: set<NodeId>, t: Term) {
    && t in h.elections
    && var e := h.elections[t];
    && e.quorum <= members
    && 2 * |e.quorum| > |members|
    && e.leader in e.quorum
    && (forall u :: u in e.quorum ==> (u, t) in h.ballots && h.ballots[(u, t)].candidate == e.leader)
  }

  /** The log of a leader: what it was elected with, followed by entries of its own term. */
  ghost predicate LeaderLogOk(h: History, t: Term) {
    && t in h.elections && t in h.leaderLogs && (h.elections[t].leader, t) in h.ballots
    && var l := h.leaderLogs[t];
    var l0 := h.ballots[(h.elections[t].leader, t)].log;
    && Traced(l, h.leaderLogs)
    && Sorted(l)
    && l0 <= l
    && LastTermOf(l0) < t
    && (forall k :: |l0| <= k < |l| ==> l[k].term == t)
  }

  ghost predicate HistoryOk(h: History, members: set<NodeId>) {
    && h.leaderLogs.Keys == h.elections.Keys
    && (forall v, t :: (v, t) in h.ballots ==> BallotOk(h, members, v, t))
    && (forall t :: t in h.elections ==> ElectionOk(h, members, t))
    && (forall t :: t in h.elections ==> LeaderLogOk(h, t))
  }

  /** A node against its full log. */
  ghost predicate HostShape(i: NodeId, x: Host, members: set<NodeId>) {
    var n := x.node;
    && n.id == i
    && SharesMembership(n, members)
    && n.snapshotIndex <= |x.full|
    && n.log == x.full[n.snapshotIndex..]
    && n.snapshotTerm == TermOf(x.full, n.snapshotIndex)
    && n.snapshotIndex <= n.commitIndex
    && (forall p :: p in n.nextIndex ==> n.nextIndex[p] >= 1)
  }

  ghost predicate LogTies(x: Host, h: History) {
    && Traced(x.full, h.leaderLogs)
    && LastTermOf(x.full) <= x.node.currentTerm
  }

  ghost predicate VoteTies(i: NodeId, x: Host, h: History) {
    var n := x.node;
    var t := n.currentTerm;
    && (forall u :: (i, u) in h.ballots ==> u <= t)
    && (n.votedFor.Some? ==>
          (i, t) in h.ballots && (Binding(h, i, t) ==> h.ballots[(i, t)].candidate == n.votedFor.value))
    && (n.role != Follower ==> n.votedFor == Some(i))
    && (n.role == Candidate ==>
          (i, t) in h.ballots && h.ballots[(i, t)] == Ballot(i, x.full))
    && ((i, t) in h.ballots && Binding(h, i, t) ==>
          && n.votedFor == Some(h.ballots[(i, t)].candidate)
          && (n.role == Follower || h.ballots[(i, t)].candidate == i))
    && ((i, t) in h.ballots && t !in h.elections ==> x.full == h.ballots[(i, t)].log)
    && (t in h.elections && h.elections[t].leader == i ==> n.role != Candidate)
  }

  ghost predicate RoleTies(i: NodeId, x: Host, network: set<Envelope>, members: set<NodeId>, h: History) {
    var n := x.node;
    var t := n.currentTerm;
    && (n.role == Leader ==>
          && t in h.elections && h.elections[t].leader == i
          && t in h.leaderLogs && h.leaderLogs[t] == x.full)
    && (n.role == Candidate ==>
          && i in n.votes
          && (forall u :: u in n.votes && u != i ==>
                u in members && Envelope(u, i, VoteReply(RequestVoteResponse(t, true, u))) in network))
  }

  ghost predicate HostOk(i: NodeId, x: Host, network: set<Envelope>, members: set<NodeId>, h: History) {
    && HostShape(i, x, members)
    && LogTies(x, h)
    && VoteTies(i, x, h)
    && RoleTies(i, x, network, members, h)
  }

  /** A request carries a slice of the log of the leader of its term. */
  ghost predicate SliceOk(m: AppendEntries, leaderLogs: map<Term, seq<LogEntry>>) {
    && m.term in leaderLogs
    && var l := leaderLogs[m.term];
       && m.prevLogIndex + |m.entries| <= |l|
       && m.prevLogTerm == TermOf(l, m.prevLogIndex)
       && m.entries == l[m.prevLogIndex..m.prevLogIndex + |m.entries|]
  }

  ghost predicate MessageOk(e: Envelope, members: set<NodeId>, h: History) {
    && e.from in members && e.to in members && e.from != e.to
    && match e.message
       case VoteRequest(m) =>
         && m.candidateId == e.from
         && (e.from, m.term) in h.ballots
         && h.ballots[(e.from, m.term)].candidate == e.from
         && m.lastLogIndex == |h.ballots[(e.from, m.term)].log|
         && m.lastLogTerm == LastTermOf(h.ballots[(e.from, m.term)].log)
       case VoteReply(m) =>
         && m.from == e.from
         && (m.voteGranted && Binding(h, e.from, m.term) ==>
               (e.from, m.term) in h.ballots && h.ballots[(e.from, m.term)].candidate == e.to)
       case AppendRequest(m) =>
         && m.leaderId == e.from
         && m.term in h.elections && h.elections[m.term].leader == e.from
         && SliceOk(m, h.leaderLogs)
       case AppendReply(m) =>
         m.from == e.from
  }

  /** Holds in every state of every run. */
  ghost predicate Inv(c: Cluster, h: History) {
    && c.hosts.Keys == c.members
    && HistoryOk(h, c.members)
    && (forall i :: i in c.hosts ==> HostOk(i, c.hosts[i], c.network, c.members, h))
    && (forall e :: e in c.network ==> MessageOk(e, c.members, h))
  }

  lemma Known(c: Cluster, h: History, i: NodeId)
    requires Inv(c, h) && i in c.hosts
    ensures HostOk(i, c.hosts[i], c.network, c.members, h) && i in c.members && HistoryOk(h, c.members)
  {
    hide HostOk, HistoryOk;
  }

  lemma ActorFacts(c: Cluster, h: History, i: NodeId)
    requires Inv(c, h) && i in c.hosts
    ensures VoteTies(i, c.hosts[i], h) && RoleTies(i, c.hosts[i], c.network, c.members, h)
    ensures LogTies(c.hosts[i], h) && HostShape(i, c.hosts[i], c.members) && HistoryOk(h, c.members)
  {
    hide HistoryOk;
  }

  lemma KnownMessage(c: Cluster, h: History, e: Envelope)
    requires Inv(c, h) && e in c.network
    ensures MessageOk(e, c.members, h)
  {
    hide MessageOk;
  }

  // ---------- stability ----------

  lemma TracedGrows(log: seq<LogEntry>, a: map<Term, seq<LogEntry>>, b: map<Term, seq<LogEntry>>)
    requires Traced(log, a) && LogsGrow(a, b)
    ensures Traced(log, b)
  {
    forall k | 0 <= k < |log|
      ensures log[k].term in b && k < |b[log[k].term]| && log[..k + 1] == b[log[k].term][..k + 1]
    {
      var t := log[k].term;
      assert a[t][..k + 1] == b[t][..k + 1];
    }
  }

  lemma MessageStays(e: Envelope, members: set<NodeId>, h: History, g: History)
    requires MessageOk(e, members, h) && Grows(h, g)
    ensures MessageOk(e, members, g)
  {
    match e.message
    case VoteRequest(m) =>
    case VoteReply(m) =>
    case AppendRequest(m) =>
      var l, k := h.leaderLogs[m.term], g.leaderLogs[m.term];
      assert l[m.prevLogIndex..m.prevLogIndex + |m.entries|] == k[m.prevLogIndex..m.prevLogIndex + |m.entries|];
    case AppendReply(m) =>
  }

  /** A step of another node leaves what is known about node `j` in place. */
  lemma BystanderStays(j: NodeId, x: Host, network: set<Envelope>, network': set<Envelope>, members: set<NodeId>,
                       h: History, g: History, i: NodeId)
    requires HostOk(j, x, network, members, h)
    requires network <= network' && GrowsBy(h, g, i) && i != j
    requires HistoryOk(h, members)
    ensures HostOk(j, x, network', members, g)
  {
    TracedGrows(x.full, h.leaderLogs, g.leaderLogs);
    assert forall t :: (j, t) in g.ballots ==> (j, t) in h.ballots;
  }

  lemma BystandersStay(c: Cluster, h: History, g: History, i: NodeId, network': set<Envelope>)
    requires Inv(c, h) && GrowsBy(h, g, i) && c.network <= network'
    ensures forall j :: j in c.hosts && j != i ==> HostOk(j, c.hosts[j], network', c.members, g)
  {
    forall j | j in c.hosts && j != i ensures HostOk(j, c.hosts[j], network', c.members, g) {
      BystanderStays(j, c.hosts[j], c.network, network', c.members, h, g, i);
    }
  }

  lemma MessagesStay(network: set<Envelope>, members: set<NodeId>, h: History, g: History)
    requires Grows(h, g)
    requires forall e :: e in network ==> MessageOk(e, members, h)
    ensures forall e :: e in network ==> MessageOk(e, members, g)
  {
    forall e | e in network ensures MessageOk(e, members, g) {
      MessageStays(e, members, h, g);
    }
  }

  /** To keep the invariant it is enough to look at the acting node, its messages and the history. */
  lemma InvAfter(c: Cluster, h: History, g: History, i: NodeId, x: Host, sent: set<Envelope>)
    requires Inv(c, h) && i in c.hosts
    requires HistoryOk(g, c.members)
    requires GrowsBy(h, g, i)
    requires HostOk(i, x, c.network + sent, c.members, g)
    requires forall e :: e in sent ==> MessageOk(e, c.members, g)
    ensures Inv(Put(c, i, x, sent), g) && Grows(h, g)
  {
    hide HistoryOk, HostOk, MessageOk, Grows;
    BystandersStay(c, h, g, i, c.network + sent);
    MessagesStay(c.network, c.members, h, g);
  }
}
