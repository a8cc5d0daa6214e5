/** When a follower that hears its leader's heartbeats starts no election: leader and follower tick in lockstep, and
    every heartbeat is delivered before the next tick. */
module Lockstep {
  import opened RaftTypes
  import opened LogMerge
  import opened NodeModel

  datatype Pair = Pair(leader: NodeState, follower: NodeState)

  /** Ticks from one heartbeat to the next; an interval of 0 beats like an interval of 1. */
  function Period(n: NodeState): nat {
    if n.clock.heartbeatInterval == 0 then 1 else n.clock.heartbeatInterval
  }

  /** What else the leader does between two ticks, replies and proposals included, as far as it matters here. */
  ghost predicate SameReign(l: NodeState, m: NodeState) {
    && l.role == Leader && m.role == Leader
    && m.id == l.id && m.peers == l.peers && m.currentTerm == l.currentTerm && m.clock == l.clock
  }

  /** The heartbeat to a peer that the next tick sends. */
  function Beat(l: NodeState, peer: NodeId): Option<AppendEntries> {
    if l.clock.heartbeatElapsed + 1 >= l.clock.heartbeatInterval
    then AppendEntriesFor(l.(clock := l.clock.(heartbeatElapsed := 0)), peer) else None
  }

  function Hear(f: NodeState, beat: Option<AppendEntries>, draw: nat): NodeState {
    match beat
    case None => f
    case Some(req) => HandleAppendEntries(f, req, draw).0
  }

  /** The follower after one tick of both; it hears the heartbeat of this tick before its own tick when `early`, and
      behind it otherwise. */
  function FollowerAfter(p: Pair, early: bool, draw: nat): NodeState {
    var beat := Beat(p.leader, p.follower.id);
    if early then Tick(Hear(p.follower, beat, draw), draw).0 else Hear(Tick(p.follower, draw).0, beat, draw)
  }

  ghost predicate Round(p: Pair, q: Pair, early: bool, draw: nat) {
    && SameReign(Tick(p.leader, draw).0, q.leader)
    && (p.leader.clock.heartbeatElapsed + 1 >= p.leader.clock.heartbeatInterval ==> Beat(p.leader, p.follower.id).Some?)
    && q.follower == FollowerAfter(p, early, draw)
  }

  ghost predicate Rounds(pairs: seq<Pair>, early: seq<bool>, draw: nat) {
    && |pairs| == |early| + 1
    && (forall k :: 0 <= k < |early| ==> Round(pairs[k], pairs[k + 1], early[k], draw))
  }

  // ---------- heartbeats ----------

  /** Ticking sends exactly the heartbeat that Beat gives. */
  lemma BeatIsSent(l: NodeState, peer: NodeId, draw: nat, req: AppendEntries)
    requires l.role == Leader && peer in l.peers
    ensures SendAppendEntries(peer, req) in Tick(l, draw).1 <==> Beat(l, peer) == Some(req)
  {
    hide AppendEntriesFor;
    InHeartbeats(l.(clock := l.clock.(heartbeatElapsed := 0)), l.peers, peer, req);
  }

  lemma {:induction false} InHeartbeats(n: NodeState, peers: seq<NodeId>, peer: NodeId, req: AppendEntries)
    ensures SendAppendEntries(peer, req) in Heartbeats(n, peers) 
         <==> peer in peers && AppendEntriesFor(n, peer) == Some(req)
    decreases |peers|
  {
    hide AppendEntriesFor;
    if peers != [] {
      InHeartbeats(n, peers[1..], peer, req);
    }
  }

  lemma HearingKeeps(f: NodeState, req: AppendEntries, draw: nat)
    requires f.role == Follower && req.term == f.currentTerm
    ensures var m := HandleAppendEntries(f, req, draw).0;
            m.role == Follower && m.currentTerm == f.currentTerm && m.clock == f.clock.(electionElapsed := 0)
                && m.id == f.id
  {
    hide MergeFrom;
  }

  lemma BeatTerm(l: NodeState, peer: NodeId)
    ensures Beat(l, peer).Some? ==> Beat(l, peer).value.term == l.currentTerm
  {
  }

  // ---------- staying a follower ----------

  /** The follower follows this leader, and the leader's clock tells up to `slack` when it last heard from it. */
  ghost predicate Follows(p: Pair, slack: nat) {
    var l, f := p.leader, p.follower;
    && l.role == Leader && f.role == Follower && f.currentTerm == l.currentTerm
    && f.clock.electionElapsed <= l.clock.heartbeatElapsed + slack
    && l.clock.heartbeatElapsed < Period(l) < f.clock.electionTimeout
  }

  /** One round, with the slack that the order of hearing and ticking leaves behind. */
  lemma RoundKeeps(p: Pair, q: Pair, early: bool, draw: nat, slack: nat)
    requires Follows(p, slack) && Round(p, q, early, draw)
    requires if early then slack == 1 else Period(p.leader) + slack < p.follower.clock.electionTimeout
    ensures Follows(q, slack) && q.follower.clock.electionTimeout == p.follower.clock.electionTimeout
    ensures Period(q.leader) == Period(p.leader)
  {
    hide HandleAppendEntries, AppendEntriesFor, Heartbeats, StartElection;
    var l, f := p.leader, p.follower;
    BeatTerm(l, f.id);
    if l.clock.heartbeatElapsed + 1 >= l.clock.heartbeatInterval {
      var req := Beat(l, f.id).value;
      HearingKeeps(f, req, draw);
      HearingKeeps(f.(clock := f.clock.(electionElapsed := f.clock.electionElapsed + 1)), req, draw);
    }
  }

  lemma {:induction false} FollowsThroughout(pairs: seq<Pair>, early: seq<bool>, draw: nat, slack: nat, k: nat)
    requires Rounds(pairs, early, draw) && k < |pairs| && Follows(pairs[0], slack)
    requires forall j :: 0 <= j < |early| ==>
               if early[j] then slack == 1
               else Period(pairs[0].leader) + slack < pairs[0].follower.clock.electionTimeout
    ensures Follows(pairs[k], slack) && Period(pairs[k].leader) == Period(pairs[0].leader)
    ensures pairs[k].follower.clock.electionTimeout == pairs[0].follower.clock.electionTimeout
  {
    hide Round, Follows;
    if k > 0 {
      FollowsThroughout(pairs, early, draw, slack, k - 1);
      RoundKeeps(pairs[k - 1], pairs[k], early[k - 1], draw, slack);
    }
  }

  // ---------- starting an election ----------

  /** The pair `j` rounds after a heartbeat, as long as nothing else happens. */
  function Quiet(p: Pair, j: nat): Pair {
    Pair(p.leader.(clock := p.leader.clock.(heartbeatElapsed := j)),
         p.follower.(clock := p.follower.clock.(electionElapsed := p.follower.clock.electionElapsed + j)))
  }

  lemma QuietRound(p: Pair, j: nat, early: bool, draw: nat)
    requires p.leader.role == Leader && p.follower.role == Follower
    requires j + 1 < p.leader.clock.heartbeatInterval
    requires p.follower.clock.electionElapsed + j + 1 < p.follower.clock.electionTimeout
    ensures Round(Quiet(p, j), Quiet(p, j + 1), early, draw)
  {
  }

  /** A leader that has just sent a heartbeat which its follower has heard, and could send another. */
  ghost predicate JustHeard(p: Pair, elapsed: nat) {
    && p.leader.role == Leader && p.follower.role == Follower && p.follower.currentTerm == p.leader.currentTerm
    && p.leader.clock.heartbeatElapsed == 0
      && p.follower.clock.electionElapsed == elapsed < p.follower.clock.electionTimeout
    && AppendEntriesFor(p.leader, p.follower.id).Some?
  }

  /** Some schedule of rounds, all of the same order unless `mixed`, makes the follower start an election. */
  ghost predicate Deposed(p: Pair, pairs: seq<Pair>, early: seq<bool>, draw: nat, order: bool, mixed: bool) {
    && Rounds(pairs, early, draw) && pairs[0] == p && pairs[|early|].follower.role != Follower
    && (mixed || forall j :: 0 <= j < |early| ==> early[j] == order)
  }

  lemma LastRound(p: Pair, j: nat, early: bool, draw: nat) returns (q: Pair)
    requires JustHeard(p, p.follower.clock.electionElapsed)
    requires p.follower.clock.electionElapsed + j + 1 >= p.follower.clock.electionTimeout
    requires j < Period(p.leader) && (early ==> j + 1 < Period(p.leader))
    ensures Round(Quiet(p, j), q, early, draw) && q.follower.role == Candidate
  {
    hide Heartbeats, VoteRequests, MergeFrom;
    var s := Quiet(p, j);
    assert s.leader.(clock := s.leader.clock.(heartbeatElapsed := 0)) == p.leader;
    q := Pair(Tick(s.leader, draw).0, FollowerAfter(s, early, draw));
  }

  lemma Overthrow(p: Pair, draw: nat, order: bool, mixed: bool) returns (pairs: seq<Pair>, early: seq<bool>)
    requires JustHeard(p, p.follower.clock.electionElapsed)
    requires var quiet := p.follower.clock.electionTimeout - p.follower.clock.electionElapsed - 1;
             quiet < Period(p.leader) && (order && !mixed ==> quiet + 1 < Period(p.leader))
    ensures Deposed(p, pairs, early, draw, order, mixed)
  {
    hide Round, Quiet;
    var quiet: nat := p.follower.clock.electionTimeout - p.follower.clock.electionElapsed - 1;
    var last := order && !mixed;
    var q := LastRound(p, quiet, last, draw);
    early := seq(quiet + 1, j => if j < quiet then order else last);
    pairs := seq(quiet + 1, j requires 0 <= j < quiet + 1 => Quiet(p, j)) + [q];
    forall k | 0 <= k < |early| ensures Round(pairs[k], pairs[k + 1], early[k], draw) {
      if k < quiet { QuietRound(p, k, order, draw); }
    }
    assert Quiet(p, 0) == p by { QuietStart(p); }
  }

  lemma QuietStart(p: Pair)
    requires p.leader.clock.heartbeatElapsed == 0
    ensures Quiet(p, 0) == p
  {
  }

  lemma HeardFollows(p: Pair, slack: nat)
    requires JustHeard(p, slack) && Period(p.leader) < p.follower.clock.electionTimeout
    ensures Follows(p, slack)
  {
  }

  lemma NotDeposed(p: Pair, pairs: seq<Pair>, early: seq<bool>, draw: nat, order: bool, mixed: bool, slack: nat)
    requires JustHeard(p, slack) && Period(p.leader) < p.follower.clock.electionTimeout
    requires if mixed then slack == 1 && Period(p.leader) + 1 < p.follower.clock.electionTimeout
             else slack == (if order then 1 else 0)
    ensures !Deposed(p, pairs, early, draw, order, mixed)
  {
    if Deposed(p, pairs, early, draw, order, mixed) {
      hide Round, JustHeard;
      HeardFollows(p, slack);
      FollowsThroughout(pairs, early, draw, slack, |early|);
    }
  }

  /** Stable leadership, exactly: when every heartbeat is heard on the same side of the follower's tick, the follower
      can come to start an election if and only if its timeout is no longer than the heartbeat period. */
  lemma StableLeadership(p: Pair, draw: nat, order: bool)
    requires JustHeard(p, if order then 1 else 0)
    ensures (exists pairs, early :: Deposed(p, pairs, early, draw, order, false))
       <==> p.follower.clock.electionTimeout <= Period(p.leader)
  {
    hide Deposed, JustHeard;
    if p.follower.clock.electionTimeout <= Period(p.leader) {
      HeardFacts(p, if order then 1 else 0);
      var pairs, early := Overthrow(p, draw, order, false);
    } else {
      forall pairs, early ensures !Deposed(p, pairs, early, draw, order, false) {
        NotDeposed(p, pairs, early, draw, order, false, if order then 1 else 0);
      }
    }
  }

  lemma HeardFacts(p: Pair, elapsed: nat)
    requires JustHeard(p, elapsed)
    ensures p.follower.clock.electionElapsed == elapsed < p.follower.clock.electionTimeout
  {
  }

  /** A heartbeat interval of 0 is less than an election timeout of 1, and yet the follower can start an election. */
  lemma ZeroIntervalIsUnstable(p: Pair, draw: nat)
    requires JustHeard(p, 0) && p.leader.clock.heartbeatInterval == 0 && p.follower.clock.electionTimeout == 1
    ensures exists pairs, early :: Deposed(p, pairs, early, draw, false, false)
  {
    StableLeadership(p, draw, false);
  }

  /** When the order may change from round to round, one more tick is needed. */
  lemma StableInAnyOrder(p: Pair, draw: nat)
    requires JustHeard(p, 1)
    ensures (exists pairs, early :: Deposed(p, pairs, early, draw, false, true))
       <==> p.follower.clock.electionTimeout <= Period(p.leader) + 1
  {
    hide Deposed, JustHeard;
    if p.follower.clock.electionTimeout <= Period(p.leader) + 1 {
      HeardFacts(p, 1);
      var pairs, early := Overthrow(p, draw, false, true);
    } else {
      forall pairs, early ensures !Deposed(p, pairs, early, draw, false, true) {
        NotDeposed(p, pairs, early, draw, false, true, 1);
      }
    }
  }
}
