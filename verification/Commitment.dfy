/** When an entry is chosen, and why the leader of every later term has it, in any run. */
module Commitment {
  import opened RaftTypes
  import opened Clusters
  import opened Histories
  import opened HostLemmas
  import opened LeaderSteps
  import opened Holdings

  /** A majority has held the entry of `term` at `index`, each while in that term. */
  ghost predicate HeldByAll(q: set<NodeId>, term: Term, index: nat, held: set<Holding>, members: set<NodeId>) {
    && q <= members
    && 2 * |q| > |members|
    && (forall u :: u in q ==> Holding(u, term, index) in held)
  }

  ghost predicate Chosen(term: Term, index: nat, held: set<Holding>, members: set<NodeId>) {
    exists q: set<NodeId> :: HeldByAll(q, term, index, held, members)
  }

  /** What is held is in the log of the leader of its term. */
  ghost predicate OwnHeld(held: set<Holding>, h: History) {
    forall e :: e in held ==>
      e.term in h.elections && e.term in h.leaderLogs && Has(h.leaderLogs[e.term], e.term, e.index)
  }

  /** The first `k` entries of the log are those of a leader of term at most `bound` up to a chosen entry. */
  ghost predicate Committed(log: seq<LogEntry>, k: nat, bound: Term,
                            held: set<Holding>, members: set<NodeId>, h: History) {
    && k <= |log|
    && (k > 0 ==> exists t: Term, index: nat :: t <= bound && CommittedBy(log, k, t, index, held, members, h))
  }

  ghost predicate CommittedBy(log: seq<LogEntry>, k: nat, t: Term, index: nat,
                              held: set<Holding>, members: set<NodeId>, h: History)
  {
    && Chosen(t, index, held, members)
    && t in h.leaderLogs && k <= index <= |h.leaderLogs[t]| && k <= |log|
    && log[..k] == h.leaderLogs[t][..k]
  }

  // ---------- stability ----------

  lemma ChosenStays(t: Term, index: nat, held: set<Holding>, held': set<Holding>, members: set<NodeId>)
    requires Chosen(t, index, held, members) && held <= held'
    ensures Chosen(t, index, held', members)
  {
    var q: set<NodeId> :| HeldByAll(q, t, index, held, members);
    assert HeldByAll(q, t, index, held', members);
  }

  lemma CommittedStays(log: seq<LogEntry>, log': seq<LogEntry>, k: nat, bound: Term, bound': Term,
                       held: set<Holding>, held': set<Holding>, members: set<NodeId>, h: History, g: History)
    requires Committed(log, k, bound, held, members, h) && held <= held' && Grows(h, g) && bound <= bound'
    requires k <= |log'| && log'[..k] == log[..k]
    ensures Committed(log', k, bound', held', members, g)
  {
    hide Chosen;
    if k > 0 {
      var t: Term, index: nat :| t <= bound && CommittedBy(log, k, t, index, held, members, h);
      ChosenStays(t, index, held, held', members);
      assert g.leaderLogs[t][..k] == h.leaderLogs[t][..k];
      assert CommittedBy(log', k, t, index, held', members, g);
    }
  }

  // ---------- later leaders have what was chosen ----------

  /** A voter that held the entry passes it on to the leader it elects, if every leader in between had it. */
  lemma ElectedFromHolder(h: History, members: set<NodeId>, t: Term, index: nat, v: Term, u: NodeId)
    requires HistoryOk(h, members) && v in h.elections && t < v && 1 <= index
    requires u in h.elections[v].quorum
    requires (u, v) in h.ballots && Has(h.ballots[(u, v)].log, t, index)
    requires forall w :: w in h.elections && t < w < v ==> w in h.leaderLogs && Has(h.leaderLogs[w], t, index)
    ensures v in h.leaderLogs && Has(h.leaderLogs[v], t, index)
  {
    hide Traced, Sorted;
    assert ElectionOk(h, members, v) && LeaderLogOk(h, v);
    assert BallotOk(h, members, u, v);
    var leader := h.elections[v].leader;
    assert BallotOk(h, members, leader, v);
    var mine, theirs := h.ballots[(u, v)].log, h.ballots[(leader, v)].log;
    TracedSorted(h, members, mine);
    TracedIsPrefix(mine, h.leaderLogs);
    assert LastTermOf(mine) >= t by { LastIsGreatest(mine, index); }
    TracedIsPrefix(theirs, h.leaderLogs);
    var w := LastTermOf(theirs);
    if w == LastTermOf(mine) {
      assert Has(theirs, t, index) by {
        assert mine[index - 1] == h.leaderLogs[w][index - 1] == theirs[index - 1];
      }
    } else {
      assert w in h.elections && t < w < v;
      assert LeaderLogOk(h, w);
      assert Has(theirs, t, index) by {
        assert theirs[|theirs| - 1] == h.leaderLogs[w][|theirs| - 1];
        if |theirs| < index { SortedAt(h.leaderLogs[w], |theirs| - 1, index - 1); }
        assert theirs[index - 1] == h.leaderLogs[w][index - 1];
      }
    }
    assert h.leaderLogs[v][index - 1] == theirs[index - 1];
  }

  lemma LastIsGreatest(log: seq<LogEntry>, index: nat)
    requires Sorted(log) && 1 <= index <= |log|
    ensures log[index - 1].term <= LastTermOf(log)
  {
  }

  lemma SortedAt(log: seq<LogEntry>, a: nat, b: nat)
    requires Sorted(log) && a <= b < |log|
    ensures log[a].term <= log[b].term
  {
  }

  /** Leader Completeness, in any run: the leader of every later term has the chosen entry. */
  lemma {:induction false} ChosenIsInLaterLogs(h: History, members: set<NodeId>, held: set<Holding>,
                                               t: Term, index: nat, v: Term)
    requires HistoryOk(h, members) && BallotTies(held, h) && OwnHeld(held, h)
    requires Chosen(t, index, held, members) && v in h.elections && t < v
    ensures v in h.leaderLogs && Has(h.leaderLogs[v], t, index)
    decreases v
  {
    forall w | w in h.elections && t < w < v ensures w in h.leaderLogs && Has(h.leaderLogs[w], t, index) {
      ChosenIsInLaterLogs(h, members, held, t, index, w);
    }
    hide LeaderLogOk, BallotOk;
    var q: set<NodeId> :| HeldByAll(q, t, index, held, members);
    assert ElectionOk(h, members, v);
    var u := MajoritiesMeet(members, q, h.elections[v].quorum);
    var e := Holding(u, t, index);
    assert Binding(h, u, v) && e in held && BroughtTo(h, e, v);
    assert Has(h.ballots[(u, v)].log, t, index);
    ElectedFromHolder(h, members, t, index, v, u);
  }

  /** Every leader from the choosing term on agrees with the choosing leader up to the chosen index. */
  lemma ChosenIsShared(h: History, members: set<NodeId>, held: set<Holding>, t: Term, index: nat, v: Term)
    requires HistoryOk(h, members) && BallotTies(held, h) && OwnHeld(held, h)
    requires Chosen(t, index, held, members) && v in h.elections && t <= v && t in h.elections
    ensures t in h.leaderLogs && v in h.leaderLogs && index <= |h.leaderLogs[t]| && index <= |h.leaderLogs[v]|
    ensures h.leaderLogs[v][..index] == h.leaderLogs[t][..index]
  {
    hide BallotTies, BallotOk, ElectionOk, Traced, Sorted, HeldByAll;
    ChosenIsOwn(h, members, held, t, index);
    if t < v {
      ChosenIsInLaterLogs(h, members, held, t, index, v);
      assert LeaderLogOk(h, t) && LeaderLogOk(h, v);
      TracedMatch(h.leaderLogs[t], h.leaderLogs[v], h.leaderLogs, index);
    }
  }

  lemma ChosenIsOwn(h: History, members: set<NodeId>, held: set<Holding>, t: Term, index: nat)
    requires OwnHeld(held, h) && Chosen(t, index, held, members)
    ensures t in h.elections && t in h.leaderLogs && Has(h.leaderLogs[t], t, index)
  {
    var q: set<NodeId> :| HeldByAll(q, t, index, held, members);
    assert q != {};
    var u :| u in q;
    assert Holding(u, t, index) in held;
  }

  /** A committed prefix is a prefix of the log of every leader of an equal or later term. */
  lemma CommittedInLeader(h: History, held: set<Holding>, members: set<NodeId>, log: seq<LogEntry>, k: nat, t: Term)
    requires HistoryOk(h, members) && BallotTies(held, h) && OwnHeld(held, h)
    requires t in h.elections && t in h.leaderLogs && Committed(log, k, t, held, members, h)
    ensures k <= |log| && k <= |h.leaderLogs[t]| && log[..k] == h.leaderLogs[t][..k]
  {
    hide HistoryOk, BallotTies, OwnHeld, Chosen;
    if k > 0 {
      var u: Term, index: nat :| u <= t && CommittedBy(log, k, u, index, held, members, h);
      ChosenIsOwn(h, members, held, u, index);
      ChosenIsShared(h, members, held, u, index, t);
      assert h.leaderLogs[t][..index][..k] == h.leaderLogs[u][..index][..k];
    }
  }

  /** Any two committed prefixes agree where both are defined. */
  lemma CommittedAgree(h: History, members: set<NodeId>, held: set<Holding>,
                       a: seq<LogEntry>, j: nat, s: Term, b: seq<LogEntry>, k: nat, r: Term)
    requires HistoryOk(h, members) && BallotTies(held, h) && OwnHeld(held, h)
    requires Committed(a, j, s, held, members, h) && Committed(b, k, r, held, members, h)
    ensures var m := Min(j, k); m <= |a| && m <= |b| && a[..m] == b[..m]
  {
    hide HistoryOk, BallotTies, OwnHeld, Chosen;
    var m := Min(j, k);
    if m > 0 {
      var t: Term, index: nat :| t <= s && CommittedBy(a, j, t, index, held, members, h);
      var u: Term, jndex: nat :| u <= r && CommittedBy(b, k, u, jndex, held, members, h);
      ChosenIsOwn(h, members, held, t, index);
      ChosenIsOwn(h, members, held, u, jndex);
      if t <= u {
        ChosenIsShared(h, members, held, t, index, u);
        assert h.leaderLogs[u][..index][..m] == h.leaderLogs[t][..index][..m];
      } else {
        ChosenIsShared(h, members, held, u, jndex, t);
        assert h.leaderLogs[u][..jndex][..m] == h.leaderLogs[t][..jndex][..m];
      }
      assert a[..m] == a[..j][..m] == h.leaderLogs[t][..m];
      assert b[..m] == b[..k][..m] == h.leaderLogs[u][..m];
    }
  }

  lemma HeldIsOwned(c: Cluster, h: History, held: set<Holding>)
    requires Inv(c, h) && HeldInv(c, h, held)
    ensures OwnHeld(held, h) && BallotTies(held, h) && HistoryOk(h, c.members)
  {
    hide BallotTies, Lost, HistoryOk;
    forall e | e in held
      ensures e.term in h.elections && e.term in h.leaderLogs && Has(h.leaderLogs[e.term], e.term, e.index)
    {
      assert e.holder in c.hosts && HoldTies(e.holder, c.hosts[e.holder], held, h);
      assert StillHeld(c.hosts[e.holder], e, h);
    }
  }
}
