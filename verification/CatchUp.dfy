/** How a follower whose log differs from its leader's is brought up to date: the leader steps back one entry for every
    refusal and sends again, until a request is accepted. Delivery is reliable here and no newer term interferes. */
module CatchUp {
  import opened RaftTypes
  import opened LogMerge
  import opened NodeModel
  import opened Histories

  /** A leader, a follower, and the request on its way; `accepted` once a request was. */
  datatype Link = Link(leader: NodeState, follower: NodeState, pending: Option<AppendEntries>, accepted: bool)

  /** The request is delivered, and its answer. */
  function Exchange(s: Link, draw: nat): Link {
    match s.pending
    case None => s
    case Some(req) =>
      var (f, resp) := HandleAppendEntries(s.follower, req, draw);
      var (l, outbound) := HandleAppendEntriesResponse(s.leader, resp, draw);
      Link(l, f, if outbound == [] || outbound[0].SendRequestVote? then None else Some(outbound[0].append),
           resp.success)
  }

  function Exchanges(s: Link, draw: nat, k: nat): Link {
    if k == 0 then s else Exchange(Exchanges(s, draw, k - 1), draw)
  }

  /** `full` restores what compaction dropped from the log of `n`. */
  ghost predicate Backs(full: seq<LogEntry>, n: NodeState) {
    && n.snapshotIndex <= |full|
    && n.log == full[n.snapshotIndex..]
    && n.snapshotTerm == TermOf(full, n.snapshotIndex)
  }

  lemma TermAtBacked(full: seq<LogEntry>, n: NodeState, index: nat)
    requires Backs(full, n)
    ensures n.LastLogIndex() == |full|
    ensures n.snapshotIndex <= index <= |full| ==> n.TermAt(index) == Some(TermOf(full, index))
  {
  }

  /** The first `k` entries of the logs agree, and no longer prefix does. */
  ghost predicate LongestCommon(a: seq<LogEntry>, b: seq<LogEntry>, k: nat) {
    && k <= |a| && k <= |b| && a[..k] == b[..k]
    && (k < |a| && k < |b| ==> a[k] != b[k])
  }

  /** Log Matching: an entry of the same term at the same index has the same log before it. */
  ghost predicate Matching(a: seq<LogEntry>, b: seq<LogEntry>) {
    forall k :: 1 <= k <= |a| && k <= |b| && a[k - 1].term == b[k - 1].term ==> a[..k] == b[..k]
  }

  /** The leader is about to be answered on its request for index `next`. */
  ghost predicate Asking(s: Link, mine: seq<LogEntry>, theirs: seq<LogEntry>, next: nat) {
    && s.leader.role == Leader && s.follower.currentTerm <= s.leader.currentTerm
    && Backs(mine, s.leader) && Backs(theirs, s.follower)
    && s.leader.snapshotIndex < next <= |mine| + 1
    && s.follower.id in s.leader.nextIndex && s.leader.nextIndex[s.follower.id] == next
    && s.pending == AppendEntriesFor(s.leader, s.follower.id)
    && !s.accepted
  }

  lemma RequestAt(s: Link, mine: seq<LogEntry>, theirs: seq<LogEntry>, next: nat)
    requires Asking(s, mine, theirs, next)
    ensures s.pending == Some(AppendEntries(s.leader.currentTerm, s.leader.id, next - 1, TermOf(mine, next - 1),
                                            mine[next - 1..], s.leader.commitIndex))
  {
    TermAtBacked(mine, s.leader, next - 1);
    if next <= |mine| {
      assert s.leader.log[next - s.leader.snapshotIndex - 1..] == mine[next - 1..];
    } else {
      assert mine[next - 1..] == [];
    }
  }

  /** The follower has at `index` what the leader has. */
  ghost predicate Fits(mine: seq<LogEntry>, theirs: seq<LogEntry>, index: nat) {
    index <= |theirs| && index <= |mine| && TermOf(theirs, index) == TermOf(mine, index)
  }

  lemma Verdict(s: Link, mine: seq<LogEntry>, theirs: seq<LogEntry>, next: nat, draw: nat)
    requires Asking(s, mine, theirs, next)
    ensures s.pending.Some? && Backs(theirs, Recognise(s.follower, s.pending.value, draw))
    ensures var d := Recognise(s.follower, s.pending.value, draw);
            && d.id == s.follower.id && d.currentTerm == s.leader.currentTerm
            && d.snapshotIndex == s.follower.snapshotIndex
            && (RefusalIndex(d, s.pending.value).None?
                <==> s.follower.snapshotIndex < next && Fits(mine, theirs, next - 1))
  {
    RequestAt(s, mine, theirs, next);
    TermAtBacked(theirs, Recognise(s.follower, s.pending.value, draw), next - 1);
  }

  lemma RefusesAs(f: NodeState, req: AppendEntries, draw: nat)
    requires req.term >= f.currentTerm && RefusalIndex(Recognise(f, req, draw), req).Some?
    ensures var (m, resp) := HandleAppendEntries(f, req, draw);
            m == Recognise(f, req, draw) && !resp.success && resp.from == m.id && resp.term == m.currentTerm
  {
    hide MergeFrom, Recognise, RefusalIndex;
  }

  lemma BacksOff(l: NodeState, resp: AppendEntriesResponse, draw: nat)
    requires l.role == Leader && resp.term == l.currentTerm && !resp.success
    ensures HandleAppendEntriesResponse(l, resp, draw).0 == BackOff(l, resp.from)
    ensures HandleAppendEntriesResponse(l, resp, draw).1
         == match AppendEntriesFor(BackOff(l, resp.from), resp.from)
            case None => []
            case Some(request) => [SendAppendEntries(resp.from, request)]
  {
    hide AppendEntriesFor, BackOff;
    var m := BackOff(l, resp.from);
    assert [resp.from][1..] == [] && Heartbeats(m, []) == [];
    assert HandleAppendEntriesResponse(l, resp, draw) == (m, Heartbeats(m, [resp.from]));
  }

  /** After a refusal the leader goes back one entry, and sends the request for it if it can be built. */
  lemma RefusedExchange(s: Link, mine: seq<LogEntry>, theirs: seq<LogEntry>, next: nat, draw: nat)
    requires Asking(s, mine, theirs, next) && !(s.follower.snapshotIndex < next && Fits(mine, theirs, next - 1))
    ensures s.pending.Some?
    ensures var l := BackOff(s.leader, s.follower.id);
            Exchange(s, draw) == Link(l, Recognise(s.follower, s.pending.value, draw),
                                      AppendEntriesFor(l, s.follower.id), false)
  {
    Verdict(s, mine, theirs, next, draw);
    hide Recognise, RefusalIndex, AppendEntriesFor, Fits, HandleAppendEntries, HandleAppendEntriesResponse, BackOff;
    RequestAt(s, mine, theirs, next);
    var (f, resp) := HandleAppendEntries(s.follower, s.pending.value, draw);
    RefusesAs(s.follower, s.pending.value, draw);
    BacksOff(s.leader, resp, draw);
  }

  /** After a refusal the leader asks for the entry before, or falls silent at its snapshot. */
  lemma Refused(s: Link, mine: seq<LogEntry>, theirs: seq<LogEntry>, next: nat, draw: nat)
    requires Asking(s, mine, theirs, next) && !(s.follower.snapshotIndex < next && Fits(mine, theirs, next - 1))
    ensures var t := Exchange(s, draw);
            var before := if next == 1 then 1 else next - 1;
            && t.leader.snapshotIndex == s.leader.snapshotIndex && t.follower.snapshotIndex == s.follower.snapshotIndex
            && !t.accepted
            && (if before > s.leader.snapshotIndex then Asking(t, mine, theirs, before) else t.pending.None?)
  {
    hide Exchange, Recognise, AppendEntriesFor, Fits;
    RefusedExchange(s, mine, theirs, next, draw);
    Verdict(s, mine, theirs, next, draw);
    var before := if next == 1 then 1 else next - 1;
    if before <= s.leader.snapshotIndex {
      SilentBelow(BackOff(s.leader, s.follower.id), s.follower.id);
    }
  }

  lemma SilentBelow(l: NodeState, peer: NodeId)
    requires l.NextIndexOf(peer, 1) <= l.snapshotIndex
    ensures AppendEntriesFor(l, peer).None?
  {
  }

  /** What merging the rest of the leader's log behind a common prefix gives. */
  lemma MergeCompletes(mine: seq<LogEntry>, theirs: seq<LogEntry>, prev: nat)
    requires Matching(theirs, mine) && Fits(mine, theirs, prev)
    ensures mine <= MergeFrom(theirs, 0, prev + 1, mine[prev..])
  {
    var entries := mine[prev..];
    var j := MergeOverwrites(theirs, 0, prev, entries);
    assert theirs[..prev + j] == mine[..prev + j] by {
      if j > 0 { assert theirs[prev + (j - 1)].term == entries[j - 1].term; }
    }
    if j < |entries| {
      assert theirs[..prev + j] + entries[j..] == mine;
    }
  }

  lemma BackedAfterMerge(theirs: seq<LogEntry>, f: NodeState, prev: nat, entries: seq<LogEntry>)
    requires Backs(theirs, f) && f.snapshotIndex <= prev <= |theirs|
    ensures var whole := MergeFrom(theirs, 0, prev + 1, entries);
            Backs(whole, f.(log := MergeFrom(f.log, f.snapshotIndex, prev + 1, entries)))
  {
    var log := MergeFrom(f.log, f.snapshotIndex, prev + 1, entries);
    var whole := MergeFrom(theirs, 0, prev + 1, entries);
    MergeBehind(theirs, f.snapshotIndex, prev, entries);
    hide MergeFrom;
    assert theirs[..f.snapshotIndex] + log == whole;
    assert whole[f.snapshotIndex..] == log;
    assert f.snapshotIndex > 0 ==> whole[f.snapshotIndex - 1] == theirs[f.snapshotIndex - 1];
  }

  /** A follower that does not refuse merges on its whole log, and reports its length. */
  lemma Merged(f: NodeState, theirs: seq<LogEntry>, req: AppendEntries, draw: nat)
    requires Backs(theirs, f) && req.term >= f.currentTerm && f.snapshotIndex <= req.prevLogIndex <= |theirs|
    requires RefusalIndex(Recognise(f, req, draw), req).None?
    ensures var (m, resp) := HandleAppendEntries(f, req, draw);
            var whole := MergeFrom(theirs, 0, req.prevLogIndex + 1, req.entries);
            Backs(whole, m) && resp == AppendEntriesResponse(req.term, true, f.id, |whole|) && m.id == f.id
  {
    hide RefusalIndex, MergeFrom;
    BackedAfterMerge(theirs, Recognise(f, req, draw), req.prevLogIndex, req.entries);
  }

  lemma Recorded(l: NodeState, from: NodeId, index: nat, draw: nat)
    requires l.role == Leader
    ensures var resp := AppendEntriesResponse(l.currentTerm, true, from, index);
            var (m, outbound) := HandleAppendEntriesResponse(l, resp, draw);
            m.role == Leader && from in m.matchIndex && m.matchIndex[from] == index && outbound == []
  {
  }

  ghost predicate Holds(t: Link, mine: seq<LogEntry>, whole: seq<LogEntry>) {
    && Backs(whole, t.follower) && mine <= whole
    && t.follower.id in t.leader.matchIndex && t.leader.matchIndex[t.follower.id] == |whole|
  }

  /** The follower's log starts with the leader's whole log, and the leader has recorded what the follower has. */
  ghost predicate CaughtUp(t: Link, mine: seq<LogEntry>) {
    t.accepted && t.leader.role == Leader && exists whole :: Holds(t, mine, whole)
  }

  lemma ExchangeIs(s: Link, req: AppendEntries, draw: nat, f: NodeState, resp: AppendEntriesResponse, l: NodeState)
    requires s.pending == Some(req) && (f, resp) == HandleAppendEntries(s.follower, req, draw)
    requires (l, []) == HandleAppendEntriesResponse(s.leader, resp, draw)
    ensures Exchange(s, draw) == Link(l, f, None, resp.success)
  {
    hide HandleAppendEntries, HandleAppendEntriesResponse;
  }

  lemma AskingLeader(s: Link, mine: seq<LogEntry>, theirs: seq<LogEntry>, next: nat)
    requires Asking(s, mine, theirs, next)
    ensures s.leader.role == Leader && s.follower.currentTerm <= s.leader.currentTerm && Backs(theirs, s.follower)
    ensures 0 < next <= |mine| + 1
  {
  }

  lemma Taken(s: Link, mine: seq<LogEntry>, theirs: seq<LogEntry>, next: nat, draw: nat)
    requires Asking(s, mine, theirs, next) && Matching(theirs, mine)
    requires s.follower.snapshotIndex < next && Fits(mine, theirs, next - 1)
    ensures CaughtUp(Exchange(s, draw), mine)
  {
    hide Recognise, RefusalIndex, AppendEntriesFor, MergeFrom, Matching, HandleAppendEntries,
      HandleAppendEntriesResponse,
      Backs, Asking, Exchange;
    AskingLeader(s, mine, theirs, next);
    Verdict(s, mine, theirs, next, draw);
    RequestAt(s, mine, theirs, next);
    MergeCompletes(mine, theirs, next - 1);
    var req := s.pending.value;
    var whole := MergeFrom(theirs, 0, next, mine[next - 1..]);
    Merged(s.follower, theirs, req, draw);
    Recorded(s.leader, s.follower.id, |whole|, draw);
    var (f, resp) := HandleAppendEntries(s.follower, req, draw);
    ExchangeIs(s, req, draw, f, resp, HandleAppendEntriesResponse(s.leader, resp, draw).0);
    assert Holds(Exchange(s, draw), mine, whole);
  }

  lemma FitsUpTo(mine: seq<LogEntry>, theirs: seq<LogEntry>, common: nat, index: nat)
    requires Matching(theirs, mine) && LongestCommon(theirs, mine, common) && index <= |mine|
    ensures Fits(mine, theirs, index) <==> index <= common
  {
    if index <= common {
      if index > 0 { assert theirs[..common][index - 1] == mine[..common][index - 1]; }
    } else if index <= |theirs| {
      assert theirs[..index][common] != mine[..index][common];
    }
  }

  lemma {:induction false} RefusedUntilCommon(s: Link, mine: seq<LogEntry>, theirs: seq<LogEntry>, common: nat,
                                              draw: nat, k: nat)
    requires Asking(s, mine, theirs, |mine| + 1)
    requires Matching(theirs, mine) && LongestCommon(theirs, mine, common)
    requires s.leader.snapshotIndex <= common && s.follower.snapshotIndex <= common
    requires k <= |mine| - common
    ensures var t := Exchanges(s, draw, k);
            && Asking(t, mine, theirs, |mine| + 1 - k)
            && t.leader.snapshotIndex == s.leader.snapshotIndex && t.follower.snapshotIndex == s.follower.snapshotIndex
  {
    hide Asking, Fits, Matching, Exchange;
    if k > 0 {
      RefusedUntilCommon(s, mine, theirs, common, draw, k - 1);
      FitsUpTo(mine, theirs, common, |mine| + 1 - k);
      Refused(Exchanges(s, draw, k - 1), mine, theirs, |mine| + 2 - k, draw);
    }
  }

  /** Catch-up terminates: as long as the logs agree up to both snapshots, the follower accepts request number
      `|mine| - common + 1` and no earlier one, where `common` is the length of what the logs share; then its log starts
      with the leader's whole log, and the leader records all of it. */
  lemma CatchUpTerminates(s: Link, mine: seq<LogEntry>, theirs: seq<LogEntry>, common: nat, draw: nat)
    requires Asking(s, mine, theirs, |mine| + 1)
    requires Matching(theirs, mine) && LongestCommon(theirs, mine, common)
    requires s.leader.snapshotIndex <= common && s.follower.snapshotIndex <= common
    ensures forall k: nat :: k <= |mine| - common ==> !Exchanges(s, draw, k).accepted
    ensures CaughtUp(Exchanges(s, draw, |mine| - common + 1), mine)
  {
    hide Fits, Matching, Exchange, CaughtUp, Asking, LongestCommon;
    assert common <= |mine| by { CommonShorter(theirs, mine, common); }
    forall k: nat | k <= |mine| - common ensures !Exchanges(s, draw, k).accepted {
      RefusedUntilCommon(s, mine, theirs, common, draw, k);
      AskingAbove(Exchanges(s, draw, k), mine, theirs, |mine| + 1 - k);
    }
    RefusedUntilCommon(s, mine, theirs, common, draw, |mine| - common);
    FitsUpTo(mine, theirs, common, common);
    Taken(Exchanges(s, draw, |mine| - common), mine, theirs, common + 1, draw);
  }

  /** The leader is asking, or has nothing left to ask. */
  ghost predicate Trying(s: Link, mine: seq<LogEntry>, theirs: seq<LogEntry>) {
    && !s.accepted
    && (s.pending.None? || exists next: nat :: Asking(s, mine, theirs, next))
  }

  lemma {:induction false} Stalls(s: Link, mine: seq<LogEntry>, theirs: seq<LogEntry>, common: nat, draw: nat, k: nat)
    requires Asking(s, mine, theirs, |mine| + 1)
    requires Matching(theirs, mine) && LongestCommon(theirs, mine, common)
    requires common < s.leader.snapshotIndex || common < s.follower.snapshotIndex
    ensures var t := Exchanges(s, draw, k);
            && Trying(t, mine, theirs)
            && t.leader.snapshotIndex == s.leader.snapshotIndex && t.follower.snapshotIndex == s.follower.snapshotIndex
  {
    hide Asking, Fits, Matching, Exchange, LongestCommon;
    AskingAbove(s, mine, theirs, |mine| + 1);
    if k > 0 {
      Stalls(s, mine, theirs, common, draw, k - 1);
      var t := Exchanges(s, draw, k - 1);
      if t.pending.None? {
        NothingPending(t, draw);
      } else {
        var next: nat :| Asking(t, mine, theirs, next);
        AskingLeader(t, mine, theirs, next);
        FitsUpTo(mine, theirs, common, next - 1);
        assert next > t.leader.snapshotIndex by { AskingAbove(t, mine, theirs, next); }
        Refused(t, mine, theirs, next, draw);
      }
    }
  }

  lemma NothingPending(s: Link, draw: nat)
    requires s.pending.None?
    ensures Exchange(s, draw) == s
  {
  }

  lemma AskingAbove(s: Link, mine: seq<LogEntry>, theirs: seq<LogEntry>, next: nat)
    requires Asking(s, mine, theirs, next)
    ensures next > s.leader.snapshotIndex && !s.accepted
  {
  }

  /** Exactly when catch-up works: neither node has compacted beyond what the two logs share. */
  lemma CatchUpExactly(s: Link, mine: seq<LogEntry>, theirs: seq<LogEntry>, common: nat, draw: nat)
    requires Asking(s, mine, theirs, |mine| + 1)
    requires Matching(theirs, mine) && LongestCommon(theirs, mine, common)
    ensures (exists k: nat :: Exchanges(s, draw, k).accepted)
       <==> s.leader.snapshotIndex <= common && s.follower.snapshotIndex <= common
  {
    hide Asking, Matching, Exchange, LongestCommon;
    assert common <= |mine| by { CommonShorter(theirs, mine, common); }
    if s.leader.snapshotIndex <= common && s.follower.snapshotIndex <= common {
      CatchUpTerminates(s, mine, theirs, common, draw);
      assert Exchanges(s, draw, |mine| - common + 1).accepted;
    } else {
      forall k: nat ensures !Exchanges(s, draw, k).accepted {
        Stalls(s, mine, theirs, common, draw, k);
      }
    }
  }

  lemma CommonShorter(a: seq<LogEntry>, b: seq<LogEntry>, k: nat)
    requires LongestCommon(a, b, k)
    ensures k <= |a| && k <= |b|
  {
  }
}
