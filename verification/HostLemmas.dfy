/** A compacted node read against its full log. */
module HostLemmas {
  import opened RaftTypes
  import opened LogMerge
  import opened Clusters
  import opened Histories

  /** From the snapshot up, terms are those of the full log; below it and beyond the end there are none. */
  lemma TermAtFull(x: Host, i: NodeId, members: set<NodeId>, k: nat)
    requires HostShape(i, x, members)
    ensures x.node.LastLogIndex() == |x.full|
    ensures x.node.TermAt(k) == if x.node.snapshotIndex <= k <= |x.full| then Some(TermOf(x.full, k)) else None
    ensures x.node.LastLogTerm() == LastTermOf(x.full)
  {
  }

  /** Two logs traced to the same leader logs that have the same term at an index agree up to it. */
  lemma TracedMatch(a: seq<LogEntry>, b: seq<LogEntry>, leaderLogs: map<Term, seq<LogEntry>>, k: nat)
    requires Traced(a, leaderLogs) && Traced(b, leaderLogs)
    requires k <= |a| && k <= |b| && TermOf(a, k) == TermOf(b, k)
    ensures a[..k] == b[..k]
  {
    if k > 0 {
      assert a[..k - 1 + 1] == leaderLogs[a[k - 1].term][..k - 1 + 1];
      assert b[..k - 1 + 1] == leaderLogs[b[k - 1].term][..k - 1 + 1];
    }
  }

  lemma TracedPrefix(a: seq<LogEntry>, leaderLogs: map<Term, seq<LogEntry>>, k: nat)
    requires Traced(a, leaderLogs) && k <= |a|
    ensures Traced(a[..k], leaderLogs)
  {
    forall j | 0 <= j < k
      ensures a[..k][j].term in leaderLogs && j < |leaderLogs[a[..k][j].term]|
      ensures a[..k][..j + 1] == leaderLogs[a[..k][j].term][..j + 1]
    {
      assert a[..k][..j + 1] == a[..j + 1];
    }
  }

  /** Merging at a compacted node overwrites the full log from the first conflict on. */
  lemma MergeOnFull(x: Host, i: NodeId, members: set<NodeId>, prev: nat, entries: seq<LogEntry>) returns (j: nat)
    requires HostShape(i, x, members)
    requires x.node.snapshotIndex <= prev <= |x.full|
    ensures FirstConflict(x.full, prev, entries, j)
    ensures x.full[..x.node.snapshotIndex] + MergeFrom(x.node.log, x.node.snapshotIndex, prev + 1, entries)
         == Overwritten(x.full, prev, entries, j)
  {
    var n := x.node;
    var s := n.snapshotIndex;
    j := MergeOverwrites(n.log, s, prev, entries);
    forall k | 0 <= k < j ensures x.full[prev + k].term == entries[k].term {
      assert n.log[prev - s + k] == x.full[prev + k];
    }
    if j < |entries| {
      assert x.full[..s] + (n.log[..prev - s + j] + entries[j..]) == x.full[..prev + j] + entries[j..];
    } else {
      assert x.full[..s] + n.log == x.full;
    }
  }

  /** A request cut from a leader log, accepted after the check of its previous entry: the follower then agrees
      with the leader on everything covered, and either kept its log or took over the leader's. */
  lemma AcceptedMeetsLeader(full: seq<LogEntry>, leaderLog: seq<LogEntry>, leaderLogs: map<Term, seq<LogEntry>>,
                            prev: nat, entries: seq<LogEntry>, j: nat)
    requires Traced(full, leaderLogs) && Traced(leaderLog, leaderLogs)
    requires prev + |entries| <= |leaderLog| && entries == leaderLog[prev..prev + |entries|]
    requires FirstConflict(full, prev, entries, j)
    requires TermOf(full, prev) == TermOf(leaderLog, prev)
    ensures var covered := prev + |entries|;
            var merged := Overwritten(full, prev, entries, j);
            && full[..prev + j] == leaderLog[..prev + j]
            && covered <= |merged| && merged[..covered] == leaderLog[..covered]
            && (merged == full || merged == leaderLog[..covered])
  {
    hide Traced;
    if j > 0 {
      assert full[prev + (j - 1)].term == entries[j - 1].term;
    }
    TracedMatch(full, leaderLog, leaderLogs, prev + j);
    if j < |entries| {
      TakenOver(full, leaderLog, prev, j, |entries|);
    }
  }

  lemma TakenOver(full: seq<LogEntry>, leaderLog: seq<LogEntry>, prev: nat, j: nat, count: nat)
    requires j <= count && prev + count <= |leaderLog| && prev + j <= |full|
              && full[..prev + j] == leaderLog[..prev + j]
    ensures full[..prev + j] + leaderLog[prev..prev + count][j..] == leaderLog[..prev + count]
  {
  }
}
