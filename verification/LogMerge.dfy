/** The loop with which a follower merges the entries of a request into its log. */
module LogMerge {
  import opened RaftTypes

  /** The merge loop from index `at` on, over a log whose first `snapshot` entries were dropped. */
  function MergeFrom(log: seq<LogEntry>, snapshot: nat, at: nat, entries: seq<LogEntry>): seq<LogEntry>
    decreases |entries|
  {
    if entries == [] then log
    else if at <= snapshot then MergeFrom(log, snapshot, at + 1, entries[1..])
    else
      var offset := at - snapshot - 1;
      if offset >= |log| then MergeFrom(log + [entries[0]], snapshot, at + 1, entries[1..])
      else if log[offset].term != entries[0].term then
        MergeFrom(log[..offset] + [entries[0]], snapshot, at + 1, entries[1..])
      else MergeFrom(log, snapshot, at + 1, entries[1..])
  }

  /** `log` and `entries`, laid over it from offset `prev`, agree in term on the first `j` entries and, unless
      `j` is all of them, the log ends or disagrees there. */
  ghost predicate FirstConflict(log: seq<LogEntry>, prev: nat, entries: seq<LogEntry>, j: nat) {
    && j <= |entries|
    && prev + j <= |log|
    && (forall k :: 0 <= k < j ==> log[prev + k].term == entries[k].term)
    && (j < |entries| && prev + j < |log| ==> log[prev + j].term != entries[j].term)
  }

  /** What a merge with first conflict `j` leaves behind. */
  function Overwritten(log: seq<LogEntry>, prev: nat, entries: seq<LogEntry>, j: nat): seq<LogEntry>
    requires j <= |entries| && prev + j <= |log|
  {
    if j == |entries| then log else log[..prev + j] + entries[j..]
  }

  /** At the end of the log the loop only pushes. */
  lemma {:induction false} MergeAtEnd(log: seq<LogEntry>, snapshot: nat, entries: seq<LogEntry>)
    ensures MergeFrom(log, snapshot, snapshot + |log| + 1, entries) == log + entries
    decreases |entries|
  {
    if entries == [] {
    } else {
      MergeAtEnd(log + [entries[0]], snapshot, entries[1..]);
      assert log + [entries[0]] + entries[1..] == log + entries;
    }
  }

  lemma FirstConflictCons(log: seq<LogEntry>, prev: nat, entries: seq<LogEntry>, j: nat)
    requires entries != [] && prev < |log| && log[prev].term == entries[0].term
    requires FirstConflict(log, prev + 1, entries[1..], j)
    ensures FirstConflict(log, prev, entries, j + 1)
    ensures Overwritten(log, prev + 1, entries[1..], j) == Overwritten(log, prev, entries, j + 1)
  {
    forall k | 0 <= k < j + 1 ensures log[prev + k].term == entries[k].term {
      if k > 0 { assert log[prev + 1 + (k - 1)].term == entries[1..][k - 1].term; }
    }
    assert entries[1..][j..] == entries[j + 1..];
  }

  /** The loop, started behind the snapshot, keeps the log up to the first conflict and takes the request from
      there; without a conflict it changes nothing. */
  lemma {:induction false} MergeOverwrites(log: seq<LogEntry>, snapshot: nat, prev: nat, entries: seq<LogEntry>)
    returns (j: nat)
    requires snapshot <= prev <= snapshot + |log|
    ensures FirstConflict(log, prev - snapshot, entries, j)
    ensures MergeFrom(log, snapshot, prev + 1, entries) == Overwritten(log, prev - snapshot, entries, j)
    decreases |entries|
  {
    var p := prev - snapshot;
    if entries == [] {
      j := 0;
    } else if p == |log| {
      MergeAtEnd(log, snapshot, entries);
      j := 0;
    } else if log[p].term != entries[0].term {
      var cut := log[..p] + [entries[0]];
      MergeAtEnd(cut, snapshot, entries[1..]);
      assert cut + entries[1..] == log[..p] + entries[0..];
      j := 0;
    } else {
      j := MergeOverwrites(log, snapshot, prev + 1, entries[1..]);
      FirstConflictCons(log, p, entries, j);
      j := j + 1;
    }
  }

  /** There is only one first conflict, so MergeOverwrites determines the merged log. */
  lemma FirstConflictUnique(log: seq<LogEntry>, prev: nat, entries: seq<LogEntry>, i: nat, j: nat)
    requires FirstConflict(log, prev, entries, i)
    requires FirstConflict(log, prev, entries, j)
    ensures i == j
  {
  }

  /** The merged log agrees with every entry of the request. */
  lemma OverwrittenCovers(log: seq<LogEntry>, prev: nat, entries: seq<LogEntry>, j: nat)
    requires FirstConflict(log, prev, entries, j)
    ensures FirstConflict(Overwritten(log, prev, entries, j), prev, entries, |entries|)
  {
    var result := Overwritten(log, prev, entries, j);
    forall k | 0 <= k < |entries| ensures result[prev + k].term == entries[k].term {
      if k >= j && j < |entries| { assert result[prev + k] == entries[j..][k - j]; }
    }
  }

  /** Entries that compaction dropped make no difference to the merge. */
  lemma MergeBehind(full: seq<LogEntry>, snapshot: nat, prev: nat, entries: seq<LogEntry>)
    requires snapshot <= prev <= |full|
    ensures full[..snapshot] + MergeFrom(full[snapshot..], snapshot, prev + 1, entries)
         == MergeFrom(full, 0, prev + 1, entries)
  {
    var log := full[snapshot..];
    var i := MergeOverwrites(log, snapshot, prev, entries);
    var j := MergeOverwrites(full, 0, prev, entries);
    assert FirstConflict(full, prev, entries, i) by {
      forall k | 0 <= k < i ensures full[prev + k].term == entries[k].term {
        assert log[prev - snapshot + k] == full[prev + k];
      }
    }
    FirstConflictUnique(full, prev, entries, i, j);
    if i == |entries| {
      assert full[..snapshot] + log == full;
    } else {
      assert full[..snapshot] + (log[..prev - snapshot + i] + entries[i..]) == full[..prev + i] + entries[i..];
    }
  }

  /** Delivering the same request twice leaves the same log as delivering it once. */
  lemma MergeTwice(log: seq<LogEntry>, snapshot: nat, prev: nat, entries: seq<LogEntry>)
    requires snapshot <= prev <= snapshot + |log|
    ensures var once := MergeFrom(log, snapshot, prev + 1, entries);
            MergeFrom(once, snapshot, prev + 1, entries) == once
  {
    var once := MergeFrom(log, snapshot, prev + 1, entries);
    var j := MergeOverwrites(log, snapshot, prev, entries);
    OverwrittenCovers(log, prev - snapshot, entries, j);
    var k := MergeOverwrites(once, snapshot, prev, entries);
    FirstConflictUnique(once, prev - snapshot, entries, |entries|, k);
  }

  /** Requests cut out of one leader log, in any order, never shrink the common prefix with that log. */
  lemma MergeNeverRegresses(log: seq<LogEntry>, snapshot: nat, prev: nat, entries: seq<LogEntry>,
                            leaderLog: seq<LogEntry>, common: nat)
    requires snapshot <= prev <= snapshot + |log|
    requires prev - snapshot + |entries| <= |leaderLog|
    requires entries == leaderLog[prev - snapshot..prev - snapshot + |entries|]
    requires common <= |log| && common <= |leaderLog| && log[..common] == leaderLog[..common]
    ensures var merged := MergeFrom(log, snapshot, prev + 1, entries);
            common <= |merged| && merged[..common] == leaderLog[..common]
  {
    var p := prev - snapshot;
    var merged := MergeFrom(log, snapshot, prev + 1, entries);
    var j := MergeOverwrites(log, snapshot, prev, entries);
    if j < |entries| {
      assert common <= p + j;
      assert merged[..common] == log[..common];
    }
  }
}
