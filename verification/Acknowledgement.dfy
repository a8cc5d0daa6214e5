/** When the match index that a follower reports after accepting a request can be trusted, in any run. */
module Acknowledgement {
  import opened RaftTypes
  import opened LogMerge
  import opened NodeModel
  import opened Clusters
  import opened Histories
  import opened HostLemmas
  import opened LeaderSteps
  import opened RunInvariant
  import opened LogSteps
  import opened SoundRuns
  import opened RunTheorems

  /** The log that a follower brings to a request reaching to `covered` leaves no foreign tail behind: it is not
      longer, or it is cut back, or its last entry is one that the leader has there. */
  ghost predicate TailFits(full: seq<LogEntry>, covered: nat, leaderLog: seq<LogEntry>) {
    || |full| <= covered
    || (exists p :: 0 <= p < covered && p < |full| && p < |leaderLog| && full[p].term != leaderLog[p].term)
    || (|full| <= |leaderLog| && LastTermOf(full) == TermOf(leaderLog, |full|))
  }

  lemma FitsExactly(full: seq<LogEntry>, req: AppendEntries, merged: seq<LogEntry>, leaderLog: seq<LogEntry>,
                    leaderLogs: map<Term, seq<LogEntry>>)
    requires Accepted(full, req, merged, leaderLog)
    requires Traced(full, leaderLogs) && Traced(leaderLog, leaderLogs)
    ensures merged <= leaderLog <==> TailFits(full, req.prevLogIndex + |req.entries|, leaderLog)
  {
    var covered := req.prevLogIndex + |req.entries|;
    if merged == full {
      assert forall p :: 0 <= p < covered ==> full[p] == full[..covered][p] == leaderLog[..covered][p] == leaderLog[p];
      if |full| <= |leaderLog| && LastTermOf(full) == TermOf(leaderLog, |full|) {
        hide Traced;
        TracedMatch(full, leaderLog, leaderLogs, |full|);
      }
    }
  }

  /** Exact acknowledgements. A success reply reports the length of the follower's log. That log is then a prefix of
      the leader's log if and only if its tail fitted before the request; in particular whenever the last entry the
      request covers is of the leader's own term. */
  lemma ExactAcknowledgement(r: Run, k: nat, i: NodeId, e: Envelope, draw: nat)
    requires ValidRun(r) && k < |r.states| && i in r.states[k].hosts
    requires e in r.states[k].network && e.to == i && e.message.AppendRequest?
    requires HandleAppendEntries(r.states[k].hosts[i].node, e.message.append, draw).1.success
    ensures var x, req := r.states[k].hosts[i], e.message.append;
            var (m, resp) := HandleAppendEntries(x.node, req, draw);
            var covered := req.prevLogIndex + |req.entries|;
            && x.node.snapshotIndex <= |x.full|
            && req.term in HistoryAt(r, k).leaderLogs
            && var merged := x.full[..x.node.snapshotIndex] + m.log;
               var leaderLog := HistoryAt(r, k).leaderLogs[req.term];
            && resp.matchIndex == |merged|
            && (merged <= leaderLog <==> TailFits(x.full, covered, leaderLog))
            && (Has(leaderLog, req.term, covered) ==> merged <= leaderLog)
  {
    hide ValidRun, HistoryAt, Inv, HistoryOk, VoteTies, RoleTies, Traced, MergeFrom, Accepted, Observe, Grows, TailFits,
      HandleAppendEntries;
    var c, h := r.states[k], HistoryAt(r, k);
    var x, req := c.hosts[i], e.message.append;
    InvAt(r, k);
    AcceptedAfterRecognition(x.node, req, draw);
    RecogniseStep(c, h, i, e, draw);
    var y := Host(Recognise(x.node, req, draw), x.full);
    MergeAccepted(Put(c, i, y, {}), h, i, e);
    ActorFacts(c, h, i);
    var merged := x.full[..x.node.snapshotIndex] + HandleAppendEntries(x.node, req, draw).0.log;
    var leaderLog := h.leaderLogs[req.term];
    LeaderLogTraced(h, c.members, req.term);
    FitsExactly(x.full, req, merged, leaderLog, h.leaderLogs);
    if Has(leaderLog, req.term, req.prevLogIndex + |req.entries|) {
      AppendEntriesStep(c, h, i, e, draw);
      var (m, resp) := HandleAppendEntries(x.node, req, draw);
      ActorFacts(Put(c, i, Host(m, merged), {Envelope(i, e.from, AppendReply(resp))}), h, i);
      TermAfter(x.node, req, draw);
      AcceptedIsSound(h, c.members, req, x.full, Host(m, merged));
    }
  }

  lemma LeaderLogTraced(h: History, members: set<NodeId>, t: Term)
    requires HistoryOk(h, members) && t in h.elections
    ensures t in h.leaderLogs && Traced(h.leaderLogs[t], h.leaderLogs)
  {
    assert LeaderLogOk(h, t);
  }

  /** The log recorded for the leader of a term is the one it held when it last led. */
  lemma {:induction false} RecordedLogWasHeld(r: Run, k: nat, term: Term)
    requires ValidRun(r) && k < |r.states| && term in HistoryAt(r, k).leaderLogs
    ensures exists j, b :: 0 <= j <= k && Leads(r, j, b, term)
                           && r.states[j].hosts[b].full == HistoryAt(r, k).leaderLogs[term]
  {
    if k > 0 {
      var h := HistoryAt(r, k - 1);
      var i := r.actions[k - 1].actor;
      if term in h.leaderLogs && HistoryAt(r, k).leaderLogs[term] == h.leaderLogs[term] {
        RecordedLogWasHeld(r, k - 1, term);
      } else {
        assert Leads(r, k, i, term);
      }
    }
  }

  // ---------- whole runs ----------

  /** If action `k` makes a follower accept an append, its tail fits. */
  ghost predicate FitsAt(r: Run, k: nat)
    requires k < |r.actions| && k < |r.states|
  {
    var c, h, a := r.states[k], HistoryAt(r, k), r.actions[k];
    a.actor in c.hosts && a.Deliver? && a.envelope.message.AppendRequest?
    && HandleAppendEntries(c.hosts[a.actor].node, a.envelope.message.append, a.draw).1.success ==>
      var req := a.envelope.message.append;
      req.term in h.leaderLogs
      && TailFits(c.hosts[a.actor].full, req.prevLogIndex + |req.entries|, h.leaderLogs[req.term])
  }

  /** Which runs have only sound acknowledgements: those in which every follower that accepts an append brings a tail
      that fits. */
  lemma SoundExactly(r: Run)
    requires ValidRun(r)
    ensures SoundRun(r) <==> forall k :: 0 <= k < |r.actions| ==> FitsAt(r, k)
  {
    hide HistoryAt, HostStep, SoundStep, FitsAt, Enabled;
    forall k | 0 <= k < |r.actions|
      ensures r.actions[k].actor in r.states[k].hosts
      ensures SoundStep(r.states[k], HistoryAt(r, k), r.actions[k]) <==> FitsAt(r, k)
    {
      assert Enabled(r.states[k], r.actions[k]);
      FitsIsSound(r, k);
    }
  }

  lemma FitsIsSound(r: Run, k: nat)
    requires ValidRun(r) && k < |r.actions| && Enabled(r.states[k], r.actions[k])
    ensures r.actions[k].actor in r.states[k].hosts
    ensures SoundStep(r.states[k], HistoryAt(r, k), r.actions[k]) <==> FitsAt(r, k)
  {
    hide ValidRun, HistoryAt, HostStep, HandleAppendEntries, TailFits;
    assert k < |r.states| by { MoreStates(r); }
    var a := r.actions[k];
    if a.Deliver? && a.envelope.message.AppendRequest?
       && HandleAppendEntries(r.states[k].hosts[a.actor].node, a.envelope.message.append, a.draw).1.success
    {
      ExactAcknowledgement(r, k, a.actor, a.envelope, a.draw);
      AppendedHost(r.states[k].hosts[a.actor], a);
    }
  }

  lemma MoreStates(r: Run)
    requires ValidRun(r)
    ensures |r.states| == |r.actions| + 1
  {
  }
}
