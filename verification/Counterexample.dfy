/** Why the guard is needed, and why it must cover retries: a run of three processes with the default configuration in
    which no timer fires, so no heartbeat is sent, and yet two of them commit different values of one key.

    Node 2 leads term 1 and replicates `p`. Node 1 leads term 2 and appends `x = a` behind it. Node 2 leads term 3, and
    the late refusal of an append of term 1 makes it retry before it has proposed anything. Node 1 accepts the retry and
    reports index 2, where it holds `x = a`. Node 2 counts this for its own `x = b` at index 2. */
module Counterexample {
  import opened RaftTypes
  import opened NodeModel
  import opened Clusters
  import opened KeyValue
  import opened RunnerModel
  import opened RunnerProof
  import opened RunnerStores
  import opened RunnerTheorems
  import opened Unfolding
  import opened ThreeNodes

  // ---------- one iteration ----------

  /** A node and its store. */
  datatype Desk = Desk(node: NodeState, store: Store)

  /** A runner that has compacted nothing and applied everything committed. */
  ghost predicate Sits(r: Runner, d: Desk) {
    && r.node == d.node && r.store == d.store && r.full == d.node.log && r.threshold == 128
    && Uncompacted(d.node)
  }

  predicate Uncompacted(n: NodeState) {
    && n.snapshotIndex == 0 && |n.log| < 128 && n.lastApplied == n.commitIndex <= |n.log|
    && n.clock == Watch(n.clock.heartbeatElapsed)
  }

  /** An iteration turns any runner at `d` into one at `e`, and sends `sent`. */
  ghost predicate Turns(d: Desk, input: Input, e: Desk, sent: set<Envelope>) {
    forall r: Runner :: Sits(r, d) ==> Sits(Iterate(r, input).0, e) && Iterate(r, input).1 == sent
  }

  /** The iteration keeps the guard. */
  ghost predicate TurnsPolitely(d: Desk, input: Input) {
    forall r: Runner :: Sits(r, d) ==> GuardOk(r, input)
  }

  /** An iteration with one action of the node, after which there is nothing to apply. */
  lemma PlainTurn(d: Desk, input: Input, m: NodeState)
    requires !input.Relaunched? && !input.TickDue? && !ElectsNow(d.node, input)
    requires input.Proposed? ==> d.node.role == Leader
    requires m == NodeStep(d.node, ActionOf(d.node.id, input)).0 && Uncompacted(m)
    ensures Turns(d, input, Desk(m, d.store), NodeStep(d.node, ActionOf(d.node.id, input)).1)
    ensures Speaks(d.node, ActionOf(d.node.id, input)) ==> TurnsPolitely(d, input)
  {
    var sent := NodeStep(d.node, ActionOf(d.node.id, input)).1;
    hide NodeStep, Reacted, Settled, ElectsNow, ActionOf, NodeState.LastLogTerm;
    forall r: Runner | Sits(r, d)
      ensures Sits(Iterate(r, input).0, Desk(m, d.store)) && Iterate(r, input).1 == sent
      ensures Speaks(d.node, ActionOf(d.node.id, input)) ==> GuardOk(r, input)
    {
      ReactsByAction(r, input);
      NothingToApply(WithNode(r, m), Desk(m, d.store));
      SavesAsIs(ApplyCommittedEntries(WithNode(r, m)), Desk(m, d.store));
      IterateIs(r, input, WithNode(r, m), sent);
    }
  }

  lemma IterateIs(r: Runner, input: Input, m: Runner, sent: set<Envelope>)
    requires Reacted(r, input) == (m, sent) && !input.TickDue? && !input.Relaunched?
    requires input.Proposed? ==> r.node.role == Leader
    ensures Iterate(r, input) == (Persist(ApplyCommittedEntries(m)), sent)
  {
    hide Reacted, Persist, ApplyCommittedEntries;
  }

  lemma NothingToApply(r: Runner, d: Desk)
    requires Uncompacted(d.node) && r.node == d.node && r.store == d.store && r.full == r.node.log && r.threshold == 128
    ensures Sits(ApplyCommittedEntries(r), d)
  {
  }

  lemma SavesAsIs(r: Runner, d: Desk)
    requires Sits(r, d)
    ensures Sits(Persist(r), d)
  {
  }

  /** An iteration that commits the whole log for the first time, and applies it. */
  lemma CommitTurn(d: Desk, input: Input, m: NodeState)
    requires input.Arrived? && !ElectsNow(d.node, input)
    requires m.(lastApplied := 0) == NodeStep(d.node, ActionOf(d.node.id, input)).0
    requires Uncompacted(m) && m.commitIndex == |m.log|
    ensures Turns(d, input, Desk(m, ApplyAll(d.store, Commands(m.log))), NodeStep(d.node, ActionOf(d.node.id, input)).1)
    ensures Speaks(d.node, ActionOf(d.node.id, input)) ==> TurnsPolitely(d, input)
  {
    var sent := NodeStep(d.node, ActionOf(d.node.id, input)).1;
    var e := Desk(m, ApplyAll(d.store, Commands(m.log)));
    hide NodeStep, Reacted, Settled, ElectsNow, ActionOf, NodeState.LastLogTerm, Commands, ApplyAll;
    forall r: Runner | Sits(r, d)
      ensures Sits(Iterate(r, input).0, e) && Iterate(r, input).1 == sent
      ensures Speaks(d.node, ActionOf(d.node.id, input)) ==> GuardOk(r, input)
    {
      ReactsByAction(r, input);
      AppliesAll(WithNode(r, m.(lastApplied := 0)), e, d.store);
      SavesAsIs(ApplyCommittedEntries(WithNode(r, m.(lastApplied := 0))), e);
      IterateIs(r, input, WithNode(r, m.(lastApplied := 0)), sent);
    }
  }

  lemma AppliesAll(r: Runner, e: Desk, s: Store)
    requires Uncompacted(e.node) && e.node.commitIndex == |e.node.log| && e.store == ApplyAll(s, Commands(e.node.log))
    requires r.node == e.node.(lastApplied := 0) && r.store == s && r.full == r.node.log && r.threshold == 128
    ensures Sits(ApplyCommittedEntries(r), e)
  {
    hide Commands, ApplyAll;
    assert r.node.log[0..|r.node.log|] == r.node.log;
  }

  /** An iteration in which a vote wins: a tick follows, which here sends nothing. */
  lemma WinTurn(d: Desk, e: Envelope, w: NodeState, m: NodeState)
    requires e.message.VoteReply? && HandleRequestVoteResponse(d.node, e.message.voteReply, 20) == (w, true)
    requires Tick(w, 20) == (m, []) && Uncompacted(m) && m.log == d.node.log
    ensures Turns(d, Arrived(e, 20), Desk(m, d.store), {}) && TurnsPolitely(d, Arrived(e, 20))
  {
    hide HandleRequestVoteResponse, Tick;
    forall r: Runner | Sits(r, d)
      ensures Sits(Iterate(r, Arrived(e, 20)).0, Desk(m, d.store)) && Iterate(r, Arrived(e, 20)).1 == {}
      ensures GuardOk(r, Arrived(e, 20))
    {
      assert Posted(r.node.id, []) == {};
      assert Reacted(r, Arrived(e, 20)) == (WithNode(r, m), {});
      hide Reacted;
      NothingToApply(WithNode(r, m), Desk(m, d.store));
      SavesAsIs(ApplyCommittedEntries(WithNode(r, m)), Desk(m, d.store));
      IterateIs(r, Arrived(e, 20), WithNode(r, m), {});
    }
  }

  // ---------- runs of three processes ----------

  ghost predicate Shows(c: RunnerCluster, desks: seq<Desk>) {
    && |desks| == 4
    && c.members == {1, 2, 3} && c.runners.Keys == c.members
    && Seated(c, 1, desks[1]) && Seated(c, 2, desks[2]) && Seated(c, 3, desks[3])
  }

  ghost predicate Seated(c: RunnerCluster, i: NodeId, d: Desk) {
    i in c.runners && Sits(c.runners[i], d) && d.node.id == i
  }

  /** A process with the default configuration, at its first start. */
  predicate ByDefault(r: Runner) {
    r.node.clock == Watch(0) && r.threshold == 128
  }

  /** A run from the default configuration to the desks, in which no timer fires and no process stops. */
  ghost predicate Ends(w: RunnerRun, desks: seq<Desk>) {
    && ValidRunnerRun(w) && Shows(w.states[|w.events|], desks)
    && (forall i :: i in w.states[0].runners ==> ByDefault(w.states[0].runners[i]))
    && (forall k :: 0 <= k < |w.events| ==> !w.events[k].input.TickDue? && !w.events[k].input.Relaunched?)
  }

  /** The input is the report of an acceptance. */
  predicate Report(input: Input) {
    input.Arrived? && input.envelope.message.AppendReply? && input.envelope.message.appendReply.success
  }

  /** No leader has heard of an acceptance yet. */
  ghost predicate NoReports(w: RunnerRun) {
    forall k :: 0 <= k < |w.events| ==> !Report(w.events[k].input)
  }

  /** What the network holds at the end of the run. */
  function Network(w: RunnerRun): set<Envelope> {
    if |w.states| == 0 then {} else w.states[|w.states| - 1].network
  }

  predicate Allowed(input: Input) {
    match input
    case Arrived(_, draw) => draw == 20
    case ElectionForced(draw) => draw == 20
    case Proposed(_) => true
    case _ => false
  }

  lemma RunGrows(w: RunnerRun, v: Event) returns (u: RunnerRun)
    requires ValidRunnerRun(w) && CanHappen(w.states[|w.events|], v)
    ensures ValidRunnerRun(u) && u.events == w.events + [v]
    ensures u.states == w.states + [After(w.states[|w.events|], v)]
    ensures GuardedRunnerRun(w) && Guarded(w.states[|w.events|], v) ==> GuardedRunnerRun(u)
  {
    hide Iterate, Installed, Guarded, DrawInRange;
    u := RunnerRun(w.states + [After(w.states[|w.events|], v)], w.events + [v]);
    assert u.states[0] == w.states[0];
    forall k | 0 <= k < |u.events|
      ensures CanHappen(u.states[k], u.events[k]) && u.states[k + 1] == After(u.states[k], u.events[k])
    {
      if k < |w.events| { assert w.events[k] == u.events[k] && w.states[k + 1] == u.states[k + 1]; }
    }
    if GuardedRunnerRun(w) && Guarded(w.states[|w.events|], v) {
      forall k | 0 <= k < |u.events|
        ensures CanHappen(u.states[k], u.events[k]) && Guarded(u.states[k], u.events[k])
      {
        if k < |w.events| { assert w.events[k] == u.events[k] && w.states[k] == u.states[k]; }
      }
    }
  }

  lemma EventShows(c: RunnerCluster, desks: seq<Desk>, v: Event, e: Desk, sent: set<Envelope>)
    requires Shows(c, desks) && v.actor in {1, 2, 3} && Turns(desks[v.actor], v.input, e, sent) && e.node.id == v.actor
    ensures Shows(After(c, v), desks[v.actor := e]) && After(c, v).network == c.network + sent
    ensures TurnsPolitely(desks[v.actor], v.input) ==> Guarded(c, v)
  {
    hide Iterate, Reacted, NodeState.LastLogTerm;
    assert Seated(c, v.actor, desks[v.actor]) && Sits(c.runners[v.actor], desks[v.actor]);
    hide Sits;
  }

  /** One more event. */
  lemma Go(w: RunnerRun, desks: seq<Desk>, v: Event, e: Desk, sent: set<Envelope>) returns (u: RunnerRun)
    requires Ends(w, desks) && |desks| == 4 && v.actor in {1, 2, 3} && Allowed(v.input)
    requires v.input.Arrived? ==> v.input.envelope in Network(w) && v.input.envelope.to == v.actor
    requires Turns(desks[v.actor], v.input, e, sent) && e.node.id == v.actor
    ensures Ends(u, desks[v.actor := e]) && Network(w) + sent <= Network(u)
    ensures GuardedRunnerRun(w) && TurnsPolitely(desks[v.actor], v.input) ==> GuardedRunnerRun(u)
    ensures NoReports(w) && !Report(v.input) ==> NoReports(u)
  {
    hide Turns, TurnsPolitely, ValidRunnerRun, GuardedRunnerRun, After, Guarded;
    MoreStatesThanEvents(w);
    var c := w.states[|w.events|];
    assert CanHappen(c, v) by { AllowedCanHappen(c, desks, v); }
    EventShows(c, desks, v, e, sent);
    hide Shows, CanHappen;
    u := RunGrows(w, v);
    assert u.states[|u.events|] == After(c, v);
    assert u.states[0] == w.states[0];
    forall k | 0 <= k < |u.events|
      ensures !u.events[k].input.TickDue? && !u.events[k].input.Relaunched?
      ensures NoReports(w) && !Report(v.input) ==> !Report(u.events[k].input)
    {
      if k < |w.events| { assert u.events[k] == w.events[k]; }
    }
  }

  lemma AllowedCanHappen(c: RunnerCluster, desks: seq<Desk>, v: Event)
    requires Shows(c, desks) && v.actor in {1, 2, 3} && Allowed(v.input)
    requires v.input.Arrived? ==> v.input.envelope in c.network && v.input.envelope.to == v.actor
    ensures CanHappen(c, v)
  {
    assert Seated(c, v.actor, desks[v.actor]);
  }

  // ---------- the run ----------

  function Idle(n: NodeState): Desk {
    Desk(n, map[])
  }

  function Trio(d1: Desk, d2: Desk, d3: Desk): seq<Desk> {
    [Idle(Following(0, 0, None, [], None)), d1, d2, d3]
  }

  function Of(i: NodeId, d1: Desk, d2: Desk, d3: Desk): Desk {
    if i == 1 then d1 else if i == 2 then d2 else d3
  }

  lemma Begin() returns (w: RunnerRun)
    ensures Ends(w, Trio(Idle(Following(1, 0, None, [], None)), Idle(Following(2, 0, None, [], None)),
                         Idle(Following(3, 0, None, [], None))))
    ensures GuardedRunnerRun(w) && NoReports(w)
  {
    var new1 := Runner(Following(1, 0, None, [], None), map[], None, 128, [], [], 0);
    var new2 := Runner(Following(2, 0, None, [], None), map[], None, 128, [], [], 0);
    var new3 := Runner(Following(3, 0, None, [], None), map[], None, 128, [], [], 0);
    var c := RunnerCluster({1, 2, 3}, map[1 := new1, 2 := new2, 3 := new3], {});
    assert |c.members| == 3;
    w := RunnerRun([c], []);
  }

  /** Node `i` turns, and the others stay. */
  lemma Turn(w: RunnerRun, d1: Desk, d2: Desk, d3: Desk, i: NodeId, input: Input, e: Desk, sent: set<Envelope>)
    returns (u: RunnerRun, e1: Desk, e2: Desk, e3: Desk)
    requires Ends(w, Trio(d1, d2, d3)) && i in {1, 2, 3} && Allowed(input)
    requires input.Arrived? ==> input.envelope in Network(w) && input.envelope.to == i
    requires Turns(Of(i, d1, d2, d3), input, e, sent) && e.node.id == i
    ensures e1 == (if i == 1 then e else d1) && e2 == (if i == 2 then e else d2) && e3 == (if i == 3 then e else d3)
    ensures Ends(u, Trio(e1, e2, e3)) && Network(w) + sent <= Network(u)
    ensures GuardedRunnerRun(w) && TurnsPolitely(Of(i, d1, d2, d3), input) ==> GuardedRunnerRun(u)
    ensures NoReports(w) && !Report(input) ==> NoReports(u)
  {
    hide Ends, Network, GuardedRunnerRun, NoReports, Turns, TurnsPolitely, Allowed;
    e1, e2, e3 := if i == 1 then e else d1, if i == 2 then e else d2, if i == 3 then e else d3;
    u := Go(w, Trio(d1, d2, d3), Event(i, input), e, sent);
    assert Trio(d1, d2, d3)[i := e] == Trio(e1, e2, e3);
  }

  /** Node `i` takes one step, after which there is nothing to apply. */
  lemma Move(w: RunnerRun, d1: Desk, d2: Desk, d3: Desk, i: NodeId, input: Input, m: NodeState)
    returns (u: RunnerRun, e1: Desk, e2: Desk, e3: Desk)
    requires Ends(w, Trio(d1, d2, d3)) && i in {1, 2, 3} && Allowed(input) && Of(i, d1, d2, d3).node.id == m.id == i
    requires input.Arrived? ==>
               input.envelope in Network(w) && input.envelope.to == i && !input.envelope.message.VoteReply?
    requires input.Proposed? ==> Of(i, d1, d2, d3).node.role == Leader
    requires m == NodeStep(Of(i, d1, d2, d3).node, ActionOf(i, input)).0 && Uncompacted(m)
    ensures var e := Desk(m, Of(i, d1, d2, d3).store);
            e1 == (if i == 1 then e else d1) && e2 == (if i == 2 then e else d2) && e3 == (if i == 3 then e else d3)
    ensures Ends(u, Trio(e1, e2, e3))
    ensures Network(w) + NodeStep(Of(i, d1, d2, d3).node, ActionOf(i, input)).1 <= Network(u)
    ensures GuardedRunnerRun(w) && Speaks(Of(i, d1, d2, d3).node, ActionOf(i, input)) ==> GuardedRunnerRun(u)
    ensures NoReports(w) && !Report(input) ==> NoReports(u)
  {
    hide Ends, Network, GuardedRunnerRun, NoReports, Turns, TurnsPolitely, NodeStep, Trio, Speaks, Uncompacted,
      HandleRequestVoteResponse;
    var d := Of(i, d1, d2, d3);
    PlainTurn(d, input, m);
    u, e1, e2, e3 := Turn(w, d1, d2, d3, i, input, Desk(m, d.store), NodeStep(d.node, ActionOf(i, input)).1);
  }

  ghost predicate CanRun(n: NodeState, id: NodeId) {
    && n.id == id && n.peers == Others(id) && n.snapshotTerm == 0 && n.commitIndex == 0 && Uncompacted(n)
  }

  function Won(n: NodeState): NodeState {
    Leading(n.id, n.currentTerm + 1, n.log, 0, FreshNext(n.id, n.log), FreshMatch(n.id, n.log))
  }

  /** An election that node 3 decides. */
  lemma Campaign(w: RunnerRun, d1: Desk, d2: Desk, d3: Desk, id: NodeId, vote: Option<NodeId>, leader: Option<NodeId>)
    returns (u: RunnerRun, e1: Desk, e2: Desk, e3: Desk)
    requires Ends(w, Trio(d1, d2, d3)) && id in {1, 2}
    requires d3 == Idle(Following(3, d3.node.currentTerm, vote, d3.node.log, leader)) && |d3.node.log| < 128
    requires var n := Of(id, d1, d2, d3).node;
             && CanRun(n, id) && n.currentTerm >= d3.node.currentTerm
             && UpToDate(LastOf(n.log), |n.log|, LastOf(d3.node.log), |d3.node.log|)
    ensures var d := Of(id, d1, d2, d3);
            && Network(w) <= Network(u)
            && Canvass(id, Others(id)[0], d.node.currentTerm + 1, d.node.log) in Network(u)
            && e1 == (if id == 1 then Desk(Won(d.node), d.store) else d1)
            && e2 == (if id == 2 then Desk(Won(d.node), d.store) else d2)
            && e3 == Idle(Following(3, d.node.currentTerm + 1, Some(id), d3.node.log, None))
            && Ends(u, Trio(e1, e2, e3))
            && (GuardedRunnerRun(w) ==> GuardedRunnerRun(u)) && (NoReports(w) ==> NoReports(u))
  {
    hide NodeStep, Ends, Network, UpToDate, Speaks, GuardedRunnerRun, NoReports, Trio, Turns, TurnsPolitely, FreshNext,
      FreshMatch,
      HandleRequestVoteResponse, Tick;
    var d := Of(id, d1, d2, d3);
    var n := d.node;
    var term := n.currentTerm + 1;
    var running := Running(id, term, n.log, n.nextIndex, n.matchIndex, n.clock.heartbeatElapsed);
    var e := Canvass(id, 3, term, n.log);
    Runs(n, 0);
    Runs(n, 1);
    u, e1, e2, e3 := Move(w, d1, d2, d3, id, ElectionForced(20), running);
    Grants(d3.node.currentTerm, vote, d3.node.log, leader, e);
    u, e1, e2, e3 := Move(u, e1, e2, e3, 3, Arrived(e, 20), Following(3, term, Some(id), d3.node.log, None));
    Wins(id, term, n.log, n.nextIndex, n.matchIndex, n.clock.heartbeatElapsed);
    var reply := RequestVoteResponse(term, true, 3);
    WinTurn(Desk(running, d.store), Grant(id, term), HandleRequestVoteResponse(running, reply, 20).0, Won(n));
    u, e1, e2, e3 := Turn(u, e1, e2, e3, id, Arrived(Grant(id, term), 20), Desk(Won(n), d.store), {});
  }

  /** Node 2 leads term 1, and both followers take over its entry. */
  lemma FirstTerm() returns (w: RunnerRun, d1: Desk, d2: Desk, d3: Desk)
    ensures Ends(w, Trio(d1, d2, d3))
    ensures d1 == Idle(Following(1, 1, None, [P], Some(2)))
    ensures d2 == Idle(Leading(2, 1, [P], 0, FreshNext(2, []), FreshMatch(2, [])[2 := 1]))
    ensures d3 == Idle(Following(3, 1, Some(2), [P], Some(2)))
    ensures Append(2, 1, 1, 0, 0, [P]) in Network(w) && Reply(1, 2, 1, true, 1) in Network(w)
    ensures GuardedRunnerRun(w) && NoReports(w)
  {
    hide Ends, NodeStep, Network, Trio, Speaks, GuardedRunnerRun, NoReports;
    w := Begin();
    d1, d2 := Idle(Following(1, 0, None, [], None)), Idle(Following(2, 0, None, [], None));
    d3 := Idle(Following(3, 0, None, [], None));
    w, d1, d2, d3 := Campaign(w, d1, d2, d3, 2, None, None);
    hide FreshNext, FreshMatch;
    assert Proposal(1, [], P.command) == [P];
    FreshFacts(2, []);
    Proposes(2, 1, [], FreshNext(2, []), FreshMatch(2, []), P.command, 0);
    Proposes(2, 1, [], FreshNext(2, []), FreshMatch(2, []), P.command, 1);
    ProposalSpeaks(2, 1, [], FreshNext(2, []), FreshMatch(2, []), P.command);
    w, d1, d2, d3 := Move(w, d1, d2, d3, 2, Proposed(P.command),
                          Leading(2, 1, [P], 0, FreshNext(2, []), FreshMatch(2, [])[2 := 1]));
    assert [] + [P] == [P];
    TakesAll(1, 0, None, [], None, Append(2, 1, 1, 0, 0, [P]));
    w, d1, d2, d3 := Move(w, d1, d2, d3, 1, Arrived(Append(2, 1, 1, 0, 0, [P]), 20),
                          Following(1, 1, None, [P], Some(2)));
    TakesAll(3, 1, Some(2), [], None, Append(2, 3, 1, 0, 0, [P]));
    w, d1, d2, d3 := Move(w, d1, d2, d3, 3, Arrived(Append(2, 3, 1, 0, 0, [P]), 20),
                          Following(3, 1, Some(2), [P], Some(2)));
  }

  /** Node 1 leads term 2 and appends `x = a`. */
  lemma SecondTerm() returns (w: RunnerRun, d1: Desk, d2: Desk, d3: Desk)
    ensures Ends(w, Trio(d1, d2, d3))
    ensures d1 == Idle(Leading(1, 2, [P, A], 0, FreshNext(1, [P]), FreshMatch(1, [P])[1 := 2]))
    ensures d2 == Idle(Leading(2, 1, [P], 0, FreshNext(2, []), FreshMatch(2, [])[2 := 1]))
    ensures d3 == Idle(Following(3, 2, Some(1), [P], None))
    ensures Append(2, 1, 1, 0, 0, [P]) in Network(w) && NoReports(w)
  {
    hide Ends, NodeStep, Network, Trio, Speaks, GuardedRunnerRun, NoReports, FreshNext, FreshMatch;
    w, d1, d2, d3 := FirstTerm();
    w, d1, d2, d3 := Campaign(w, d1, d2, d3, 1, Some(2), Some(2));
    assert Proposal(2, [P], A.command) == [P, A];
    FreshFacts(1, [P]);
    Proposes(1, 2, [P], FreshNext(1, [P]), FreshMatch(1, [P]), A.command, 0);
    w, d1, d2, d3 := Move(w, d1, d2, d3, 1, Proposed(A.command),
                          Leading(1, 2, [P, A], 0, FreshNext(1, [P]), FreshMatch(1, [P])[1 := 2]));
  }

  /** Node 2 leads term 3, and node 1 hears of that term. */
  lemma ThirdTerm() returns (w: RunnerRun, d1: Desk, d2: Desk, d3: Desk)
    ensures Ends(w, Trio(d1, d2, d3))
    ensures d1 == Idle(Following(1, 3, None, [P, A], None))
    ensures d2 == Idle(Leading(2, 3, [P], 0, FreshNext(2, [P]), FreshMatch(2, [P])))
    ensures d3 == Idle(Following(3, 3, Some(2), [P], None))
    ensures Append(2, 1, 1, 0, 0, [P]) in Network(w) && NoReports(w)
  {
    hide Ends, NodeStep, Network, Trio, FreshNext, FreshMatch, Speaks, GuardedRunnerRun, NoReports;
    w, d1, d2, d3 := SecondTerm();
    Runs(d2.node, 0);
    w, d1, d2, d3 := Move(w, d1, d2, d3, 2, ElectionForced(20),
                          Running(2, 2, [P], d2.node.nextIndex, d2.node.matchIndex, 1));
    w, d1, d2, d3 := Campaign(w, d1, d2, d3, 2, Some(1), None);
    Declines(d1.node, Canvass(2, 1, 3, [P]));
    w, d1, d2, d3 := Move(w, d1, d2, d3, 1, Arrived(Canvass(2, 1, 3, [P]), 20), Following(1, 3, None, [P, A], None));
  }

  /** The late append of term 1 is refused, and the leader of term 3 retries: node 1 accepts what it has and reports
      more. */
  lemma OverReport() returns (w: RunnerRun, d1: Desk, d2: Desk, d3: Desk)
    ensures Ends(w, Trio(d1, d2, d3))
    ensures d1 == Idle(Following(1, 3, None, [P, A], Some(2)))
    ensures d2 == Idle(Leading(2, 3, [P], 0, FreshNext(2, [P])[1 := 1], FreshMatch(2, [P])))
    ensures d3 == Idle(Following(3, 3, Some(2), [P], None))
    ensures Reply(1, 2, 3, true, 2) in Network(w) && NoReports(w)
  {
    hide Ends, NodeStep, Network, Trio, Speaks, GuardedRunnerRun, NoReports, FreshNext, FreshMatch, UpToDate;
    FreshFacts(2, [P]);
    w, d1, d2, d3 := ThirdTerm();
    Outdated(d1.node, Append(2, 1, 1, 0, 0, [P]));
    w, d1, d2, d3 := Move(w, d1, d2, d3, 1, Arrived(Append(2, 1, 1, 0, 0, [P]), 20), d1.node);
    var next, matched := FreshNext(2, [P]), FreshMatch(2, [P]);
    Retries(2, 3, [P], next, matched, 1, 1, 2);
    assert [P][..0] == [] && [P][0..] == [P];
    w, d1, d2, d3 := Move(w, d1, d2, d3, 2, Arrived(Reply(1, 2, 3, false, 2), 20),
                          Leading(2, 3, [P], 0, next[1 := 1], matched));
    Overreports(1, 3, None, None, 2);
    w, d1, d2, d3 := Move(w, d1, d2, d3, 1, Arrived(Append(2, 1, 3, 0, 0, [P]), 20),
                          Following(1, 3, None, [P, A], Some(2)));
  }

  /** Node `id` counts a report up to the end of its log, and so commits and applies all of it. */
  lemma Commits(w: RunnerRun, d1: Desk, d2: Desk, d3: Desk, id: NodeId, term: Term, log: seq<LogEntry>,
                next: map<NodeId, nat>, matched: map<NodeId, nat>, p: NodeId)
    returns (u: RunnerRun, e1: Desk, e2: Desk, e3: Desk)
    requires Ends(w, Trio(d1, d2, d3)) && id in {1, 2} && p != id
    requires Of(id, d1, d2, d3) == Idle(Leading(id, term, log, 0, next, matched))
    requires Reply(p, id, term, true, |log|) in Network(w)
    requires 0 < |log| < 128 && LastOf(log) == term && id in matched && matched[id] == |log|
    ensures var e := Desk(Leading(id, term, log, |log|, next[p := |log| + 1], matched[p := |log|]),
                          ApplyAll(map[], Commands(log)));
            e1 == (if id == 1 then e else d1) && e2 == (if id == 2 then e else d2) && e3 == d3
    ensures Ends(u, Trio(e1, e2, e3)) && Network(w) <= Network(u)
    ensures GuardedRunnerRun(w) ==> GuardedRunnerRun(u)
  {
    hide Ends, NodeStep, Network, Trio, Speaks, GuardedRunnerRun, NoReports, ApplyAll, Commands, Turns, TurnsPolitely;
    Counts(id, term, log, next, matched, p);
    var m := Leading(id, term, log, |log|, next[p := |log| + 1], matched[p := |log|]);
    var input := Arrived(Reply(p, id, term, true, |log|), 20);
    CommitTurn(Of(id, d1, d2, d3), input, m);
    u, e1, e2, e3 := Turn(w, d1, d2, d3, id, input, Desk(m, ApplyAll(map[], Commands(log))),
                          NodeStep(Of(id, d1, d2, d3).node, ActionOf(id, input)).1);
  }

  const WITH_P: Store := map["p" := "1"]
  const WITH_B: Store := map["p" := "1", "x" := "b"]
  const WITH_A: Store := map["p" := "1", "x" := "a", "y" := "1"]

  lemma Sets(log: seq<LogEntry>, term: Term, key: string, value: string)
    requires Settable(key, value)
    ensures ApplyAll(map[], Commands(log + [LogEntry(term, SetLine(key, value))]))
         == ApplyAll(map[], Commands(log))[key := value]
  {
    var s := ApplyAll(map[], Commands(log));
    hide Trim, SplitOnce, Settable;
    assert ParseCommand(SetLine(key, value)) == Some(Set(key, value)) by { SetsLine(key, value); }
    hide ParseCommand, SetLine;
    CommandsConcat(log, [LogEntry(term, SetLine(key, value))]);
    ApplyAllConcat(map[], Commands(log), [SetLine(key, value)]);
    assert Commands([LogEntry(term, SetLine(key, value))]) == [SetLine(key, value)];
    AppliesOne(s, SetLine(key, value));
  }

  lemma AppliesOne(s: Store, command: string)
    ensures ApplyAll(s, [command]) == Apply(s, command)
  {
    hide Apply;
    assert ApplyAll(s, [command]) == ApplyAll(Apply(s, command), []);
  }

  lemma SetsLine(key: string, value: string)
    requires Settable(key, value)
    ensures ParseCommand(SetLine(key, value)) == Some(Set(key, value))
  {
    hide ParseCommand;
    SetRoundTrip(key, value);
  }

  /** What is in a store once these logs are applied. */
  lemma StoresOf()
    ensures ApplyAll(map[], Commands([P])) == WITH_P
    ensures ApplyAll(map[], Commands([P, X])) == WITH_B
    ensures ApplyAll(map[], Commands([P, A, Y])) == WITH_A
  {
    assert ApplyAll(map[], Commands([])) == map[];
    assert Settable("p", "1") && Settable("x", "a") && Settable("x", "b") && Settable("y", "1");
    hide SetLine, ApplyAll, Commands, Settable;
    Sets([], 1, "p", "1");
    Sets([P], 2, "x", "a");
    Sets([P], 3, "x", "b");
    Sets([P, A], 4, "y", "1");
    assert [] + [P] == [P] && [P] + [A] == [P, A] && [P] + [X] == [P, X] && [P, A] + [Y] == [P, A, Y];
  }

  /** Node 2 counts the report for `x = b`. */
  lemma FalseCommit() returns (w: RunnerRun, d1: Desk, d2: Desk, d3: Desk)
    ensures Ends(w, Trio(d1, d2, d3))
    ensures d1 == Idle(Following(1, 3, None, [P, A], Some(2)))
    ensures d2.node.currentTerm == 3 && d2.node.log == [P, X] && d2.node.commitIndex == 2 && d2.store == WITH_B
    ensures d3 == Idle(Following(3, 3, Some(2), [P], None))
  {
    hide Ends, NodeStep, Network, Trio, Speaks, GuardedRunnerRun, NoReports, FreshNext, FreshMatch, ApplyAll, Commands;
    FreshFacts(2, [P]);
    w, d1, d2, d3 := OverReport();
    var next, matched := FreshNext(2, [P])[1 := 1], FreshMatch(2, [P]);
    assert Proposal(3, [P], X.command) == [P, X];
    Proposes(2, 3, [P], next, matched, X.command, 1);
    w, d1, d2, d3 := Move(w, d1, d2, d3, 2, Proposed(X.command), Leading(2, 3, [P, X], 0, next, matched[2 := 2]));
    w, d1, d2, d3 := Commits(w, d1, d2, d3, 2, 3, [P, X], next, matched[2 := 2], 1);
    StoresOf();
  }

  /** Node 1 leads term 4 without `x = b`, and commits `x = a` where node 2 committed `x = b`. */
  lemma RivalCommit() returns (w: RunnerRun, d1: Desk, d2: Desk, d3: Desk)
    ensures Ends(w, Trio(d1, d2, d3))
    ensures d1.node.role == Leader && d1.node.currentTerm == 4 && d1.node.log == [P, A, Y] && d1.node.commitIndex == 3
    ensures d2.node.currentTerm == 3 && d2.node.log == [P, X] && d2.node.commitIndex == 2
    ensures d1.store == WITH_A && d2.store == WITH_B
  {
    hide Ends, NodeStep, Network, Trio, Speaks, GuardedRunnerRun, NoReports, FreshNext, FreshMatch, ApplyAll, Commands;
    FreshFacts(1, [P, A]);
    w, d1, d2, d3 := FalseCommit();
    w, d1, d2, d3 := Campaign(w, d1, d2, d3, 1, Some(2), None);
    var next, matched := FreshNext(1, [P, A]), FreshMatch(1, [P, A]);
    assert Proposal(4, [P, A], Y.command) == [P, A, Y];
    Proposes(1, 4, [P, A], next, matched, Y.command, 1);
    w, d1, d2, d3 := Move(w, d1, d2, d3, 1, Proposed(Y.command), Leading(1, 4, [P, A, Y], 0, next, matched[1 := 3]));
    w, d1, d2, d3 := CatchingUp(w, d1, d2, d3, next, matched[1 := 3]);
    w, d1, d2, d3 := Commits(w, d1, d2, d3, 1, 4, [P, A, Y], next[3 := 2], matched[1 := 3], 3);
    StoresOf();
  }

  /** Node 3 is one entry short of the request, refuses it, and takes the retry. */
  lemma CatchingUp(w: RunnerRun, d1: Desk, d2: Desk, d3: Desk, next: map<NodeId, nat>, matched: map<NodeId, nat>)
    returns (u: RunnerRun, e1: Desk, e2: Desk, e3: Desk)
    requires Ends(w, Trio(d1, d2, d3)) && d1 == Idle(Leading(1, 4, [P, A, Y], 0, next, matched))
    requires d3 == Idle(Following(3, 4, Some(1), [P], None)) && 3 in next && next[3] == 3
    requires Append(1, 3, 4, 2, 2, [Y]) in Network(w)
    ensures Ends(u, Trio(e1, e2, e3)) && e1 == Idle(Leading(1, 4, [P, A, Y], 0, next[3 := 2], matched)) && e2 == d2
    ensures Reply(3, 1, 4, true, 3) in Network(u)
  {
    hide Ends, NodeStep, Network, Trio, Speaks, GuardedRunnerRun, NoReports;
    TooShort(3, 4, Some(1), [P], None, Append(1, 3, 4, 2, 2, [Y]));
    u, e1, e2, e3 := Move(w, d1, d2, d3, 3, Arrived(Append(1, 3, 4, 2, 2, [Y]), 20),
                          Following(3, 4, Some(1), [P], Some(1)));
    Retries(1, 4, [P, A, Y], next, matched, 2, 3, 1);
    assert [P, A, Y][..1] == [P] && [P, A, Y][1..] == [A, Y];
    u, e1, e2, e3 := Move(u, e1, e2, e3, 1, Arrived(Reply(3, 1, 4, false, 1), 20),
                          Leading(1, 4, [P, A, Y], 0, next[3 := 2], matched));
    TakesAll(3, 4, Some(1), [P], Some(1), Append(1, 3, 4, 1, 1, [A, Y]));
    assert [P] + [A, Y] == [P, A, Y];
    u, e1, e2, e3 := Move(u, e1, e2, e3, 3, Arrived(Append(1, 3, 4, 1, 1, [A, Y]), 20),
                          Following(3, 4, Some(1), [P, A, Y], Some(1)));
  }

  // ---------- conclusions ----------

  lemma EndsAt(w: RunnerRun, d1: Desk, d2: Desk, d3: Desk)
    requires Ends(w, Trio(d1, d2, d3))
    ensures |w.states| == |w.events| + 1
    ensures var c := w.states[|w.events|];
            && 1 in c.runners && 2 in c.runners && 3 in c.runners
            && Sits(c.runners[1], d1) && Sits(c.runners[2], d2) && Sits(c.runners[3], d3)
  {
    hide Installed, After, CanHappen, Sits;
  }

  /** Without the guard, and even with a guard on heartbeats alone, replication fails, for processes with the default
      configuration of which none stops and no timer fires: runner 2 has committed `x = b` at index 2; runner 1, leader
      of the later term 4, lacks it, and has committed `x = a` there. */
  lemma SafetyNeedsTheGuard() returns (w: RunnerRun)
    ensures ValidRunnerRun(w) && |w.states| == |w.events| + 1
    ensures forall i :: i in w.states[0].runners ==> ByDefault(w.states[0].runners[i])
    ensures forall k :: 0 <= k < |w.events| ==> !w.events[k].input.TickDue? && !w.events[k].input.Relaunched?
    ensures var c := w.states[|w.events|];
            && 1 in c.runners && 2 in c.runners
            && var x, y := c.runners[1], c.runners[2];
               && x.node.role == Leader && x.node.currentTerm == 4 && y.node.currentTerm == 3
               && x.full == [P, A, Y] && x.node.commitIndex == 3
               && y.full == [P, X] && y.node.commitIndex == 2
               && Lookup(x.store, "x") == Some("a") && Lookup(y.store, "x") == Some("b")
    ensures !EarnedRunnerRun(w) && !SoundRunnerRun(w) && !GuardedRunnerRun(w)
  {
    hide ValidRunnerRun, EarnedRunnerRun, SoundRunnerRun, GuardedRunnerRun;
    var d1, d2, d3;
    w, d1, d2, d3 := RivalCommit();
    EndsAt(w, d1, d2, d3);
    GuardedIsSoundIsEarned(w);
    assert [P, A, Y][..2][1] != [P, X][..2][1];
    if EarnedRunnerRun(w) {
      RunnersAgree(w, |w.events|, |w.events|, 1, 2);
    }
  }

  lemma RelaunchFollows(r: Runner, draw: nat)
    ensures Iterate(r, Relaunched(draw)).0.node.role == Follower
  {
    hide Commands, ApplyAll;
  }

  lemma RelaunchIsGuarded(c: RunnerCluster, i: NodeId, draw: nat)
    requires i in c.runners
    ensures Guarded(c, Event(i, Relaunched(draw)))
  {
    hide Started;
  }

  /** The guard leaves room for work: a guarded run of processes with the default configuration in which node 2 is
      elected, commits and applies, stops and starts again, and has its store back. */
  lemma GuardedRunsWork() returns (w: RunnerRun)
    ensures GuardedRunnerRun(w) && |w.states| == |w.events| + 1 && |w.events| > 0
    ensures forall i :: i in w.states[0].runners ==> ByDefault(w.states[0].runners[i])
    ensures w.events[|w.events| - 1] == Event(2, Relaunched(20))
    ensures var k := |w.events| - 1;
            && RunnerLeads(w, k, 2, 1)
            && var x := w.states[k].runners[2]; x.full == [P] && x.node.commitIndex == 1 && x.store == WITH_P
    ensures var c := w.states[|w.events|];
            && 2 in c.runners
            && var y := c.runners[2];
               y.node.role == Follower && y.full == [P] && y.node.commitIndex == 1 && y.store == WITH_P
  {
    hide ValidRunnerRun, GuardedRunnerRun, NoReports, Network, Trio, Guarded, After, EarnedRunnerRun, SoundRunnerRun,
      LossFreeRun,
      ApplyAll, Commands, Iterate;
    var d1, d2, d3, u;
    u, d1, d2, d3 := FirstTerm();
    u, d1, d2, d3 := Commits(u, d1, d2, d3, 2, 1, [P], FreshNext(2, []), FreshMatch(2, [])[2 := 1], 1);
    hide FreshNext, FreshMatch;
    StoresOf();
    EndsAt(u, d1, d2, d3);
    var c := u.states[|u.events|];
    RelaunchIsGuarded(c, 2, 20);
    w := RunGrows(u, Event(2, Relaunched(20)));
    GuardedIsSoundIsEarned(w);
    EarnedRunLosesNothing(w);
    RestartKeepsStore(w, |u.events|);
    RelaunchFollows(c.runners[2], 20);
    AfterIs(c, Event(2, Relaunched(20)));
  }

  lemma AfterIs(c: RunnerCluster, v: Event)
    requires v.actor in c.runners
    ensures v.actor in After(c, v).runners && After(c, v).runners[v.actor] == Iterate(c.runners[v.actor], v.input).0
  {
    hide Iterate;
  }
}
