/** A node together with its state machine and its storage, and one iteration of the loop that drives them. */
module RunnerModel {
  import opened RaftTypes
  import opened NodeModel
  import opened Clusters
  import opened KeyValue

  /** What survives a stop of the process. */
  datatype StorageSnapshot = StorageSnapshot(
    nodeId: NodeId,
    currentTerm: Term,
    votedFor: Option<NodeId>,
    log: seq<LogEntry>,
    commitIndex: nat,
    lastIncludedIndex: nat,
    lastIncludedTerm: Term,
    stateMachine: Image)

  function FromNode(n: NodeState, image: Image): StorageSnapshot {
    StorageSnapshot(n.id, n.currentTerm, n.votedFor, n.log, n.commitIndex, n.snapshotIndex, n.snapshotTerm, image)
  }

  /** `full` is the log with the entries that compaction dropped, `applied` what this process handed to its state
      machine, starting behind index `appliedFrom`; the source keeps none of the three. */
  datatype Runner = Runner(
    node: NodeState,
    store: Store,
    disk: Option<StorageSnapshot>,
    threshold: nat,
    full: seq<LogEntry>,
    applied: seq<string>,
    appliedFrom: nat)

  datatype Input =
    | TickDue(draw: nat)
    | Arrived(envelope: Envelope, draw: nat)
    | ElectionForced(draw: nat)
    | Proposed(command: string)
    | Relaunched(draw: nat)

  function Commands(entries: seq<LogEntry>): (r: seq<string>)
    ensures |r| == |entries|
    ensures forall k :: 0 <= k < |r| ==> r[k] == entries[k].command
    decreases |entries|
  {
    if entries == [] then [] else [entries[0].command] + Commands(entries[1..])
  }

  /** The runner after a handler turned its node into `m`. */
  function WithNode(r: Runner, m: NodeState): Runner {
    r.(node := m, full := if |r.full| < r.node.snapshotIndex then r.full else r.full[..r.node.snapshotIndex] + m.log)
  }

  function ApplyCommittedEntries(r: Runner): Runner {
    var (m, entries) := TakeUnapplied(r.node);
    var commands := Commands(entries);
    r.(node := m, store := ApplyAll(r.store, commands), applied := r.applied + commands)
  }

  function MaybeCompactLog(r: Runner): Runner {
    if |r.node.log| >= r.threshold then r.(node := CompactCommitted(r.node).0) else r
  }

  function Persist(r: Runner): Runner {
    var m := MaybeCompactLog(r);
    m.(disk := Some(FromNode(m.node, Encoded(m.store))))
  }

  /** What a message does before the committed entries are applied. */
  function Handle(r: Runner, e: Envelope, draw: nat): (Runner, set<Envelope>) {
    match e.message
    case VoteReply(resp) =>
      var (m, elected) := HandleRequestVoteResponse(r.node, resp, draw);
      if elected then
        var (t, outbound) := Tick(m, draw);
        (WithNode(r, t), Posted(r.node.id, outbound))
      else (WithNode(r, m), {})
    case _ =>
      var (m, sent) := DeliverTo(r.node, e.from, e.message, draw);
      (WithNode(r, m), sent)
  }

  /** The start of a process on the storage of an earlier one. */
  function Started(r: Runner, draw: nat): Runner {
    var blank := Fresh(r.node.id, r.node.peers,
                       r.node.clock.(electionElapsed := 0, heartbeatElapsed := 0, electionTimeout := draw));
    match r.disk
    case None => r.(node := blank, store := map[], applied := [], appliedFrom := 0)
    case Some(s) =>
      r.(node := RestoreFromStorage(blank, s.currentTerm, s.votedFor, s.log, s.commitIndex, s.lastIncludedIndex,
                                    s.lastIncludedTerm),
         store := RestoredOn(map[], s.stateMachine), applied := [], appliedFrom := s.lastIncludedIndex)
  }

  /** An iteration up to the point where it applies and saves, if it does. */
  function Reacted(r: Runner, input: Input): (Runner, set<Envelope>) {
    match input
    case TickDue(draw) => var (m, outbound) := Tick(r.node, draw); (WithNode(r, m), Posted(r.node.id, outbound))
    case Arrived(e, draw) => Handle(r, e, draw)
    case ElectionForced(draw) =>
      var (m, outbound) := StartElection(r.node, draw); (WithNode(r, m), Posted(r.node.id, outbound))
    case Proposed(command) =>
      (match ProposeCommand(r.node, command)
       case None => (r, {})
       case Some((m, outbound)) => (WithNode(r, m), Posted(r.node.id, outbound)))
    case Relaunched(draw) => (Started(r, draw), {})
  }

  /** A tick does not apply, and neither does a refused proposal. */
  predicate Applies(r: Runner, input: Input) {
    !input.TickDue? && (input.Proposed? ==> r.node.role == Leader)
  }

  /** A start does not save, and neither does a refused proposal. */
  predicate Saves(r: Runner, input: Input) {
    !input.Relaunched? && (input.Proposed? ==> r.node.role == Leader)
  }

  /** An iteration up to the point where it saves. */
  function Settled(r: Runner, input: Input): (Runner, set<Envelope>) {
    var (m, sent) := Reacted(r, input);
    (if Applies(r, input) then ApplyCommittedEntries(m) else m, sent)
  }

  function Iterate(r: Runner, input: Input): (Runner, set<Envelope>) {
    var (m, sent) := Settled(r, input);
    (if Saves(r, input) then Persist(m) else m, sent)
  }

  // ---------- clusters of runners ----------

  datatype RunnerCluster = RunnerCluster(members: set<NodeId>, runners: map<NodeId, Runner>, network: set<Envelope>)

  datatype Event = Event(actor: NodeId, input: Input)

  ghost predicate CanHappen(c: RunnerCluster, v: Event) {
    && v.actor in c.members && v.actor in c.runners
    && (v.input.Arrived? ==> v.input.envelope in c.network && v.input.envelope.to == v.actor)
    && (!v.input.Proposed? ==> DrawInRange(c.runners[v.actor].node.clock, v.input.draw))
  }

  function After(c: RunnerCluster, v: Event): RunnerCluster
    requires v.actor in c.runners
  {
    var (r, sent) := Iterate(c.runners[v.actor], v.input);
    c.(runners := c.runners[v.actor := r], network := c.network + sent)
  }

  /** AppendEntries are sent only when the node's last log entry is of its own term. */
  ghost predicate Polite(m: Runner, sent: set<Envelope>) {
    (exists e :: e in sent && e.message.AppendRequest?) ==> m.node.LastLogTerm() == m.node.currentTerm
  }

  ghost predicate GuardOk(r: Runner, input: Input) {
    Polite(Reacted(r, input).0, Reacted(r, input).1)
  }

  /** The guard, as seen by the runner that reacts. */
  ghost predicate Guarded(c: RunnerCluster, v: Event)
    requires v.actor in c.runners
  {
    GuardOk(c.runners[v.actor], v.input)
  }

  ghost predicate Installed(c: RunnerCluster) {
    && c.network == {}
    && c.runners.Keys == c.members
    && (forall i :: i in c.runners ==>
          var r := c.runners[i];
          && r == Runner(Fresh(i, r.node.peers, r.node.clock), map[], None, r.threshold, [], [], 0)
          && SharesMembership(r.node, c.members))
  }

  datatype RunnerRun = RunnerRun(states: seq<RunnerCluster>, events: seq<Event>)

  ghost predicate ValidRunnerRun(w: RunnerRun) {
    && |w.states| == |w.events| + 1
    && Installed(w.states[0])
    && (forall k :: 0 <= k < |w.events| ==>
          && CanHappen(w.states[k], w.events[k])
          && w.states[k + 1] == After(w.states[k], w.events[k]))
  }

  ghost predicate GuardedRunnerRun(w: RunnerRun) {
    && ValidRunnerRun(w)
    && (forall k :: 0 <= k < |w.events| ==> CanHappen(w.states[k], w.events[k]) && Guarded(w.states[k], w.events[k]))
  }

  /** What a runner had committed is still in its log after it reacted. */
  ghost predicate LosesNothing(r: Runner, input: Input) {
    var m := Reacted(r, input).0;
    && r.node.commitIndex <= |r.full| && r.node.commitIndex <= |m.full|
    && m.full[..r.node.commitIndex] == r.full[..r.node.commitIndex]
  }

  /** A run in which no runner truncates an entry that it has committed. */
  ghost predicate LossFreeRun(w: RunnerRun) {
    && ValidRunnerRun(w)
    && (forall k :: 0 <= k < |w.events| ==>
          && w.events[k].actor in w.states[k].runners
          && LosesNothing(w.states[k].runners[w.events[k].actor], w.events[k].input))
  }
}
