/** The runner as an object: it owns a node, a state machine and a storage slot, and updates them in place, in the order
    of the loop that drives a process. Every method leaves the state, and hands out the messages, that the model of an
    iteration gives. */
module Runners {
  import opened RaftTypes
  import opened NodeModel
  import opened RaftNodes
  import opened Clusters
  import opened KeyValue
  import RunnerModel

  /** What is handed to the communication for `outbound`, in order. */
  function Addressed(from: NodeId, outbound: seq<OutboundMessage>): (r: seq<Envelope>)
    ensures |r| == |outbound|
    ensures forall k :: 0 <= k < |r| ==>
              r[k] == match outbound[k]
                      case SendRequestVote(to, message) => Envelope(from, to, VoteRequest(message))
                      case SendAppendEntries(to, message) => Envelope(from, to, AppendRequest(message))
    ensures forall e :: e in r <==> e in Posted(from, outbound)
    decreases |outbound|
  {
    if outbound == [] then []
    else
      var m := outbound[0];
      [Envelope(from, m.to, if m.SendRequestVote? then VoteRequest(m.vote) else AppendRequest(m.append))]
      + Addressed(from, outbound[1..])
  }

  lemma Gathered(before: seq<Envelope>, from: NodeId, outbound: seq<OutboundMessage>)
    ensures (set e | e in before + Addressed(from, outbound)) == (set e | e in before) + Posted(from, outbound)
  {
    hide Posted, Addressed;
  }

  class Runner {
    const node: RaftNode
    const stateMachine: KeyValueStateMachine
    var saved: Option<RunnerModel.StorageSnapshot>
    const threshold: nat
    /** everything handed to the communication, in order */
    var outbox: seq<Envelope>
    ghost var full: seq<LogEntry>
    ghost var applied: seq<string>
    ghost var appliedFrom: nat

    /** A process that is about to start on `stored`; `before` is the runner that left it behind. */
    constructor (id: NodeId, peers: seq<NodeId>, timeoutMin: nat, timeoutMax: nat, interval: nat, draw: nat,
                 threshold: nat, stored: Option<RunnerModel.StorageSnapshot>, ghost before: RunnerModel.Runner)
      requires 0 < timeoutMin <= draw <= timeoutMax
      ensures fresh(node) && fresh(stateMachine) && outbox == []
      ensures View() == RunnerModel.Runner(Fresh(id, peers, Clock(0, timeoutMin, timeoutMax, draw, 0, interval)), map[],
                                           stored, threshold, before.full, [], 0)
    {
      node := new RaftNode(id, peers, timeoutMin, timeoutMax, interval, draw);
      stateMachine := new KeyValueStateMachine();
      saved, this.threshold, outbox := stored, threshold, [];
      full, applied, appliedFrom := before.full, [], 0;
    }

    ghost function View(): RunnerModel.Runner
      reads this, node, stateMachine
    {
      RunnerModel.Runner(node.View(), stateMachine.state, saved, threshold, full, applied, appliedFrom)
    }

    ghost function Sent(): set<Envelope>
      reads this
    {
      set e | e in outbox
    }

    method SendOrLog(to: NodeId, message: RaftMessage)
      modifies this`outbox
      ensures outbox == old(outbox) + [Envelope(node.id, to, message)]
      ensures Sent() == old(Sent()) + {Envelope(node.id, to, message)}
    {
      outbox := outbox + [Envelope(node.id, to, message)];
    }

    method DispatchOutbound(outbound: seq<OutboundMessage>)
      modifies this`outbox
      ensures outbox == old(outbox) + Addressed(node.id, outbound)
      ensures Sent() == old(Sent()) + Posted(node.id, outbound)
    {
      hide Posted, Addressed;
      for k := 0 to |outbound|
        invariant outbox == old(outbox) + Addressed(node.id, outbound)[..k]
      {
        match outbound[k]
        case SendRequestVote(to, message) => SendOrLog(to, VoteRequest(message));
        case SendAppendEntries(to, message) => SendOrLog(to, AppendRequest(message));
      }
      Gathered(old(outbox), node.id, outbound);
    }

    method ApplyEntries(entries: seq<LogEntry>)
      modifies stateMachine
      ensures stateMachine.state == ApplyAll(old(stateMachine.state), RunnerModel.Commands(entries))
    {
      hide ParseCommand, Apply;
      ghost var commands := RunnerModel.Commands(entries);
      for k := 0 to |entries|
        invariant ApplyAll(stateMachine.state, commands[k..]) == ApplyAll(old(stateMachine.state), commands)
      {
        assert commands[k..][0] == entries[k].command && commands[k..][1..] == commands[k + 1..];
        stateMachine.ApplyCommand(entries[k].command);
      }
      assert commands[|entries|..] == [];
    }

    method ApplyCommittedEntries()
      modifies this`applied, node`lastApplied, stateMachine
      ensures View() == RunnerModel.ApplyCommittedEntries(old(View()))
    {
      hide ApplyAll, TakeUnapplied, RunnerModel.Commands;
      var entries := node.TakeUnappliedEntries();
      ApplyEntries(entries);
      applied := applied + RunnerModel.Commands(entries);
    }

    method MaybeCompactLog()
      modifies node
      ensures View() == RunnerModel.MaybeCompactLog(old(View()))
    {
      if |node.log| >= threshold {
        var _ := node.CompactCommitted();
      }
    }

    method Persist()
      modifies this`saved, node
      ensures View() == RunnerModel.Persist(old(View()))
    {
      MaybeCompactLog();
      var image := stateMachine.Snapshot();
      saved := Some(RunnerModel.StorageSnapshot(node.id, node.currentTerm, node.votedFor, node.log, node.commitIndex,
                                                node.snapshotIndex, node.snapshotTerm, image));
    }

    // ---------- starting ----------

    method RestoreFromSnapshot(s: RunnerModel.StorageSnapshot)
      modifies this`appliedFrom, node, stateMachine
      ensures View() == old(View()).(
                node := NodeModel.RestoreFromStorage(old(node.View()), s.currentTerm, s.votedFor, s.log, s.commitIndex,
                                                     s.lastIncludedIndex, s.lastIncludedTerm),
                store := RestoredOn(old(stateMachine.state), s.stateMachine), appliedFrom := s.lastIncludedIndex)
    {
      var _ := stateMachine.Restore(s.stateMachine);
      node.RestoreFromStorage(s.currentTerm, s.votedFor, s.log, s.commitIndex, s.lastIncludedIndex, s.lastIncludedTerm);
      appliedFrom := s.lastIncludedIndex;
    }

    /** What a process does before its loop: restore what is stored, if anything, and apply what is committed. */
    method Launch(ghost before: RunnerModel.Runner, ghost draw: nat)
      requires View() == BlankAfter(before, draw)
      modifies this, node, stateMachine
      ensures (View(), {}) == RunnerModel.Iterate(before, RunnerModel.Relaunched(draw))
      ensures outbox == old(outbox)
    {
      if saved.Some? {
        RestoreFromSnapshot(saved.value);
      }
      assert View() == RunnerModel.Started(before, draw);
      ApplyCommittedEntries();
      LaunchIsIteration(before, draw);
    }

    // ---------- iterations ----------

    /** Ghost bookkeeping behind a handler that started with the first `dropped` entries compacted away. */
    ghost method KeepFull(dropped: nat)
      modifies this`full
      ensures full == if |old(full)| < dropped then old(full) else old(full)[..dropped] + node.log
    {
      full := if |full| < dropped then full else full[..dropped] + node.log;
    }

    method Settle()
      modifies this`applied, this`saved, node, stateMachine
      ensures View() == RunnerModel.Persist(RunnerModel.ApplyCommittedEntries(old(View())))
    {
      hide RunnerModel.Persist, RunnerModel.ApplyCommittedEntries;
      ApplyCommittedEntries();
      Persist();
    }

    method OnTick(draw: nat)
      requires node.electionTimeoutMin <= draw <= node.electionTimeoutMax
      modifies this, node, stateMachine
      ensures (View(), Sent()) == Ran(old(View()), old(Sent()), RunnerModel.TickDue(draw))
    {
      hide Tick, RunnerModel.Persist, Posted;
      ghost var dropped := node.snapshotIndex;
      var outbound := node.Tick(draw);
      KeepFull(dropped);
      DispatchOutbound(outbound);
      Persist();
    }

    method OnForceElection(draw: nat)
      requires node.electionTimeoutMin <= draw <= node.electionTimeoutMax
      modifies this, node, stateMachine
      ensures (View(), Sent()) == Ran(old(View()), old(Sent()), RunnerModel.ElectionForced(draw))
    {
      hide StartElection, RunnerModel.Persist, RunnerModel.ApplyCommittedEntries, Posted;
      ghost var dropped := node.snapshotIndex;
      var outbound := node.StartElection(draw);
      KeepFull(dropped);
      DispatchOutbound(outbound);
      Settle();
    }

    method OnPropose(command: string)
      modifies this, node, stateMachine
      ensures (View(), Sent()) == Ran(old(View()), old(Sent()), RunnerModel.Proposed(command))
    {
      hide RunnerModel.Persist, RunnerModel.ApplyCommittedEntries, Posted, Heartbeats;
      ghost var dropped := node.snapshotIndex;
      var accepted := node.ProposeCommand(command);
      match accepted {
        case Some(outbound) =>
          KeepFull(dropped);
          DispatchOutbound(outbound);
          Settle();
        case None =>
          assert Sent() == old(Sent()) + {};
      }
    }

    method OnRequestVote(from: NodeId, req: RequestVote, draw: nat)
      requires node.electionTimeoutMin <= draw <= node.electionTimeoutMax
      modifies this, node, stateMachine
      ensures Receives(old(View()), old(Sent()), View(), Sent(), from, node.id, VoteRequest(req), draw)
    {
      hide HandleRequestVote, RunnerModel.Persist, RunnerModel.ApplyCommittedEntries;
      ghost var dropped := node.snapshotIndex;
      var resp := node.HandleRequestVote(req, draw);
      KeepFull(dropped);
      SendOrLog(from, VoteReply(resp));
      Settle();
    }

    method OnRequestVoteResponse(from: NodeId, resp: RequestVoteResponse, draw: nat)
      requires node.electionTimeoutMin <= draw <= node.electionTimeoutMax
      modifies this, node, stateMachine
      ensures Receives(old(View()), old(Sent()), View(), Sent(), from, node.id, VoteReply(resp), draw)
    {
      hide HandleRequestVoteResponse, Tick, Posted, RunnerModel.Persist, RunnerModel.ApplyCommittedEntries;
      ghost var dropped := node.snapshotIndex;
      var becameLeader := node.HandleRequestVoteResponse(resp, draw);
      if becameLeader {
        var outbound := node.Tick(draw);
        DispatchOutbound(outbound);
      } else {
        assert Sent() == old(Sent()) + {};
      }
      KeepFull(dropped);
      Settle();
    }

    method OnAppendEntries(from: NodeId, req: AppendEntries, draw: nat)
      requires node.electionTimeoutMin <= draw <= node.electionTimeoutMax
      modifies this, node, stateMachine
      ensures Receives(old(View()), old(Sent()), View(), Sent(), from, node.id, AppendRequest(req), draw)
    {
      hide HandleAppendEntries, RunnerModel.Persist, RunnerModel.ApplyCommittedEntries;
      ghost var dropped := node.snapshotIndex;
      var resp := node.HandleAppendEntries(req, draw);
      KeepFull(dropped);
      SendOrLog(from, AppendReply(resp));
      Settle();
    }

    method OnAppendEntriesResponse(from: NodeId, resp: AppendEntriesResponse, draw: nat)
      requires node.electionTimeoutMin <= draw <= node.electionTimeoutMax
      modifies this, node, stateMachine
      ensures Receives(old(View()), old(Sent()), View(), Sent(), from, node.id, AppendReply(resp), draw)
    {
      hide HandleAppendEntriesResponse, Posted, RunnerModel.Persist, RunnerModel.ApplyCommittedEntries;
      ghost var dropped := node.snapshotIndex;
      var outbound := node.HandleAppendEntriesResponse(resp, draw);
      KeepFull(dropped);
      DispatchOutbound(outbound);
      Settle();
    }

    /** One message out of the inbox. */
    method OnMessage(e: Envelope, draw: nat)
      requires node.electionTimeoutMin <= draw <= node.electionTimeoutMax && e.to == node.id
      modifies this, node, stateMachine
      ensures (View(), Sent()) == Ran(old(View()), old(Sent()), RunnerModel.Arrived(e, draw))
    {
      hide RunnerModel.Iterate;
      match e.message {
        case VoteRequest(req) => OnRequestVote(e.from, req, draw);
        case VoteReply(resp) => OnRequestVoteResponse(e.from, resp, draw);
        case AppendRequest(req) => OnAppendEntries(e.from, req, draw);
        case AppendReply(resp) => OnAppendEntriesResponse(e.from, resp, draw);
      }
    }

    /** All messages that are waiting, in the order in which they came, each with the timeout that is sampled for it;
        then polling finds nothing more, or fails. */
    method ProcessCommunication(inbox: seq<(Envelope, nat)>, fails: bool) returns (ok: bool)
      requires forall e :: e in inbox ==> e.0.to == node.id && node.electionTimeoutMin <= e.1 <= node.electionTimeoutMax
      modifies this, node, stateMachine
      ensures (View(), Sent()) == RanAll(old(View()), old(Sent()), Arrivals(inbox))
      ensures ok == !fails
    {
      hide Ran;
      for k := 0 to |inbox|
        invariant RanAll(View(), Sent(), Arrivals(inbox[k..])) == RanAll(old(View()), old(Sent()), Arrivals(inbox))
      {
        assert inbox[k..][0] == inbox[k] && inbox[k..][1..] == inbox[k + 1..];
        OnMessage(inbox[k].0, inbox[k].1);
      }
      return !fails;
    }

    /** What an operator asks for; whether the process goes on after it. */
    method ProcessCommand(command: Command, draw: nat) returns (goesOn: bool)
      requires node.electionTimeoutMin <= draw <= node.electionTimeoutMax
      modifies this, node, stateMachine
      ensures (View(), Sent()) == RanAll(old(View()), old(Sent()), CommandInputs(Some(command), draw))
      ensures goesOn == !command.Shutdown?
    {
      hide RunnerModel.Iterate;
      match command {
        case Shutdown => return false;
        case Status =>
        case ForceElection => OnForceElection(draw);
        case Propose(value) => OnPropose(value);
      }
      return true;
    }

    /** One turn of the loop: a tick if one is due, everything that has arrived, and a command if there is one. The loop
        ends when polling fails, and when it is told to. */
    method Turn(tickDue: bool, inbox: seq<(Envelope, nat)>, fails: bool, command: Option<Command>, tickDraw: nat,
                commandDraw: nat)
      returns (goesOn: bool)
      requires node.electionTimeoutMin <= tickDraw <= node.electionTimeoutMax
      requires node.electionTimeoutMin <= commandDraw <= node.electionTimeoutMax
      requires forall e :: e in inbox ==> e.0.to == node.id && node.electionTimeoutMin <= e.1 <= node.electionTimeoutMax
      modifies this, node, stateMachine
      ensures (View(), Sent()) == RanAll(old(View()), old(Sent()),
                                         InputsOf(tickDue, inbox, if fails then None else command, tickDraw,
                                                  commandDraw))
      ensures goesOn == (!fails && command != Some(Shutdown))
    {
      hide Ran;
      ghost var first := if tickDue then [RunnerModel.TickDue(tickDraw)] else [];
      ghost var second := Arrivals(inbox);
      if tickDue {
        OnTick(tickDraw);
      }
      RanAllConcat(old(View()), old(Sent()), first, second);
      var ok := ProcessCommunication(inbox, fails);
      if !ok {
        assert first + second + [] == first + second;
        return false;
      }
      RanAllConcat(old(View()), old(Sent()), first + second, CommandInputs(command, commandDraw));
      goesOn := true;
      if command.Some? {
        goesOn := ProcessCommand(command.value, commandDraw);
      }
    }
  }

  /** A runner and all it sent, after one more iteration. */
  ghost function Ran(r: RunnerModel.Runner, sent: set<Envelope>, input: RunnerModel.Input)
    : (RunnerModel.Runner, set<Envelope>)
  {
    (RunnerModel.Iterate(r, input).0, sent + RunnerModel.Iterate(r, input).1)
  }

  ghost function RanAll(r: RunnerModel.Runner, sent: set<Envelope>, inputs: seq<RunnerModel.Input>)
    : (RunnerModel.Runner, set<Envelope>)
    decreases |inputs|
  {
    if inputs == [] then (r, sent)
    else RanAll(Ran(r, sent, inputs[0]).0, Ran(r, sent, inputs[0]).1, inputs[1..])
  }

  lemma {:induction false} RanAllConcat(r: RunnerModel.Runner, sent: set<Envelope>,
                                        a: seq<RunnerModel.Input>, b: seq<RunnerModel.Input>)
    ensures var (q, out) := RanAll(r, sent, a); RanAll(r, sent, a + b) == RanAll(q, out, b)
    decreases |a|
  {
    hide Ran;
    if a == [] {
      assert a + b == b;
    } else {
      assert (a + b)[1..] == a[1..] + b;
      RanAllConcat(Ran(r, sent, a[0]).0, Ran(r, sent, a[0]).1, a[1..], b);
    }
  }

  /** Running inputs is a chain of iterations, one for each input and in their order, that adds up what is sent. */
  lemma {:induction false} RanAllExactly(r: RunnerModel.Runner, sent: set<Envelope>, inputs: seq<RunnerModel.Input>)
    returns (chain: seq<(RunnerModel.Runner, set<Envelope>)>)
    ensures |chain| == |inputs| + 1 && chain[0] == (r, sent) && chain[|inputs|] == RanAll(r, sent, inputs)
    ensures forall k :: 0 <= k < |inputs| ==>
              && chain[k + 1].0 == RunnerModel.Iterate(chain[k].0, inputs[k]).0
              && chain[k + 1].1 == chain[k].1 + RunnerModel.Iterate(chain[k].0, inputs[k]).1
    decreases |inputs|
  {
    hide RunnerModel.Iterate;
    chain := [(r, sent)];
    if inputs != [] {
      var next := Ran(r, sent, inputs[0]);
      var later := RanAllExactly(next.0, next.1, inputs[1..]);
      chain := chain + later;
    }
  }

  datatype Command = Shutdown | Status | ForceElection | Propose(value: string)

  /** Every message of the inbox, one after the other. */
  ghost function Arrivals(inbox: seq<(Envelope, nat)>): (r: seq<RunnerModel.Input>)
    ensures |r| == |inbox|
    ensures forall k :: 0 <= k < |r| ==> r[k] == RunnerModel.Arrived(inbox[k].0, inbox[k].1)
    decreases |inbox|
  {
    if inbox == [] then [] else [RunnerModel.Arrived(inbox[0].0, inbox[0].1)] + Arrivals(inbox[1..])
  }

  /** A proposal and a forced election are an iteration each; no other command is any. */
  ghost function CommandInputs(command: Option<Command>, draw: nat): (r: seq<RunnerModel.Input>)
    ensures |r| == if command.Some? && (command.value.Propose? || command.value.ForceElection?) then 1 else 0
    ensures forall value :: command == Some(Command.Propose(value)) ==> r[0] == RunnerModel.Proposed(value)
    ensures command == Some(Command.ForceElection) ==> r[0] == RunnerModel.ElectionForced(draw)
  {
    match command
    case None => []
    case Some(Propose(value)) => [RunnerModel.Proposed(value)]
    case Some(ForceElection) => [RunnerModel.ElectionForced(draw)]
    case Some(Shutdown) => []
    case Some(Status) => []
  }

  /** The iterations that one turn of the loop consists of: first the tick, if it is due, then the arrivals, then the
      command. */
  ghost function InputsOf(tickDue: bool, inbox: seq<(Envelope, nat)>, command: Option<Command>, tickDraw: nat,
                          commandDraw: nat): (r: seq<RunnerModel.Input>)
    ensures var ticks := if tickDue then 1 else 0;
            && |r| == ticks + |inbox| + |CommandInputs(command, commandDraw)|
            && (tickDue ==> r[0] == RunnerModel.TickDue(tickDraw))
            && (forall k :: 0 <= k < |inbox| ==> r[ticks + k] == RunnerModel.Arrived(inbox[k].0, inbox[k].1))
            && r[ticks + |inbox|..] == CommandInputs(command, commandDraw)
  {
    (if tickDue then [RunnerModel.TickDue(tickDraw)] else []) + Arrivals(inbox) + CommandInputs(command, commandDraw)
  }

  /** Runner `q` with `out` sent is runner `r` with `sent` after a message to `to` from `from` came in. */
  ghost predicate Receives(r: RunnerModel.Runner, sent: set<Envelope>, q: RunnerModel.Runner, out: set<Envelope>,
                           from: NodeId, to: NodeId, message: RaftMessage, draw: nat)
  {
    (q, out) == Ran(r, sent, RunnerModel.Arrived(Envelope(from, to, message), draw))
  }

  /** A new process on the storage of `r`, before it reads it. */
  ghost function BlankAfter(r: RunnerModel.Runner, draw: nat): RunnerModel.Runner {
    RunnerModel.Runner(
      Fresh(r.node.id, r.node.peers,
            r.node.clock.(electionElapsed := 0, heartbeatElapsed := 0, electionTimeout := draw)),
      map[], r.disk, r.threshold, r.full, [], 0)
  }

  lemma LaunchIsIteration(r: RunnerModel.Runner, draw: nat)
    ensures RunnerModel.Iterate(r, RunnerModel.Relaunched(draw))
         == (RunnerModel.ApplyCommittedEntries(RunnerModel.Started(r, draw)), {})
  {
    hide RunnerModel.ApplyCommittedEntries, RunnerModel.Started;
  }
}
