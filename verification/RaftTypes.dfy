/** Log entries, roles and messages of the Raft engine. */
module RaftTypes {

  type NodeId = nat

  type Term = nat

  datatype Option<+T> = None | Some(value: T)

  datatype LogEntry = LogEntry(term: Term, command: string)

  datatype Role = Follower | Candidate | Leader

  datatype RequestVote = RequestVote(term: Term, candidateId: NodeId, lastLogIndex: nat, lastLogTerm: Term)

  datatype RequestVoteResponse = RequestVoteResponse(term: Term, voteGranted: bool, from: NodeId)

  datatype AppendEntries = AppendEntries(
    term: Term,
    leaderId: NodeId,
    prevLogIndex: nat,
    prevLogTerm: Term,
    entries: seq<LogEntry>,
    leaderCommit: nat)

  datatype AppendEntriesResponse = AppendEntriesResponse(term: Term, success: bool, from: NodeId, matchIndex: nat)

  /** What a node sends on its own initiative; replies travel separately. */
  datatype OutboundMessage =
    | SendRequestVote(to: NodeId, vote: RequestVote)
    | SendAppendEntries(to: NodeId, append: AppendEntries)

  datatype RaftMessage =
    | VoteRequest(vote: RequestVote)
    | VoteReply(voteReply: RequestVoteResponse)
    | AppendRequest(append: AppendEntries)
    | AppendReply(appendReply: AppendEntriesResponse)

  function Min(a: nat, b: nat): nat {
    if a <= b then a else b
  }

  function Clamp(x: nat, lo: nat, hi: nat): nat
    requires lo <= hi
  {
    if x < lo then lo else if x > hi then hi else x
  }
}
