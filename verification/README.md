# A Dafny model of the raftust consensus engine

This project models the Raft engine of raftust (`raftust-core/src/node.rs`), the loop that drives it, applies,
compacts, saves and restarts (`raftust-core/src/runner.rs`), and the key-value state machine it feeds
(`raftust-core-state-machine-key-value/src/lib.rs`), and proves what the protocol promises over whole runs.

`dafny verify dfyconfig.toml` checks everything.

## How it is built

* **Nodes.** `NodeModel` gives a node as a value and each handler as a function. `RaftNodes` is the node as a class
  whose methods update fields, maps and the log in place, with the loops of the original; each method is proved to
  leave exactly the state, and return exactly the messages, of the corresponding function. Everything below is proved
  about these functions. `ElectionHandlers` and `LogHandlers` say what each handler must do, for every node and
  message, in terms of their fields alone.
* **Clusters.** `Clusters` is a transition system: hosts, and a set of messages that only grows, so that loss,
  duplication and reordering are free. Its steps are tick, forced election, delivery, proposal, applying, compaction
  and restart. A host carries its full log, entries dropped by compaction included.
* **Histories.** `Histories` computes from a run who voted for whom with which log, who was elected, and the log of
  each leader. The central fact is that every log prefix that ends in an entry of term t is a prefix of the log of the
  leader of t.
* **All runs.** `StepKinds`, `LeaderSteps` and `RunInvariant` prove one invariant for every run without any condition;
  `RunTheorems`, `Acknowledgement` and `Progress` draw the conclusions. `Holdings` records which node has held which
  entry while in the entry's own term, and proves, again for every run, what becomes of such entries: they stay, and
  voters bring them to the leaders they elect, unless a leader in between lacks them. `Commitment` concludes that an
  entry that a majority has so held is in the log of every later leader.
* **Earned, sound and guarded runs.** A run is earned if leaders commit only entries of their term that a majority has
  held; `EarnedInvariant` and `EarnedTheorems` prove safety for these. A run is sound if the length that a follower
  reports when it accepts an append is always one up to which its log is the leader's; `SoundRuns` proves that sound
  runs are earned, and `Acknowledgement` says exactly which runs are sound, in terms of what followers bring to the
  requests they accept. A run is guarded if leaders send an AppendEntries only when their last log entry is of their
  own term, which a leader can observe by itself; `GuardedRuns` proves that guarded runs are sound. `EarnedIsMore`
  gives an earned run that is not sound.
* **Runners.** `RunnerModel` is one iteration of the loop as a function, `Runners` the runner as a class proved
  against it. `RunnerProof` and `RunnerStores` prove what becomes of the store in every run in which no runner
  truncates what it has committed. `Unfolding` takes any run of a cluster of runners, start, restarts and compaction
  included, apart into a run of the cluster of nodes above that passes through the same states; `RunnerTheorems`
  carries the theorems over. `Iterations` says when an iteration answers, applies, compacts and saves, and what.
  `ThreeNodes` and `Counterexample` give two concrete runs of three processes with the default configuration.
* **Pairs.** `CatchUp`, `Lockstep` and `Compaction` look at one leader and one follower, or at one node with and
  without compaction.

## What holds and what does not

* Election Safety, Log Matching, Leader Append-Only and the election restriction hold in every run. Election Safety
  holds although a candidate that meets a leader of its own term forgets its vote (`raftust-core/src/node.rs:212-213`
  with 458) and may vote again: by then the vote no longer decides anything (`StepKinds.VoteIsSpent`,
  `LeaderSteps.NoRival`).
* State Machine Safety and Leader Completeness do not hold in every run. A follower that accepts a request reports the
  length of its whole log (`raftust-core/src/node.rs:301`), not what the request covered, and the leader counts that
  (557-563). `Counterexample.SafetyNeedsTheGuard` gives a run of three processes with the default configuration
  (`raftust-core/src/config.rs:22-26`) at the end of which two stores hold different committed values of one key.
* They hold in every earned run, and so in every sound run. An acknowledgement is sound if and only if the tail that
  the follower brings fits (`Acknowledgement.ExactAcknowledgement`, `Acknowledgement.SoundExactly`), and every request
  that ends in an entry of the leader's own term makes it so (`GuardedRuns.GuardedRunIsSound`). An unsound
  acknowledgement that nobody counts does no harm (`EarnedIsMore.EarnedIsMore`).
* Guarding only the heartbeat of `tick` is not enough, and in the counterexample no timer fires at all: a refusal of
  an append of an earlier term is answered in the current term, and makes a new leader retry
  (`raftust-core/src/node.rs:203-210` with 326-344) before it has proposed anything.
* The code as it stands keeps the guard only as long as a new leader gets a command before it first has to send. It
  ticks in the iteration in which it is elected (`raftust-core/src/runner.rs:153-160`), and keeps the guard there if
  and only if its heartbeat interval is more than 1 (`RunnerTheorems.WinKeepsGuard`). Such runs elect, commit and
  restart (`Counterexample.GuardedRunsWork`).
* As long as no runner truncates what it has committed, the store of every runner is what the committed commands make
  of an empty one, at any moment, after any restarts. A restart replays the commands behind the snapshot on a store
  that has already seen them; for the key-value machine this is harmless because the last writer wins.
* The branch at `raftust-core/src/node.rs:268-271` that skips entries below the snapshot is never taken: requests that
  start below it are refused at 218-229. The model keeps it.
* Stable leadership needs an election timeout above the heartbeat period, where an interval of 0 counts as 1. The
  configuration check (`raftust-core/src/config.rs:127-129`), like `README.md:50`, asks only for an interval below the
  timeout and so admits interval 0 with timeout 1, which has no stable leader (`Lockstep.ZeroIntervalIsUnstable`). If
  the order in which a follower hears and ticks may change, one more tick is needed.
* Catch-up reaches a success if and only if neither node has compacted beyond what the two logs share.

## Assumptions

* A handler, applying, compacting and saving are one step with respect to crashes; the code sends before it saves
  (`raftust-core/src/runner.rs:139-148`).
* All nodes share one membership; peers are distinct and exclude the node itself.
* Terms and indexes are natural numbers without overflow.
* The random election timeout is a parameter `draw` in the configured range. Where a handler samples twice the model
  uses the last sample, which is the one that stays.
* Encoding and decoding the store loses nothing. Storage gives back what was saved last.

## Model

| member | source | states |
|---|---|---|
| RaftNodes.RaftNode.constructor | raftust-core/src/node.rs:34-69 | a new node is an empty follower of term 0 with the given timers |
| RaftNodes.RaftNode.OffsetForIndex | raftust-core/src/node.rs:581-592 | an offset is given exactly for indexes behind the snapshot and inside the log |
| RaftNodes.RaftNode.TermAt | raftust-core/src/node.rs:594-601 | the term of the snapshot or of an entry, none elsewhere |
| RaftNodes.RaftNode.BecomeFollower | raftust-core/src/node.rs:453-471 | the whole new state: vote, votes and followers' indexes are gone, timers restart, term and leader are as given |
| RaftNodes.RaftNode.TrackPeers | raftust-core/src/node.rs:485-495 | the loop over the peers leaves next index last + 1 for each, match index the snapshot index for each and the last index for the node itself |
| RaftNodes.RaftNode.BecomeLeader | raftust-core/src/node.rs:481-503 | the whole new state of a leader |
| RaftNodes.RaftNode.BuildAppendEntriesForPeer | raftust-core/src/node.rs:516-540 | the request for a peer, or none when it needs entries below the snapshot |
| RaftNodes.RaftNode.BuildHeartbeatMessages | raftust-core/src/node.rs:505-514 | one request for each peer for which one can be built, in the order of the peers |
| RaftNodes.RaftNode.BuildVoteRequests | raftust-core/src/node.rs:108-130 | one vote request for each peer with the last index and term of the log |
| RaftNodes.RaftNode.Tick | raftust-core/src/node.rs:75-95 | new state and messages of a tick of a leader, and of a follower or candidate |
| RaftNodes.RaftNode.StartElection | raftust-core/src/node.rs:97-131 | new state and messages of a candidate for the next term |
| RaftNodes.RaftNode.HandleRequestVote | raftust-core/src/node.rs:133-178 | new state and reply, for stale, equal and higher terms |
| RaftNodes.RaftNode.HandleRequestVoteResponse | raftust-core/src/node.rs:180-200 | new state, and whether the reply won the election |
| RaftNodes.RaftNode.CommitTo | raftust-core/src/node.rs:366-370 | the commit index is clamped between the snapshot and the end of the log; nothing else changes |
| RaftNodes.RaftNode.MergeEntries | raftust-core/src/node.rs:266-282 | the truncating and pushing loop leaves the merged log; nothing else changes |
| RaftNodes.RaftNode.HandleAppendEntries | raftust-core/src/node.rs:202-303 | new state and reply, with each of the four refusals |
| RaftNodes.RaftNode.TryAdvanceCommitIndex | raftust-core/src/node.rs:547-575 | the downward loop commits the greatest committable index, or none |
| RaftNodes.RaftNode.HandleAppendEntriesResponse | raftust-core/src/node.rs:305-345 | new state and retry, for success, refusal and other terms |
| RaftNodes.RaftNode.ProposeCommand | raftust-core/src/node.rs:347-364 | refused unless leader; else the entry is appended and sent |
| RaftNodes.RaftNode.TakeUnappliedEntries | raftust-core/src/node.rs:372-393 | the committed entries not yet applied, which then count as applied |
| RaftNodes.RaftNode.CompactCommitted | raftust-core/src/node.rs:395-424 | the committed entries are dropped behind a snapshot index and term, or nothing happens |
| RaftNodes.RaftNode.RestoreFromStorage | raftust-core/src/node.rs:426-451 | the whole state after a restart from stored values |
| ElectionHandlers.MajorityExactly | raftust-core/src/node.rs:190-194 | a majority is more than half of the cluster, for any number of peers |
| ElectionHandlers.StartsExactly | raftust-core/src/node.rs:97-131 | an election makes a candidate of the next term that has voted for itself, restarts the timer with a new timeout, and asks every peer in order, with the index and term at which the log ends |
| ElectionHandlers.ElectionTickExactly | raftust-core/src/node.rs:86-92 | a tick of a follower or of a candidate starts an election exactly when it fills the timeout, and otherwise only counts |
| ElectionHandlers.PatienceEnds | raftust-core/src/node.rs:75-95 | a follower or candidate that hears nothing stays in its term for exactly the ticks left of its timeout and then stands for the next term |
| ElectionHandlers.VoteGrantedExactly | raftust-core/src/node.rs:133-178 | a vote is granted exactly if the request is of a later term, or of the node's term and the node has no vote or one for this candidate, and the candidate's last term and index are at least the node's |
| ElectionHandlers.VoteRecordedExactly | raftust-core/src/node.rs:142-161 | a later term makes a follower of the node; a grant is recorded and restarts the election timer; a refusal in the same term and a stale request change nothing |
| ElectionHandlers.ElectedExactly | raftust-core/src/node.rs:180-200 | an election is won exactly by a candidate whose votes of its term, this one included, are those of more than half of the cluster; what a winner, a loser and a node of an earlier term become |
| LogHandlers.RequestExactly | raftust-core/src/node.rs:516-540 | a request is built exactly for peers whose next index is behind the snapshot and at most one past the end, and brings the log from there |
| LogHandlers.HeartbeatsExactly | raftust-core/src/node.rs:505-514 | one request to every peer that can be served and to no other, in the order of the peers |
| LogHandlers.HeartbeatTickExactly | raftust-core/src/node.rs:77-84 | a tick of a leader sends heartbeats exactly when it fills the interval |
| LogHandlers.ProposedExactly | raftust-core/src/node.rs:347-364 | a proposal is taken exactly by a leader, goes to the end of its log and out to its peers, and is committed at once exactly without peers |
| LogHandlers.AppendAnsweredExactly | raftust-core/src/node.rs:202-264 | a request is accepted exactly if it is not of an earlier term and its previous entry is in the log or is the snapshot; the index that each of the five answers reports |
| LogHandlers.LeaderRecognisedExactly | raftust-core/src/node.rs:212-216 | role, term, vote, leader and timers after any request, and that a refusal leaves log and commit index alone |
| LogHandlers.AppendMergedExactly | raftust-core/src/node.rs:266-282 | the log after an accepted request: kept up to the first conflict and the request's from there, or kept whole |
| LogHandlers.AppendCommitsExactly | raftust-core/src/node.rs:284-286 | the commit index after an accepted request: the smaller of the leader's and the end of the log if the leader's is ahead, else as before |
| LogHandlers.AppendCommitsGreater | raftust-core/src/node.rs:284-286 | that is the greater of the old one and of what is asked and covered, if and only if the request does not both cut the log below the old one and ask for more |
| LogHandlers.CommitCanFall | raftust-core/src/node.rs:284-286 | a node and a request for which it falls |
| LogHandlers.SuccessRecordedExactly | raftust-core/src/node.rs:319-325 | after a success the peer's match index is what it reports and its next index one more, no other peer is touched, the greatest index that more than half then have in the leader's term is committed, and nothing is sent |
| LogHandlers.SuccessMovesOn | raftust-core/src/node.rs:319-325 | the next request to that peer starts right behind what it has reported, whenever that is in the log, and brings all that is left |
| LogHandlers.RefusalRetriedExactly | raftust-core/src/node.rs:327-344 | after a refusal the peer is asked one entry earlier, never below the first, and at once if it can be served |
| LogHandlers.StrayAnswerExactly | raftust-core/src/node.rs:309-317 | an answer of a later term makes a follower; any other that a leader of its term does not expect changes nothing |
| LogHandlers.ReadExactly | raftust-core/src/node.rs:581-601 | offset and term of an index, and where there is none |
| LogHandlers.TakenExactly | raftust-core/src/node.rs:372-393 | what is handed over is the log from behind what was applied up to the commit index, entry by entry, and counts as applied |
| LogHandlers.CompactedExactly | raftust-core/src/node.rs:395-424 | a node compacts exactly if it has committed entries behind its snapshot, and what it then is |
| LogHandlers.RestoredExactly | raftust-core/src/node.rs:426-451 | every field after a restart, the commit index as far as the log reaches |
| LogMerge.MergeOverwrites | raftust-core/src/node.rs:266-282 | the merge keeps the log up to the first conflict j and takes entries[j..] from there, and changes nothing without a conflict |
| LogMerge.MergeTwice | raftust-core/src/node.rs:266-282 | delivering the same request twice leaves the same log as once |
| LogMerge.MergeNeverRegresses | raftust-core/src/node.rs:266-282 | merging a slice of a leader's log never shrinks the common prefix with that log |
| LogMerge.MergeBehind | raftust-core/src/node.rs:266-282 | entries dropped by compaction make no difference to the merge |
| NodeModel.GreatestCommittableIsGreatest | raftust-core/src/node.rs:552-574 | the downward search finds the greatest index of the current term that a majority has reached, and none only if there is none |
| NodeModel.AdvanceCommitIsQuorumMaximum | raftust-core/src/node.rs:547-575 | afterwards no higher index qualifies, the new commit index qualifies or is the old one, and nothing else changed |
| StepKinds.VoteIsSpent | raftust-core/src/node.rs:212-214 | a candidate that meets a leader of its own term is not in the quorum that elected it, so forgetting its vote is harmless |
| LeaderSteps.CountedVote | raftust-core/src/node.rs:190-192 | a vote that a candidate counts is, while it still decides, the voter's first vote of the term |
| LeaderSteps.NoRival | raftust-core/src/node.rs:194-197 | no candidate gathers a majority in a term that has a leader |
| LeaderSteps.MergeAcceptedAt | raftust-core/src/node.rs:218-282 | an accepted request leaves the follower with its own log or with the leader's log up to what the request covers, and in agreement with the leader up to there |
| LeaderSteps.BuiltIsSlice | raftust-core/src/node.rs:516-540 | what a leader sends is a slice of its full log, through compaction |
| RunInvariant.StepKeepsInv | raftust-core/src/node.rs:75-451 | every step of every node, from any state that satisfies the invariant, keeps it |
| RunTheorems.ElectionSafety | raftust-core/src/node.rs:97-200 | over every run at most one node leads a term |
| RunTheorems.LogMatching | raftust-core/src/node.rs:218-282 | logs of any nodes at any moments with the same term at an index agree up to it |
| RunTheorems.LeaderAppendOnly | raftust-core/src/node.rs:347-355 | while a node leads a term its earlier full log is a prefix of its later one |
| RunTheorems.ElectionRestriction | raftust-core/src/node.rs:146-154 | a leader stood for election with a log, still a prefix of its own, that a majority endorsed: in the step in which each of them cast its vote, before which it was in another term or had not voted, its log was no more up to date, and a prefix of the leader's when both ended in the same term |
| Acknowledgement.ExactAcknowledgement | raftust-core/src/node.rs:284-302 | a success reply reports a length up to which the follower's log is a prefix of the leader's if and only if the follower's tail fitted before; in particular whenever the request ends in an entry of the leader's own term |
| Acknowledgement.RecordedLogWasHeld | raftust-core/src/node.rs:297-302 | the leader log that acknowledgements are measured against was held by the leader of the term |
| Acknowledgement.SoundExactly | raftust-core/src/node.rs:266-302 | the runs whose acknowledgements are all sound are exactly those in which every follower that accepts an append brings a tail that fits |
| Progress.ProgressNeverRegresses | raftust-core/src/node.rs:266-282 | in every run, while a node stays in a term, the part of its log that it shares with the leader of that term never shrinks |
| Progress.TermsNeverBack | raftust-core/src/node.rs:453-471 | in every run the term of a node never decreases, restarts included |
| Commitment.ElectedFromHolder | raftust-core/src/node.rs:146-154 | a voter that holds a chosen entry passes it on to the leader it elects |
| LogSteps.StepAcross | raftust-core/src/node.rs:75-451 | every step of every node keeps its full log, extends it, or replaces its tail by that of the leader whose request it accepts |
| Holdings.HeldMeans | raftust-core/src/node.rs:202-303 | an entry is on record as held exactly if some node had it in some state of the run while in the entry's term |
| Holdings.StepKeepsHeld | raftust-core/src/node.rs:75-451 | every step, in any run, keeps what held entries mean for the logs of nodes and for the logs that voters voted with |
| Holdings.HeldIsKept | raftust-core/src/node.rs:202-303 | in every run an entry that a node has held while in its term is still in its log, unless the leader of some later term, no later than the node's, lacks it |
| Commitment.ChosenIsInLaterLogs | raftust-core/src/node.rs:133-178 | in every run, every leader of a later term has an entry that a majority has held while in its term |
| Commitment.CommittedAgree | raftust-core/src/node.rs:547-575 | any two committed prefixes agree where both are defined |
| EarnedInvariant.StepKeepsEarned | raftust-core/src/node.rs:75-451 | every step that commits, at a leader, nothing but what a majority has held keeps what commit indexes mean, at nodes and in requests |
| EarnedTheorems.StateMachineSafety | raftust-core/src/node.rs:547-575 | in earned runs any two nodes, at any moments, agree on every index that both have committed |
| EarnedTheorems.LeaderCompleteness | raftust-core/src/node.rs:133-178 | in earned runs what any node has committed is in the log of every leader of a later term, also of one elected before the commit, and of every later leader of the same term |
| EarnedTheorems.NodeInvariant | raftust-core/src/node.rs:366-451 | in earned runs snapshot, applied and commit index and the end of the log are in order, and log terms are sorted and at most the node's term |
| EarnedTheorems.NeverBack | raftust-core/src/node.rs:284-286 | in earned runs term and commit index never decrease and no committed entry is truncated |
| EarnedTheorems.AppendForward | raftust-core/src/node.rs:284-286 | in earned runs the commit index of a follower moves only forward, to the commit index of the request it accepts, and only over entries that the request covers |
| EarnedTheorems.AcceptedCommits | raftust-core/src/node.rs:284-286 | in earned runs a follower that accepts a request has afterwards committed exactly up to the leader's commit index, or up to its own if that is greater |
| EarnedTheorems.RequestVouches | raftust-core/src/node.rs:516-540 | a request reaches to the end of the sender's log, so its commit index is at most what it covers |
| EarnedTheorems.CommitsVouchedFor | raftust-core/src/node.rs:532-539 | no request in any earned run carries a commit index beyond what it covers |
| EarnedTheorems.HandedOver | raftust-core/src/node.rs:372-393 | in earned runs what the state machine is handed is the full log from the applied index to the commit index |
| SoundRuns.CountedHolds | raftust-core/src/node.rs:557-563 | in sound runs every node that a leader counts for an entry of its term has held that entry |
| SoundRuns.StepKeepsSound | raftust-core/src/node.rs:75-451 | every step whose acknowledgement, if it sends one, is sound keeps what reports in the network and match indexes mean |
| SoundRuns.SoundRunIsEarned | raftust-core/src/node.rs:305-325 | a run whose acknowledgements are all sound is one whose commits are all earned |
| LogSteps.SentIsBuilt | raftust-core/src/node.rs:505-514 | only a leader sends appends, and only what it builds for the receiver from the state it is in afterwards |
| GuardedRuns.StepKeepsOwn | raftust-core/src/node.rs:347-364 | every step that keeps the guard leaves only requests in the network that end in an entry of the sender's term |
| GuardedRuns.GuardedRunIsSound | raftust-core/src/node.rs:297-302 | a run whose leaders send appends only when their last entry is of their own term has only sound acknowledgements, and only earned commits |
| ThreeNodes.Overreports | raftust-core/src/node.rs:266-302 | a follower that accepts a request for its first entry reports its second |
| Counterexample.SafetyNeedsTheGuard | raftust-core/src/node.rs:297-302 | a concrete run of three processes with the default configuration, in which no timer fires and none stops, and at the end of which two stores hold different committed values of one key, and a leader of a later term lacks a committed entry; it is not earned, sound or guarded |
| Counterexample.GuardedRunsWork | raftust-core/src/runner.rs:150-160 | a concrete guarded run of processes with the default configuration in which one is elected, commits, applies, stops, starts again and has its store back |
| EarnedIsMore.ReportedWithin | raftust-core/src/node.rs:297-302 | in sound runs no report of an acceptance reaches beyond the log of the leader it is for |
| EarnedIsMore.EarnedIsMore | raftust-core/src/node.rs:557-563 | there are runs of processes whose commits are earned although an acknowledgement is not sound |
| CatchUp.Refused | raftust-core/src/node.rs:326-344 | after a refusal the leader asks one entry earlier, or falls silent at its snapshot |
| CatchUp.Taken | raftust-core/src/node.rs:266-302 | a request that starts where the logs agree brings the whole leader log to the follower, and the leader records it |
| CatchUp.CatchUpTerminates | raftust-core/src/node.rs:326-344 | the follower accepts request number last index − common prefix + 1, no earlier one, and then starts with the leader's whole log |
| CatchUp.CatchUpExactly | raftust-core/src/node.rs:518-520 | some request is accepted if and only if neither snapshot lies beyond the common prefix |
| Lockstep.BeatIsSent | raftust-core/src/node.rs:75-84 | a tick of a leader sends a peer exactly the heartbeat that the proofs below reason with |
| Lockstep.StableLeadership | raftust-core/src/node.rs:75-95 | heard on the same side of every tick, heartbeats keep a follower from starting an election if and only if its timeout exceeds the heartbeat period |
| Lockstep.ZeroIntervalIsUnstable | raftust-core/src/config.rs:127-129 | with an interval of 0 and a timeout of 1, which the check admits, the follower can start an election although it hears every heartbeat |
| Lockstep.StableInAnyOrder | raftust-core/src/node.rs:212-216 | when the order may change, if and only if the timeout exceeds the period by more than one tick |
| Compaction.SameTerms | raftust-core/src/node.rs:577-601 | last index, last term and terms from the snapshot up are those of the full log |
| Compaction.SameRequest | raftust-core/src/node.rs:516-540 | no message for a peer below the snapshot, the same message as without compaction otherwise |
| Compaction.SameVote | raftust-core/src/node.rs:133-178 | votes are the same with and without compaction |
| Compaction.SameAppendEntries | raftust-core/src/node.rs:202-303 | appends are answered and merged alike from the snapshot up, and refused with the snapshot index below it |
| Compaction.SameAdvance | raftust-core/src/node.rs:547-575 | commit indexes advance alike, although a compacted leader starts with other match indexes |
| Compaction.SameEntries | raftust-core/src/node.rs:372-393 | the same entries are handed to the state machine |
| Compaction.CompactionInvisible | raftust-core/src/node.rs:395-424 | compacting changes nothing that the uncompacted node shows, once everything committed is applied |
| Compaction.CompactionRefines | raftust-core/src/node.rs:395-424 | every step of a compacting node other than a restart keeps it related to one that never compacts: compacting, which asks that everything committed is applied, changes nothing there and sends nothing; a request that starts below the snapshot is refused with the snapshot index, and the related node, which would have looked at it, has then only recognised the leader; any other step is the same step of the related node, with the same messages less appends that start below the snapshot |
| KeyValue.SplitOnce | raftust-core-state-machine-key-value/src/lib.rs:22-22 | splits at the first space, and only if there is one |
| KeyValue.TrimExactly | raftust-core-state-machine-key-value/src/lib.rs:15-16 | trimming takes away exactly the whitespace around a line |
| KeyValue.SetParsedExactly | raftust-core-state-machine-key-value/src/lib.rs:15-30 | a line sets a key exactly if, trimmed, it is set, key and value with single spaces between, the key not empty and without space |
| KeyValue.DeleteParsedExactly | raftust-core-state-machine-key-value/src/lib.rs:32-40 | a line deletes a key exactly if, trimmed, it is del, a space and something that trims to the key, which is not empty |
| KeyValue.SetRoundTrip | raftust-core-state-machine-key-value/src/lib.rs:21-30 | a set command is read back as the key and value written |
| KeyValue.SetExactly | raftust-core-state-machine-key-value/src/lib.rs:15-30 | exactly which keys and values a line can set |
| KeyValue.DeleteRoundTrip | raftust-core-state-machine-key-value/src/lib.rs:32-40 | a delete command is read back as its key, for exactly the keys that trimming leaves alone |
| KeyValue.AppliedExactly | raftust-core-state-machine-key-value/src/lib.rs:47-58 | one command changes what it says about its key, and no other key |
| KeyValue.LastWriterWins | raftust-core-state-machine-key-value/src/lib.rs:47-58 | after any commands a key holds what the last command on it said, or else what it held |
| KeyValue.ReplayIsHarmless | raftust-core-state-machine-key-value/src/lib.rs:47-58 | replaying any commands on a store that has seen them changes nothing |
| KeyValue.KeyValueStateMachine.constructor | raftust-core-state-machine-key-value/src/lib.rs:11-13 | a new store is empty |
| KeyValue.KeyValueStateMachine.ApplyCommand | raftust-core-state-machine-key-value/src/lib.rs:47-58 | the store is updated in place as the parsed command says, or not at all |
| KeyValue.KeyValueStateMachine.Snapshot | raftust-core-state-machine-key-value/src/lib.rs:64-66 | the image holds the store; encoding is assumed not to fail |
| KeyValue.KeyValueStateMachine.Restore | raftust-core-state-machine-key-value/src/lib.rs:68-77 | the store is that of the image, empty for no bytes, and as it was, with an error, for bytes that are no image |
| Runners.Runner.constructor | raftust-core/src/runner.rs:48-74 | a new process: fresh node, empty store, nothing sent |
| Runners.Runner.SendOrLog | raftust-core/src/runner.rs:329-337 | the message is handed to the communication |
| Runners.Runner.DispatchOutbound | raftust-core/src/runner.rs:316-327 | every message is handed over, in order, addressed as it says |
| Runners.Runner.ApplyCommittedEntries | raftust-core/src/runner.rs:361-366 | the committed and unapplied commands are applied in order |
| Runners.Runner.MaybeCompactLog | raftust-core/src/runner.rs:347-359 | the log is compacted when it has reached the threshold |
| Runners.Runner.Persist | raftust-core/src/runner.rs:339-345 | compact, then save node and store; the saved record is that of storage.rs |
| Runners.Runner.RestoreFromSnapshot | raftust-core/src/runner.rs:395-410 | the node is that of the saved record; so is the store, unless the image in the record cannot be decoded, when it stays as it was |
| Runners.Runner.Launch | raftust-core/src/runner.rs:90-102 | a process starts as the model of a restart says |
| Runners.Runner.OnTick | raftust-core/src/runner.rs:106-111 | tick, send, save, without applying |
| Runners.Runner.OnRequestVote | raftust-core/src/runner.rs:137-149 | handle, reply, apply, save |
| Runners.Runner.OnRequestVoteResponse | raftust-core/src/runner.rs:150-163 | handle, tick when elected, send, apply, save |
| Runners.Runner.OnAppendEntries | raftust-core/src/runner.rs:164-177 | handle, reply, apply, save |
| Runners.Runner.OnAppendEntriesResponse | raftust-core/src/runner.rs:178-183 | handle, send, apply, save |
| Runners.Runner.ProcessCommunication | raftust-core/src/runner.rs:133-183 | all waiting messages are handled, each in one iteration, in the order of arrival; then polling finds nothing, or fails |
| Runners.Runner.OnForceElection | raftust-core/src/runner.rs:285-294 | start an election, send, apply, save |
| Runners.Runner.OnPropose | raftust-core/src/runner.rs:295-311 | a leader appends, sends, applies and saves; any other node does nothing |
| Runners.Runner.ProcessCommand | raftust-core/src/runner.rs:266-314 | each of the four commands, and that only shutdown ends the loop |
| Runners.Runner.Turn | raftust-core/src/runner.rs:105-123 | a turn of the loop is a tick if due, then every arrival, then a command unless polling failed; the loop ends exactly on failure and on shutdown |
| Runners.RanAllExactly | raftust-core/src/runner.rs:134-183 | handling inputs is one iteration for each of them, in order, with everything sent added up |
| Runners.Arrivals | raftust-core/src/runner.rs:134-135 | there is one iteration for each waiting message, the k-th for the k-th |
| Runners.InputsOf | raftust-core/src/runner.rs:105-123 | a turn is the tick if it is due, then each arrival in order, then the command |
| Iterations.VoteAnswered | raftust-core/src/runner.rs:137-149 | a vote request is answered by one message, to its sender, that grants exactly if the node is free and the candidate's log at least as far |
| Iterations.AppendAnswered | raftust-core/src/runner.rs:164-177 | an append is answered by one message, to its sender, that reports success exactly if the request fits |
| Iterations.ElectionReacts | raftust-core/src/runner.rs:285-294 | a forced election, and a tick that fills the timeout, make the runner stand and ask every peer; any other tick of a runner that does not lead only counts |
| Iterations.HeartbeatReacts | raftust-core/src/runner.rs:106-111 | a tick of a leader sends one request to every peer it can serve exactly when the interval is full |
| Iterations.WinReacts | raftust-core/src/runner.rs:150-163 | a winner ticks at once: it sends if its interval is at most 1, and else has one tick behind it |
| Iterations.NoWinReacts | raftust-core/src/runner.rs:150-163 | a reply that does not win is handled by the node, and nothing is sent |
| Iterations.AnswerReacts | raftust-core/src/runner.rs:178-183 | an expected refusal is answered with the next request that can be made, anything else with nothing |
| Iterations.ProposalReacts | raftust-core/src/runner.rs:295-304 | a proposal to a leader goes to the end of the log and out to the peers |
| Iterations.StartReacts | raftust-core/src/runner.rs:90-102 | a start takes node and store from storage, and both new if there is none |
| Iterations.AppliesExactly | raftust-core/src/runner.rs:361-366 | every iteration but a tick and a refused proposal applies all that is committed and not applied, in order |
| Iterations.SavesExactly | raftust-core/src/runner.rs:339-359 | every iteration but a start and a refused proposal compacts, exactly if the log has reached the threshold and there is something to compact, and saves what it ends in |
| Unfolding.WinReached | raftust-core/src/runner.rs:150-160 | in any run, an election won, with the tick in the same iteration, is two steps of the node, guarded if the iteration keeps the guard |
| Unfolding.IterationSaves | raftust-core/src/runner.rs:339-345 | in any run, storage agrees between iterations with the node, up to a commit index that a restart would cut back |
| Unfolding.IterationReached | raftust-core/src/runner.rs:105-128 | every iteration of a runner, start included, is the few steps of its node that are named for it, and ends in the state and with the messages that these steps give |
| Unfolding.RunUnfolds | raftust-core/src/runner.rs:105-128 | every run of a cluster of runners is, taken apart, a run of the cluster of nodes that ends in the same state; and a guarded one if the runners keep the guard |
| RunnerTheorems.Seen | raftust-core/src/runner.rs:105-128 | the run of the nodes passes through the states of the runners, in order |
| RunnerTheorems.RunnersElectionSafety | raftust-core/src/runner.rs:150-160 | over every run of runners at most one leads a term |
| RunnerTheorems.RunnersLogMatching | raftust-core/src/runner.rs:164-177 | in every run of runners, logs at any moments with the same term at an index agree up to it |
| RunnerTheorems.RunnersAppendOnly | raftust-core/src/runner.rs:295-311 | in every run of runners, the earlier full log of a leader of a term is a prefix of its later one |
| RunnerTheorems.WinKeepsGuard | raftust-core/src/runner.rs:153-160 | in every run of runners, one that wins an election and has a peer keeps the guard in that iteration if and only if its heartbeat interval is more than 1 |
| RunnerTheorems.GuardedIsSoundIsEarned | raftust-core/src/runner.rs:133-183 | guarded runs of runners are sound, and sound runs of runners are earned |
| RunnerTheorems.RunnersAgree | raftust-core/src/runner.rs:361-366 | in earned runs of runners, any two agree at any moments on every index that both have committed |
| RunnerTheorems.RunnersCompleteness | raftust-core/src/runner.rs:150-160 | in earned runs of runners, what any has committed is in the log of every leader of a later term |
| RunnerTheorems.EarnedRunLosesNothing | raftust-core/src/runner.rs:133-183 | in earned runs no runner truncates what it has committed |
| RunnerStores.IterationSettles | raftust-core/src/runner.rs:105-128 | when an iteration comes to save, everything committed is applied and the store reflects it, ticks that apply nothing included |
| RunnerStores.StoreReflectsCommitted | raftust-core/src/runner.rs:361-366 | in every run without loss of committed entries, between iterations the store is what the committed commands make of an empty one |
| RunnerTheorems.ReplicatedStores | raftust-core/src/runner.rs:361-366 | in earned runs, so in sound and in guarded ones, of any two runners at any moments, one store is reached from the other by the commands committed in between; equal commit indexes, equal stores |
| RunnerStores.RestartKeepsStore | raftust-core/src/runner.rs:395-410 | in every run without loss of committed entries, a restart gives back the store that was saved last, although a committed suffix is replayed on it |
| RunnerStores.AppliedOnce | raftust-core/src/runner.rs:361-366 | a process that was never restarted has applied each committed command exactly once and in order |
| RunnerStores.CompactionSkipsNothing | raftust-core/src/node.rs:410-412 | whenever an iteration comes to save, everything committed is applied, so compaction never bumps the applied index over an entry |

## Left out

- InstallSnapshot: no node ever sends one (`raftust-core/src/types.rs:67-70`), so a closed cluster never reaches its receive path.
- Crashes between a send and the save behind it, and save errors: a step is atomic here.
- Transports, wire formats, TLS and channels: a send puts a message into the network, which may deliver it or not.
- File storage and the encoding of snapshots: storage is the record saved last.
- KeyValue.KeyValueStateMachine.Snapshot: assumes that a map of strings can be encoded; the original falls back to no bytes.
- Runners.Runner.ProcessCommunication: does not handle the snapshot messages of lines 184-260, which nothing sends.
- Runners.Runner.Turn: a stop or a failure leaves the loop; shutting down transports and the text of a status report are not modelled.
- The counter state machine: replaying its commands is not harmless, so the restart property does not hold for it.
- Configuration parsing, logging, metrics, the clock and sleeping.
- Overflow of terms and indexes; clusters of one node, which never elect a leader.
- Compaction.CompactionRefines: asks for everything committed to be applied before a compaction, as it is whenever a runner compacts (RunnerStores.CompactionSkipsNothing); does not cover a restart, which sets the applied index to the snapshot index and so to another value than without compaction; restarts are covered by the runner theorems.
- EarnedTheorems.StateMachineSafety: does not cover runs in which a leader commits what no majority has held, where it is false in general (Counterexample.SafetyNeedsTheGuard); such a run may still end in agreement.
- EarnedTheorems.LeaderCompleteness: does not cover these runs either, where it is false in general.
- RunnerTheorems.ReplicatedStores: the same.
- RunnerStores.RestartKeepsStore: does not cover runs in which a runner truncates an entry that it has committed and applied; nothing undoes the command there.
- CatchUp.CatchUpTerminates: does not model lost messages or newer terms, and uses one sampled timeout throughout.
- Lockstep.StableLeadership: assumes that a heartbeat can be built for the follower whenever one is due.
