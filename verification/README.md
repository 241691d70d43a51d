# xraft: verified model of the consensus core

A Dafny model of xraft's Raft implementation (KRaft-style: followers pull entries with
Fetch requests) and proofs about it. `dafny verify dfyconfig.toml` checks everything.

## What is modelled

**The engine** (`xraft-core/src/node.rs`). `Engine.dfy` is the whole `RaftNode::step` as a
pure function: Pre-Vote, elections, fetch replication, the commit rule, the apply pipeline,
snapshot coordination and Check-Quorum. `RaftNode.dfy` is the same engine as an object with
in-place updates and the source's loops. Each handler is proved to compute the function, and
`Feed`, the object's step, promises what is proved about the function. The object's 21
variables are grouped into nine records. Some source handlers are split into two methods at a
branch.

**The cluster** (`xraft-server/src/driver.rs`, `xraft-storage/src/log.rs`). `Driver.dfy` gives a
server its durable log, runs actions in order and answers fetches. `Cluster.dfy` puts any
number of servers over a network that may lose, duplicate, delay and reorder packets, with
restarts that keep term, vote and log.

**What holds in every run.** `EngineBallots.dfy`, `ClusterLeaders.dfy` and
`ClusterElections.dfy` assume nothing about the answers a follower consumes: one leader per
term, led once, with a log that only grows, committing only at entries of its own term.

**What holds when answers are safe.** `Protocol*.dfy` is an abstract Raft with history variables
(ballots, candidacies, reigns, acknowledgements) and the invariant that makes it safe. The key
notion is an entry that is *open*: a majority has acknowledged it or is still free to. Every
holder keeps open entries, every later leader has them, every vote by a holder goes to a
candidate that has them. `Simulation.dfy`, `FetchSimulation.dfy` and `ClusterSimulation.dfy` show
that every admissible event of the cluster of engines is matched by protocol steps.
`ClusterSafety.dfy` and `Divergence.dfy` draw the conclusions, over all runs, all nodes and all
pairs of moments.

**What goes wrong when they are not.** `Scenarios.dfy` gives two whole runs from fresh engines, in
which every message was sent and every answer is the driver's own, with one batch size throughout. `Script.dfy` and
`Exchanges.dfy` work out what each exchange of messages does.

**One engine on any inputs.** `EngineRuns.dfy`, `EngineElections.dfy`, `EngineCommit.dfy`,
`EngineApply.dfy`, `CheckQuorum.dfy` and `WindowScenario.dfy` are about every sequence of inputs
to a single engine, with no assumption about the network or the other nodes.

**Membership, in-memory log, snapshot reader.** `Membership.dfy` and `MemoryLog.dfy` model
`xraft-core/src/node_state.rs`; `SnapshotReader.dfy` models the chunked read of
`xraft-core/src/storage.rs`.

## Assumptions

- Actions of a step are executed in order and as one event with the step; the acknowledgement
  of a served fetch is fed back in that same event.
- `Cluster.Admissible` is the one assumption of log matching, leader completeness and state
  machine safety. It concerns one kind of event, a leader's answer that the engine does not ignore.
  Entries that continue the follower's log: the leader's log has the follower's last entry. No
  entries: what the answer announces as committed is the follower's own. A divergence: it names the
  end of the real common prefix, and it drops something only from a log whose last entry is older
  than that leader's term. Entries that do not continue the log are free, and so is every answer that
  the engine ignores.
- For answers without divergence it holds while the log has not moved since the request
  (`Divergence.UnmovedIsAdmissible`), and at any time while the follower's last entry is of the
  leader's own term (`Divergence.SyncedIsAdmissible`). For divergences it holds while the log has not
  moved, if the leader has seen the epoch (`Divergence.CheckedIsAdmissible`).
- For an epoch the leader has never seen the driver's divergence is never the common prefix
  (`Divergence.DivergencePoint`). The event `DeliverFetch` therefore carries an optional `anchor`
  that may stand in for that one answer.
- Voters are listed without repetition. Terms, indices and ticks stay below the 64-bit limit at
  which the source saturates. A step draws one election timeout, an arbitrary number.

## Where code and documentation disagree

- Invariant S3 of the architecture document says that a fetch answer carries the index and term
  before its entries. The code's answer has neither, and the follower checks only that indices
  are contiguous. `Scenarios.LateAnswerBreaksMatching` is a run that ends with two logs that do not
  match. `Divergence.LateAnswer` proves that the missing term comparison is exactly what is needed,
  and `Divergence.LateDivergence` which comparison a late divergence needs.
- On a divergence for an epoch the leader has never seen, the driver names the leader's own last
  entry. The follower truncates nothing and claims that entry in its next fetch, which the leader
  counts. `Scenarios.UnknownEpochBreaksSafety` is a run in which two nodes then apply different
  entries at index 1.
- A fetch counts for Check-Quorum only while it is less than a window old at the check, so a
  quorum that fetches once in every window does not always keep its leader.
  `CheckQuorum.CheckDecides` proves exactly when a tick ends a reign, and
  `WindowScenario.FetchAgesOut` is a run in which it does. With a window of one tick no fetch ever
  counts (`CheckQuorum.WindowOfOne`).
- `InMemoryLog` sets its end offset to 0 when a suffix truncation leaves nothing, also after
  compaction. `MemoryLog.SuffixTruncation` proves exactly when the log stays contiguous.
- The epoch lookup of `InMemoryLog` skips a newer entry at offset 0;
  `MemoryLog.InMemoryLog.EpochEndOffset` states exactly when its answer splits the log, and
  `MemoryLog.NewerEntrySkipped` is a log for which it does not.
- The watermark can fall when a voters record is appended while followers are recorded past the
  leader's log. `Membership.AppendFalls` proves exactly when, and `Membership.WatermarkFalls` is an
  input.
- The snapshot reader's documentation promises an empty iterator for an offset at or past the end.
  The code yields one empty chunk marked as the last; the model follows the code.

## Model

| member | source | states |
|---|---|---|
| ClusterElections.ElectionSafety | xraft-core/src/node.rs:979-1035 | In every run, with nothing assumed about answers, two leaders of one term at any two moments are the same node, and its log only grows at the end within the term. |
| ClusterElections.HappenPolled | xraft-core/src/node.rs:1390-1569 | Every possible event keeps the record of votes and won elections: votes counted were cast for the candidate, a new leader has a majority of them, and its term had none before. |
| EngineBallots.StepRegular | xraft-core/src/node.rs:585-607 | Whatever the input: the votes behind a candidate or new leader are its own, earlier ones or the one delivered; a granted vote sent is the vote on record; a leader cuts nothing, writes its own term and commits between its no-op and its tail. |
| ClusterLeaders.LeadsOnce | xraft-core/src/node.rs:826-898 | A node that stopped leading a term never leads it again, whatever is delivered and across restarts; needs no assumption about answers. |
| ClusterSafety.LogMatching | docs/stories/failover-cluster-XRAFT/architecture.md:637 | In every run with admissible answers, the same term at the same index on any two nodes at any two moments means the same log up to there. |
| ClusterSafety.LeaderCompleteness | docs/stories/failover-cluster-XRAFT/architecture.md:638 | In every run with admissible answers, what any node had committed in a term is in the log of every leader of that or a later term at every later moment. |
| ClusterSafety.CommittedAgree | xraft-core/src/node.rs:1757-1804 | In every run with admissible answers, committed prefixes of any two nodes at any two moments agree up to the shorter. |
| ClusterSafety.StateMachineSafety | docs/stories/failover-cluster-XRAFT/architecture.md:639 | In every run with admissible answers, no two nodes, at any two moments, have applied different entries at one index. |
| ClusterElections.CommitsOwnTerm | xraft-core/src/node.rs:1788-1797 | In every run, with nothing assumed about answers, whenever an event moves a leader's commit index the entry there exists and is of the leader's own term. |
| ClusterSafety.RunDescribed | xraft-core/src/node.rs:585-607 | Every run of the cluster of engines with admissible answers is described, moment by moment, by a protocol history that satisfies the invariant and only grows. |
| ClusterSimulation.HappenRelated | xraft-server/src/driver.rs:2810-3287 | Every admissible event takes a described cluster to a described cluster. |
| ClusterSimulation.InitialRelated | xraft-core/src/node.rs:427-546 | A cluster of new engines with empty logs is described by the initial protocol state. |
| Divergence.EpochEnd | xraft-storage/src/log.rs:228-272 | In a log with rising terms the checkpoint lookup gives the last index of the epoch. |
| Divergence.KnownEpoch | xraft-server/src/driver.rs:3315-3475 | If the leader has seen the follower's epoch, the divergence is the end of the longest common prefix, strictly inside the follower's log, and a fetch from there is accepted. |
| Divergence.UnknownEpoch | xraft-server/src/driver.rs:3315-3475 | If it has not, the divergence names an entry the follower does not hold, and the fetch from there is accepted all the same. |
| Divergence.DivergencePoint | xraft-core/src/storage.rs:77-99 | In every run: the reported divergence is the end of the longest common prefix if and only if the follower's last epoch occurs in the leader's log. |
| Divergence.CheckedIsAdmissible | xraft-server/src/driver.rs:2018-2045 | In every run, the checks of the documented term comparison, and for divergences an unmoved tail and a known epoch, imply admissibility. |
| Divergence.UnmovedIsAdmissible | xraft-server/src/driver.rs:2018-2045 | In every run, an answer without divergence is admissible as long as the log has not moved since the request. |
| Divergence.SyncedIsAdmissible | xraft-core/src/node.rs:2591-2649 | In every run, a follower whose last entry is of the leader's own term can take every answer of that leader without divergence, however late or often it arrives. |
| Divergence.LateAnswer | xraft-core/src/node.rs:2591-2641 | In every run: appending a contiguous late batch gives a prefix of the leader's log if and only if the leader has the follower's last entry. |
| Divergence.LateDivergence | xraft-core/src/node.rs:2566-2588 | In every run: a leader's divergence, whenever it arrives, names the end of the longest common prefix if and only if both logs have the named epoch there and do not go on with the same term. |
| Scenarios.UnknownEpochBreaksSafety | xraft-server/src/driver.rs:3315-3475 | A run from fresh engines, every message sent and every answer the driver's own, after which two nodes have applied different entries at index 1. |
| Scenarios.LateAnswerBreaksMatching | xraft-core/src/node.rs:2591-2641 | A run from fresh engines in which a delayed fetch is answered late, and after which two logs share a term at an index and differ before it. |
| ProtocolHistory.ElectFresh | xraft-core/src/node.rs:1138-1152 | A candidate with a majority of the votes of a term finds no leader recorded for that term. |
| ProtocolSteps.UpToDateHolds | xraft-core/src/node.rs:1299-1307 | A candidate at least as up to date as a voter that holds an entry which may be committed holds it too. |
| ProtocolSteps.AdvanceChosen | xraft-core/src/node.rs:1757-1804 | A majority of recorded progress at a current-term entry is a majority of acknowledgements of it. |
| ProtocolSteps.AdoptTermInv | xraft-core/src/node.rs:830-834 | Moving to a higher term keeps the invariant. |
| ProtocolSteps.StandInv | xraft-core/src/node.rs:979-1000 | Standing for election keeps the invariant. |
| ProtocolSteps.CastInv | xraft-core/src/node.rs:1478-1488 | Casting a vote under the up-to-date rule keeps the invariant. |
| ProtocolSteps.CollectInv | xraft-core/src/node.rs:1556-1558 | Counting a granted vote keeps the invariant. |
| ProtocolSteps.ElectInv | xraft-core/src/node.rs:1056-1102 | Taking leadership and appending the no-op keeps the invariant: later leaders hold every entry that may be committed. |
| ProtocolSteps.ProposeInv | xraft-core/src/node.rs:2668-2685 | A leader's append keeps the invariant. |
| ProtocolSteps.AckInv | xraft-core/src/node.rs:768-783 | Announcing a held current-term entry by fetching past it keeps the invariant. |
| ProtocolSteps.RecordInv | xraft-core/src/node.rs:2339-2351 | Recording a replica's progress keeps the invariant. |
| ProtocolSteps.AdvanceInv | xraft-core/src/node.rs:1779-1797 | Committing at a majority of recorded progress keeps the invariant. |
| ProtocolSteps.ExtendInv | xraft-core/src/node.rs:2635-2641 | Copying more of the leader's log keeps the invariant. |
| ProtocolSteps.TruncateInv | xraft-core/src/node.rs:2566-2570 | Cutting a log back to no less than the common prefix keeps the invariant. |
| ProtocolSteps.LearnInv | xraft-core/src/node.rs:2645-2648 | Adopting the leader's commit index keeps the invariant. |
| ProtocolSteps.CrashInv | xraft-server/src/server.rs:640-710 | Restarting with term, vote and log, and a commit index no higher, keeps the invariant. |
| Simulation.TickSim | xraft-core/src/node.rs:639-744 | A tick of a server, with its actions executed, is matched by protocol steps and sends only sound messages. |
| Simulation.VoteRequestSim | xraft-core/src/node.rs:1390-1517 | Answering a vote request is matched by adopting the term and casting the vote. |
| Simulation.VoteResponseSim | xraft-core/src/node.rs:1535-1569 | A vote response is matched by collecting the vote and, at a quorum, by the election. |
| Simulation.PreVoteResponseSim | xraft-core/src/node.rs:1659-1688 | A pre-vote response changes the protocol only by a candidacy. |
| Simulation.ProposeSim | xraft-core/src/node.rs:2668-2692 | A proposal is matched by an append and a possible commit. |
| Simulation.AdvanceSim | xraft-core/src/node.rs:1757-1830 | The commit rule and the apply pipeline are matched by a protocol commit; the state machine receives the committed prefix. |
| FetchSimulation.AnswerForOk | xraft-server/src/driver.rs:3315-3475 | Every answer to a served fetch is sound: taken from the reign's log, after a matching claim, with a settled watermark. |
| FetchSimulation.ServeSim | xraft-server/src/driver.rs:3145-3222 | Serving a fetch and feeding back its acknowledgement is matched by recording and committing. |
| FetchSimulation.FetchResponseSim | xraft-core/src/node.rs:2401-2652 | Any answer that the engine ignores or that is safe for the follower, late or not, is matched by adopting, extending, truncating and learning. |
| ClusterSimulation.RestartSim | xraft-server/src/server.rs:640-710 | A restart is matched by a protocol crash. |
| EngineRuns.StepPours | xraft-core/src/node.rs:585-607 | Every step but the snapshot confirmations commits and applies nothing, or does so in one final drain of the apply pipeline. |
| EngineRuns.VoteOncePerTerm | xraft-core/src/node.rs:1479-1488 | Over every input sequence the term never falls and a vote once cast in a term stays. |
| EngineRuns.LeadsOncePerTerm | xraft-core/src/node.rs:733-743 | Over every input sequence a leadership that ends is over for its term. |
| EngineRuns.ObserverForever | xraft-core/src/node.rs:852-856 | A node constructed as an observer stays one, never votes and never sends an election message. |
| EngineElections.PersistBeforeAnnouncing | docs/stories/failover-cluster-XRAFT/architecture.md:640 | Any step that changes term or vote asks to persist them before every vote message, new-term fetch and append. |
| EngineElections.SavedIsCurrent | xraft-core/src/node.rs:239-253 | When the driver persists at each request, what is on disk between steps is the current term and vote. |
| EngineElections.CandidacyNeedsQuorum | xraft-core/src/node.rs:915-971 | In every run a term is raised by candidacy only on a quorum: itself and voters that granted a pre-vote in one phase, begun with the own vote alone and its tally never cleared since. |
| EngineElections.TicksInflateNothing | xraft-core/src/node.rs:733-743 | Ticks alone never change term or vote unless the node is the only voter. |
| OrderStatistics.QthLargest | xraft-core/src/node.rs:1785-1786 | The entry at position q-1 of the descending sort reaches exactly those thresholds that at least q entries reach. |
| EngineQuorum.QuorumOffsetIsExact | xraft-core/src/node.rs:1764-1786 | An index is at most the sorted pick exactly when a quorum of distinct voters is recorded to hold it. |
| EngineQuorum.CommitRule | xraft-core/src/node.rs:1757-1804 | The rule picks the greatest index past the commit index, not before the no-op, that a quorum holds, and picks none exactly when there is none. |
| EngineQuorum.CommitIdempotent | xraft-core/src/node.rs:1788-1790 | Running the rule again at once changes nothing. |
| EngineQuorum.ObserverAcksIgnored | xraft-core/src/node.rs:1765-1778 | Acknowledgements of a replica that is no voter never change the outcome of the rule. |
| EngineCommit.ObserverAcksNeverCommit | xraft-core/src/node.rs:2324-2358 | In every run, the acknowledgement of a replica that is no voter leaves the commit index alone (with a single voter: if nothing waits to be committed). |
| EngineCommit.AlwaysOrdered | xraft-core/src/node.rs:2645-2649 | In every run whose mirrored tail never goes below the commit index: applied <= committed <= last log index. |
| EngineCommit.CommitsAtQuorum | xraft-core/src/node.rs:2339-2357 | In every such run, a leader's commit index that has moved is the greatest index a quorum is recorded to hold, within its log and not before its no-op. |
| EngineCommit.NothingPending | xraft-core/src/node.rs:1757-1804 | Between the steps of a run with several voters the commit rule has nothing left to commit. |
| EngineApply.AppliedInOrder | xraft-core/src/node.rs:1822-1830 | In every run, apply ranges and installed snapshots cover the applied indices in order, without gap or repeat. |
| EngineApply.ChainCovers | xraft-core/src/node.rs:1822-1830 | Such a chain contains each index up to the applied one exactly once and no other. |
| EngineApply.CommitNeverFalls | xraft-core/src/node.rs:2030-2037 | Neither the commit index nor the applied index ever falls. |
| EngineApply.SnapshotCoversApplied | xraft-core/src/node.rs:1847-1872 | A snapshot is requested only while none is outstanding and covers exactly what has been applied. |
| EngineApply.OneSnapshotOutstanding | xraft-core/src/node.rs:1847-1850 | Between two requests for a snapshot there is a confirmation. |
| EngineApply.CutsIncrease | xraft-core/src/node.rs:1970-2016 | Prefix truncations strictly increase over a run. |
| EngineApply.CutsStayApplied | xraft-core/src/node.rs:1995-1999 | A truncation whose completion answers a request never passes what has been applied. |
| EngineApply.NothingServedFromCut | xraft-core/src/node.rs:2266-2311 | With non-empty snapshot ids, after a truncation no fetch inside the dropped prefix is ever served. |
| CheckQuorum.LeaderReigns | xraft-core/src/node.rs:709-731 | How one input changes the clocks of a leader that stays leader, and that a due check has passed. |
| CheckQuorum.SilentLeaderStepsDown | xraft-core/src/node.rs:709-731 | With window w, a leader fetched from over 2w - 1 ticks by too few voters for a quorum no longer leads its term at their end. |
| CheckQuorum.CheckDecides | xraft-core/src/node.rs:709-731 | A tick ends a reign if and only if the check is enabled over a voter set, is due, and the voters that fetched since the reign began and less than a window ago are too few for a quorum with the leader. |
| CheckQuorum.AttendedReignStands | xraft-core/src/node.rs:1189-1217 | No tick ends a reign in which, between any tick and the (w - 1)-th after it, a quorum with the leader fetches. |
| CheckQuorum.WindowOfOne | xraft-core/src/node.rs:1202-1214 | With a window of one tick, the first tick ends every reign that needs another voter. |
| WindowScenario.FetchAgesOut | xraft-core/src/node.rs:1211-1214 | A run with a window of two ticks: a quorum fetches within the two ticks of the reign and the second tick ends it. |
| CheckQuorum.LeaseIsReachable | xraft-core/src/node.rs:1244-1276 | An active lease implies that the reachability check would pass. |
| RaftNode.CheckBatch | xraft-core/src/node.rs:2595-2634 | The loop accepts a batch exactly when it starts at the expected index, is contiguous and its terms do not fall. |
| RaftNode.CountFetchers | xraft-core/src/node.rs:1203-1215 | The loop over the peer map counts exactly the set of fresh voters. |
| RaftNode.RaftNode.constructor | xraft-core/src/node.rs:427-546 | A new object is in the initial state; the loop builds the peer map. |
| RaftNode.RaftNode.BroadcastToVoters | xraft-core/src/node.rs:1009-1024 | The loop sends one copy to every voting peer, in walking order. |
| RaftNode.RaftNode.ResetPeerRecords | xraft-core/src/node.rs:1083-1087 | The loop resets every peer record and changes nothing else. |
| RaftNode.RaftNode.CollectOffsets | xraft-core/src/node.rs:1764-1778 | The loop collects the voters' offsets in record order. |
| RaftNode.RaftNode.CheckReachable | xraft-core/src/node.rs:1189-1217 | The counting loop decides the reachability of a quorum of distinct voters. |
| RaftNode.RaftNode.CheckLease | xraft-core/src/node.rs:1244-1276 | The counting loop decides whether the lease is active. |
| RaftNode.RaftNode.TryAdvanceCommitIndex | xraft-core/src/node.rs:1757-1804 | The commit index moves exactly to the rule's candidate, or nothing changes. |
| RaftNode.RaftNode.Feed | xraft-core/src/node.rs:585-607 | One input to the object is one step of the engine; the term does not fall, a vote stays within its term, a lost leadership stays lost, and a changed term or vote is persisted before anything is said on its strength. |
| Membership.MajorityOffsetIsExact | xraft-core/src/node_state.rs:499-518 | The middle of the descending sort is above an offset exactly when a strict majority of the listed voters is past it. |
| Membership.WatermarkIsExact | xraft-core/src/node_state.rs:526-547 | The watermark is the greatest h such that every offset below h is passed by a strict majority of the voters that decide about it. |
| Membership.PassedIsMajority | xraft-core/src/node_state.rs:499-518 | For voters without repetition, being passed is having a majority of them as a set. |
| Membership.WatermarkNeverFalls | xraft-core/src/node_state.rs:526-547 | Growing fetch offsets and a growing log never lower the watermark. |
| Membership.AppendFalls | xraft-core/src/node_state.rs:486-497 | Appending a voters record at the log end lowers the watermark exactly when it was past the log and the new voters are less far. |
| Membership.WatermarkFalls | xraft-core/src/node_state.rs:526-547 | An input for which the watermark falls from 9 to 6. |
| Membership.AppendNeverFalls | xraft-core/src/node_state.rs:526-547 | It never does while no follower is past the leader's log. |
| Membership.CommitKeepsWatermark | xraft-core/src/node_state.rs:559-569 | Committing the record once the watermark is past it leaves the watermark where it is. |
| Membership.MajorityMeetsRecord | xraft-core/src/node_state.rs:571-577 | Every majority of the committed voters contains a voter past the record once the watermark is past it. |
| Membership.CheckQuorumMeetsRecord | xraft-core/src/node_state.rs:593-602 | So does every set of recent fetchers that passes Check-Quorum. |
| Membership.AdoptingKeepsFlags | xraft-core/src/node_state.rs:632-660 | Off the leader, any record leaves the voter flags exactly matching the new voters. |
| Membership.CommittingKeepsFlags | xraft-core/src/node_state.rs:559-569 | On the leader they match exactly when the record changes no tracked replica but the promoted one. |
| Membership.PathsAgree | xraft-core/src/node_state.rs:624-661 | Leader and follower path of a promotion give the same voters and the same flags. |
| Membership.NodeState.NewLeader | xraft-core/src/node_state.rs:423-450 | A new leader tracks every other voter from offset 0, with matching flags. |
| Membership.NodeState.CommitMembershipChange | xraft-core/src/node_state.rs:559-569 | The pending voters take over; flags in order stay so exactly when the record changes no tracked replica but the promoted one. |
| Membership.NodeState.MarkAll | xraft-core/src/node_state.rs:641-656 | The loop sets the flag of exactly the given tracked replicas. |
| Membership.NodeState.ApplyVotersRecord | xraft-core/src/node_state.rs:624-661 | The whole state after a committed voters record, on either path; off the leader, flags in order stay in order for any record. |
| Membership.NodeState.CheckQuorumMet | xraft-core/src/node_state.rs:593-602 | For voters without repetition the counting loop decides a majority of the committed set. |
| MemoryLog.RetainCuts | xraft-core/src/node_state.rs:203-216 | Filtering a contiguous log by offset cuts it in two at one place. |
| MemoryLog.Appending | xraft-core/src/node_state.rs:184-193 | Appending keeps the log contiguous exactly when the entries continue its numbering. |
| MemoryLog.SuffixTruncation | xraft-core/src/node_state.rs:205-211 | Suffix truncation keeps exactly the entries below the offset, and contiguity exactly when something is left or the log starts at 0. |
| MemoryLog.PrefixTruncation | xraft-core/src/node_state.rs:213-218 | Prefix truncation keeps exactly the entries from the offset on, and contiguity exactly when the offset lies within the log. |
| MemoryLog.CompactedLogCutToNothing | xraft-core/src/node_state.rs:362-367 | A concrete compacted log whose end offset falls to 0. |
| MemoryLog.InMemoryLog.constructor | xraft-core/src/node_state.rs:151-157 | A new log is empty and contiguous. |
| MemoryLog.InMemoryLog.Append | xraft-core/src/node_state.rs:184-193 | The loop appends the batch; a contiguous log stays one exactly when the batch continues its numbering. |
| MemoryLog.InMemoryLog.TruncateSuffix | xraft-core/src/node_state.rs:205-211 | What is below the offset stays, and a contiguous log stays one exactly when something is left or it starts at 0. |
| MemoryLog.InMemoryLog.TruncatePrefix | xraft-core/src/node_state.rs:213-218 | What is not below the offset stays, and a contiguous log stays one exactly when the offset lies within it. |
| MemoryLog.InMemoryLog.ReadBounded | xraft-core/src/node_state.rs:313-336 | A bounded read is a prefix of the tail within both limits (bytes unless a single entry) and stops only where one more entry would break one. |
| MemoryLog.InMemoryLog.PullAll | xraft-core/src/node_state.rs:313-336 | Repeated pulls from the next offset terminate and rebuild the whole tail. |
| MemoryLog.InMemoryLog.EpochEndOffset | xraft-core/src/node_state.rs:350-360 | With rising terms the answer splits the log at the epoch if and only if the log does not begin with a newer entry at offset 0. |
| MemoryLog.NewerEntrySkipped | xraft-core/src/node_state.rs:350-360 | A log of one newer entry at offset 0 for which the lookup answers 1 and does not split the log. |
| SnapshotReader.ChunksAreWindow | xraft-core/src/storage.rs:380-427 | The chunks' bytes, in order, are exactly the requested window. |
| SnapshotReader.DoneMeansEnd | xraft-core/src/storage.rs:392-427 | The end marker is on the last chunk alone and exactly when the window reaches the payload end; metadata is on the first chunk alone. |
| SnapshotReader.SplitSizes | xraft-core/src/storage.rs:411-416 | Every chunk but the last is full, and none is empty unless it is the only one. |
| SnapshotReader.AlignedResume | xraft-core/src/storage.rs:314-334 | Resuming at a chunk boundary yields the rest of the full read, up to the first chunk's metadata. |
| SnapshotReader.ReadChunks | xraft-core/src/storage.rs:396-427 | The loop with its rounded-up chunk count produces the specified items. |
| SnapshotReader.ReadFromOffset | xraft-core/src/storage.rs:335-430 | The whole read, including missing snapshots, offsets past the end and empty payloads. |
| SnapshotReader.Transfer | xraft-core/src/storage.rs:314-334 | A transfer in windows of any positive size terminates and rebuilds the payload. |

## Left out

- Log compaction and snapshot installation inside the cluster model: servers keep full logs there; snapshots are treated on one engine, in `EngineApply.dfy`.
- ClusterSafety.LogMatching: proved for runs in which every answer that is not ignored satisfies `Cluster.Admissible`; without it log matching is false, as `Scenarios.LateAnswerBreaksMatching` shows.
- Saturating arithmetic at the 64-bit limit: counters are unbounded.
- The random choice of election timeouts: a step takes an arbitrary timeout, also outside the configured range.
- EngineElections.CandidacyNeedsQuorum: starts from a node that is not in the middle of a pre-vote, as every new node is.
- RaftNode.RaftNode.constructor: configuration validation is not modelled; the order in which the peer map is walked is a parameter.
- Pre-Vote as a protection of the whole cluster (a reachable leader is not disturbed): only the node's own side is proved.
- A leader lease excluding another leader: the code does not aim at it, since vote requests do not consult leases.
- Fields of messages that every sender sets to a constant and no receiver reads, and the sequence number's use in the driver.
- Membership.NodeState.ApplyVotersRecord: endpoints are opaque strings and voters are ids; truncation of a pending record is not modelled.
- Locking, atomics and async wrappers of the in-memory log, its single-entry lookups and its unbounded range reads.
- Transport, client, admin, metrics, configuration files and serialization.
