/**
 The messages, inputs and actions of the consensus engine. Fields that every
 sender sets to a constant and no receiver reads (the zero `leader_epoch` of
 vote messages) are omitted.
 */
module Messages {
  import opened Base

  datatype VoteRequest = VoteRequest(
    clusterId: string, term: nat, candidateId: NodeId, lastLogIndex: nat, lastLogTerm: nat)

  datatype VoteResponse = VoteResponse(
    clusterId: string, term: nat, voteGranted: bool, leaderHint: Option<NodeId>)

  datatype PreVoteRequest = PreVoteRequest(
    clusterId: string, nextTerm: nat, candidateId: NodeId, lastLogIndex: nat, lastLogTerm: nat)

  datatype PreVoteResponse = PreVoteResponse(
    clusterId: string, term: nat, voteGranted: bool, leaderHint: Option<NodeId>)

  datatype FetchRequest = FetchRequest(
    clusterId: string, leaderEpoch: nat, replicaId: NodeId, fetchOffset: nat, lastFetchedEpoch: nat)

  datatype DivergingEpoch = DivergingEpoch(epoch: nat, endOffset: nat)

  datatype SnapshotRedirect = SnapshotRedirect(
    snapshotId: string, lastIncludedIndex: nat, lastIncludedTerm: nat)

  datatype FetchResponse = FetchResponse(
    clusterId: string, leaderEpoch: nat, leaderId: NodeId, highWatermark: nat, entries: seq<Entry>,
    divergingEpoch: Option<DivergingEpoch>, snapshotRedirect: Option<SnapshotRedirect>, isLeader: bool)

  datatype FetchSnapshotRequest = FetchSnapshotRequest(
    clusterId: string, leaderEpoch: nat, replicaId: NodeId, snapshotId: string, offset: nat, maxBytes: nat)

  datatype SnapshotMeta = SnapshotMeta(lastIncludedIndex: nat, lastIncludedTerm: nat, id: string)

  datatype LogTruncation = SuffixFromInclusive(fromIndex: nat) | PrefixThroughInclusive(throughIndex: nat)

  datatype Message =
    | VoteReq(voteRequest: VoteRequest)
    | VoteResp(voteResponse: VoteResponse)
    | PreVoteReq(preVoteRequest: PreVoteRequest)
    | PreVoteResp(preVoteResponse: PreVoteResponse)
    | FetchReq(fetchRequest: FetchRequest)
    | FetchSnapshotReq(snapshotRequest: FetchSnapshotRequest)

  /** Events the driver feeds into the engine. */
  datatype Input =
    | Tick
    | VoteRequested(voteReq: VoteRequest)
    | VoteAnswered(voter: NodeId, voteResp: VoteResponse)
    | PreVoteRequested(preVoteReq: PreVoteRequest)
    | PreVoteAnswered(voter: NodeId, preVoteResp: PreVoteResponse)
    | FetchRequested(fetchReq: FetchRequest)
    | FetchAnswered(fetchResp: FetchResponse)
    | ClientPropose(command: seq<bv8>)
    | FetchRequestAcked(replica: NodeId, confirmedOffset: nat)
    | SnapshotComplete(metadata: SnapshotMeta)
    | SnapshotInstalled(metadata: SnapshotMeta)
    | FetchSnapshotReceived(metadata: SnapshotMeta, data: seq<bv8>)

  /** Side effects the engine asks the driver to perform, in order. */
  datatype Action =
    | PersistHardState
    | AppendEntries(entries: seq<Entry>)
    | SendMessage(to: NodeId, message: Message)
    | ApplyToStateMachine(fromIndex: nat, toIndex: nat)
    | TakeSnapshot(throughIndex: nat)
    | InstallSnapshot(metadata: SnapshotMeta, data: seq<bv8>)
    | AnnounceLeader
    | AnnounceStepDown
    | ServeFetch(to: NodeId, clusterId: string, leaderEpoch: nat, leaderId: NodeId, highWatermark: nat,
                 fetchOffset: nat, lastFetchedEpoch: nat)
    | RedirectToSnapshot(to: NodeId, clusterId: string, leaderEpoch: nat, leaderId: NodeId, highWatermark: nat,
                         snapshot: SnapshotMeta)
    | TruncateLog(truncation: LogTruncation)
}
