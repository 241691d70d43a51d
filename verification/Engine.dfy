/**
 The consensus engine as a pure step function over its whole state. The
 imperative engine in `RaftNode.dfy` is proved against these functions.

 Counters are unbounded: terms, indices and ticks are assumed to stay below the
 64-bit limit at which the source saturates. A step draws one election timeout
 `draw`; where the source draws several in one step only the last survives.
 */
module Engine {
  import opened Base
  import opened Messages
  import opened Quorums
  import opened OrderStatistics

  datatype Role = Follower | PreCandidate | Candidate | Leader | Observer

  datatype PeerState = PeerState(
    lastFetchOffset: nat, lastFetchTime: nat, lastCaughtUpTime: nat, lastFetchSeq: nat, isVoter: bool)

  datatype ElectionTimer = ElectionTimer(elapsed: nat, timeout: nat)

  /** Static configuration. `peerOrder` is the iteration order of the peer map, whose keys never change. */
  datatype Config = Config(
    id: NodeId, clusterId: string, voters: Option<seq<NodeId>>, observers: seq<NodeId>, peerOrder: seq<NodeId>,
    fetchIntervalTicks: nat, checkQuorumTicks: nat, enableCheckQuorum: bool, enableLeaderLease: bool,
    maxLogEntriesBeforeCompaction: nat)

  datatype Node = Node(
    cfg: Config,
    role: Role,
    term: nat,
    votedFor: Option<NodeId>,
    commitIndex: nat,
    lastApplied: nat,
    timer: ElectionTimer,
    votesReceived: set<NodeId>,
    preVotesReceived: set<NodeId>,
    peers: map<NodeId, PeerState>,
    leaderId: Option<NodeId>,
    lastLeaderContact: Option<nat>,
    logicalTick: nat,
    lastLogIndex: nat,
    lastLogTerm: nat,
    leaderNoOpIndex: Option<nat>,
    lastFetchTick: Option<nat>,
    lastSnapshotMeta: Option<SnapshotMeta>,
    snapshotInFlight: bool,
    leaderStartedTick: Option<nat>,
    checkQuorumElapsed: nat,
    fetchSeq: nat)

  /** Result of a step: the new state and the actions, in order. */
  datatype Out = Out(node: Node, actions: seq<Action>)

  // ------------------------------------------------------------------
  // Membership and quorums
  // ------------------------------------------------------------------

  /** Unique voter ids; empty when no structured voter set is configured. */
  function VoterIds(cfg: Config): set<NodeId> {
    if cfg.voters.Some? then SetOf(cfg.voters.value) else {}
  }

  predicate IsKnownVoter(cfg: Config, id: NodeId) {
    id in VoterIds(cfg)
  }

  /** `votes` holds a quorum of unique voters; never without a voter set. */
  predicate HasQuorum(cfg: Config, votes: set<NodeId>) {
    cfg.voters.Some? && |votes * VoterIds(cfg)| >= QuorumSize(VoterIds(cfg))
  }

  /** Voters among the peers whose last fetch is inside the check-quorum window. */
  function FreshPeers(n: Node): set<NodeId> {
    set p | p in n.peers && p in VoterIds(n.cfg) && n.logicalTick - n.peers[p].lastFetchTime < n.cfg.checkQuorumTicks
  }

  function SelfCount(n: Node): nat {
    if n.cfg.id in VoterIds(n.cfg) then 1 else 0
  }

  predicate CheckQuorumReachable(n: Node) {
    n.cfg.voters.Some? ==> SelfCount(n) + |FreshPeers(n)| >= QuorumSize(VoterIds(n.cfg))
  }

  /** Fresh peers that have also fetched since the leadership began. */
  function LeasePeers(n: Node, started: nat): set<NodeId> {
    set p | p in FreshPeers(n) && n.peers[p].lastFetchTime > started
  }

  predicate HasActiveLease(n: Node) {
    && n.cfg.enableLeaderLease && n.role == Leader && n.cfg.voters.Some? && n.leaderStartedTick.Some?
    && SelfCount(n) + |LeasePeers(n, n.leaderStartedTick.value)| >= QuorumSize(VoterIds(n.cfg))
  }

  /** The candidate's log is at least as up to date as this node's. */
  predicate CandidateLogIsUpToDate(n: Node, lastLogIndex: nat, lastLogTerm: nat) {
    lastLogTerm > n.lastLogTerm || (lastLogTerm == n.lastLogTerm && lastLogIndex >= n.lastLogIndex)
  }

  predicate LeaderRecentlyActive(n: Node) {
    n.role == Leader
    || (n.lastLeaderContact.Some? && n.logicalTick - n.lastLeaderContact.value < n.timer.timeout)
  }

  /** One copy of `message` to every voting peer, in the order the peer map is walked. */
  function Broadcast(order: seq<NodeId>, peers: map<NodeId, PeerState>, message: Message): seq<Action> {
    if order == [] then []
    else (if order[0] in peers && peers[order[0]].isVoter then [SendMessage(order[0], message)] else [])
         + Broadcast(order[1..], peers, message)
  }

  lemma {:induction false} BroadcastSends(order: seq<NodeId>, peers: map<NodeId, PeerState>, message: Message)
    ensures forall a :: a in Broadcast(order, peers, message) ==> a.SendMessage? && a.message == message
  {
    if order != [] {
      BroadcastSends(order[1..], peers, message);
    }
  }

  // ------------------------------------------------------------------
  // Commit, apply, snapshot trigger
  // ------------------------------------------------------------------

  /** Replicated offsets of the voter records, in record order. */
  function Offsets(n: Node, voters: seq<NodeId>): seq<nat> {
    if voters == [] then []
    else
      var v := voters[0];
      (if v == n.cfg.id then [n.lastLogIndex]
       else if v in n.peers then (if n.peers[v].isVoter then [n.peers[v].lastFetchOffset] else [])
       else [0])
      + Offsets(n, voters[1..])
  }

  /** The commit index the leader may move to, if any. */
  function CommitCandidate(n: Node): Option<nat> {
    if n.role != Leader || n.cfg.voters.None? || n.leaderNoOpIndex.None? then None
    else
      var offsets := Offsets(n, n.cfg.voters.value);
      var q := QuorumSize(VoterIds(n.cfg));
      if |offsets| < q then None
      else
        var candidate := Descending(offsets)[q - 1];
        if candidate <= n.commitIndex || candidate < n.leaderNoOpIndex.value then None else Some(candidate)
  }

  function MaybeApply(n: Node): Out {
    if n.commitIndex <= n.lastApplied then Out(n, [])
    else Out(n.(lastApplied := n.commitIndex), [ApplyToStateMachine(n.lastApplied + 1, n.commitIndex)])
  }

  function SnapshotIndex(n: Node): nat {
    if n.lastSnapshotMeta.Some? then n.lastSnapshotMeta.value.lastIncludedIndex else 0
  }

  function MaybeTakeSnapshot(n: Node): Out {
    if n.snapshotInFlight || n.commitIndex - SnapshotIndex(n) <= n.cfg.maxLogEntriesBeforeCompaction then Out(n, [])
    else Out(n.(snapshotInFlight := true), [TakeSnapshot(n.commitIndex)])
  }

  function DrainApplyPipeline(n: Node): Out {
    var a := MaybeApply(n);
    var b := MaybeTakeSnapshot(a.node);
    Out(b.node, a.actions + b.actions)
  }

  /** Advance the commit index if possible and, if so, drain the apply pipeline. */
  function AdvanceAndDrain(n: Node): Out {
    var c := CommitCandidate(n);
    if c.None? then Out(n, []) else DrainApplyPipeline(n.(commitIndex := c.value))
  }

  // ------------------------------------------------------------------
  // Role transitions
  // ------------------------------------------------------------------

  predicate Campaigning(role: Role) {
    role == Leader || role == Candidate || role == PreCandidate
  }

  function BecomeFollower(n: Node, term: nat, leader: Option<NodeId>, draw: nat): Out {
    var raised := term > n.term;
    Out(n.(role := if n.role == Observer then Observer else Follower,
           term := if raised then term else n.term,
           votedFor := if raised then None else n.votedFor,
           leaderId := leader,
           lastLeaderContact := if leader.Some? then Some(n.logicalTick) else None,
           votesReceived := {}, preVotesReceived := {},
           leaderNoOpIndex := None, lastFetchTick := None, leaderStartedTick := None, checkQuorumElapsed := 0,
           timer := ElectionTimer(0, draw)),
        (if raised then [PersistHardState] else []) + (if Campaigning(n.role) then [AnnounceStepDown] else []))
  }

  /** Peer records at the start of a reign: no known progress, contact baseline now. */
  function FreshPeerRecords(n: Node): map<NodeId, PeerState> {
    map p | p in n.peers ::
      n.peers[p].(lastFetchOffset := 0, lastFetchTime := n.logicalTick, lastCaughtUpTime := n.logicalTick)
  }

  function NoOpEntry(n: Node): Entry {
    Entry(n.lastLogIndex + 1, n.term, NoOp)
  }

  /** The leader state before any commit is attempted. */
  function EnterLeader(n: Node, draw: nat): Node {
    n.(role := Leader, leaderId := Some(n.cfg.id), lastLeaderContact := Some(n.logicalTick),
       votesReceived := {}, preVotesReceived := {}, lastFetchTick := None,
       leaderStartedTick := Some(n.logicalTick), checkQuorumElapsed := 0, timer := ElectionTimer(0, draw),
       peers := FreshPeerRecords(n),
       lastLogIndex := n.lastLogIndex + 1, lastLogTerm := n.term, leaderNoOpIndex := Some(n.lastLogIndex + 1))
  }

  function BecomeLeader(n: Node, draw: nat): Out {
    var o := AdvanceAndDrain(EnterLeader(n, draw));
    Out(o.node, [AnnounceLeader, AppendEntries([NoOpEntry(n)])] + o.actions)
  }

  function EnterCandidate(n: Node, draw: nat): Node {
    n.(role := Candidate, term := n.term + 1, votedFor := Some(n.cfg.id), leaderId := None, lastLeaderContact := None,
       preVotesReceived := {}, votesReceived := {n.cfg.id},
       leaderNoOpIndex := None, lastFetchTick := None, leaderStartedTick := None, checkQuorumElapsed := 0,
       timer := ElectionTimer(0, draw))
  }

  function BecomeCandidate(n: Node, draw: nat): Out {
    var c := EnterCandidate(n, draw);
    var request := VoteReq(VoteRequest(c.cfg.clusterId, c.term, c.cfg.id, c.lastLogIndex, c.lastLogTerm));
    var sent := [PersistHardState] + Broadcast(c.cfg.peerOrder, c.peers, request);
    if HasQuorum(c.cfg, c.votesReceived) then
      var o := BecomeLeader(c, draw);
      Out(o.node, sent + o.actions)
    else Out(c, sent)
  }

  function EnterPreCandidate(n: Node, draw: nat): Node {
    n.(role := PreCandidate, leaderId := None, lastLeaderContact := None,
       votesReceived := {}, preVotesReceived := {n.cfg.id},
       leaderNoOpIndex := None, lastFetchTick := None, leaderStartedTick := None, checkQuorumElapsed := 0,
       timer := ElectionTimer(0, draw))
  }

  function BecomePreCandidate(n: Node, draw: nat): Out {
    var p := EnterPreCandidate(n, draw);
    var request := PreVoteReq(PreVoteRequest(p.cfg.clusterId, p.term + 1, p.cfg.id, p.lastLogIndex, p.lastLogTerm));
    var sent := Broadcast(p.cfg.peerOrder, p.peers, request);
    if HasQuorum(p.cfg, p.preVotesReceived) then
      var o := BecomeCandidate(p, draw);
      Out(o.node, sent + o.actions)
    else Out(p, sent)
  }

  // ------------------------------------------------------------------
  // Tick
  // ------------------------------------------------------------------

  function NextFetch(n: Node): FetchRequest {
    FetchRequest(n.cfg.clusterId, n.term, n.cfg.id, n.lastLogIndex + 1, n.lastLogTerm)
  }

  predicate FetchDue(n: Node) {
    n.lastFetchTick.None? || n.logicalTick - n.lastFetchTick.value >= n.cfg.fetchIntervalTicks
  }

  /** Followers and observers fetch from the known leader, or from every voter while none is known. */
  function ScheduleFetch(n: Node): Out {
    if !((n.role == Follower || n.role == Observer) && FetchDue(n)) then Out(n, [])
    else if n.leaderId.Some? then
      Out(n.(lastFetchTick := Some(n.logicalTick)), [SendMessage(n.leaderId.value, FetchReq(NextFetch(n)))])
    else
      var sent := Broadcast(n.cfg.peerOrder, n.peers, FetchReq(NextFetch(n)));
      Out(if sent == [] then n else n.(lastFetchTick := Some(n.logicalTick)), sent)
  }

  /** The check counter after one more leader tick. */
  function CheckQuorum(n: Node): Node {
    if n.checkQuorumElapsed + 1 >= n.cfg.checkQuorumTicks then n.(checkQuorumElapsed := 0)
    else n.(checkQuorumElapsed := n.checkQuorumElapsed + 1)
  }

  predicate CheckQuorumFails(n: Node) {
    && n.role == Leader && n.cfg.enableCheckQuorum
    && n.checkQuorumElapsed + 1 >= n.cfg.checkQuorumTicks
    && !CheckQuorumReachable(n.(checkQuorumElapsed := 0))
  }

  function AdvanceClock(n: Node): Node {
    n.(logicalTick := n.logicalTick + 1, timer := n.timer.(elapsed := n.timer.elapsed + 1))
  }

  /** The leader's reachability check and everyone else's election timeout. */
  function TickRole(n: Node, draw: nat): Out {
    if CheckQuorumFails(n) then BecomeFollower(CheckQuorum(n), n.term, None, draw)
    else
      var m := if n.role == Leader && n.cfg.enableCheckQuorum then CheckQuorum(n) else n;
      if m.timer.elapsed >= m.timer.timeout && m.role != Leader && m.role != Observer
      then BecomePreCandidate(m, draw) else Out(m, [])
  }

  function HandleTick(n: Node, draw: nat): Out {
    var f := ScheduleFetch(AdvanceClock(n));
    var o := TickRole(f.node, draw);
    Out(o.node, f.actions + o.actions)
  }

  // ------------------------------------------------------------------
  // Elections
  // ------------------------------------------------------------------

  /**
    The inline step-down of `handle_vote_request`: unlike `BecomeFollower` it keeps the no-op marker
    and fetch cursor.
   */
  function AdoptVoteTerm(n: Node, term: nat, draw: nat): Node {
    n.(role := Follower, term := term, votedFor := None, leaderId := None, lastLeaderContact := None,
       votesReceived := {}, preVotesReceived := {}, leaderStartedTick := None, checkQuorumElapsed := 0,
       timer := ElectionTimer(0, draw))
  }

  predicate GrantsVote(n: Node, req: VoteRequest) {
    && CandidateLogIsUpToDate(n, req.lastLogIndex, req.lastLogTerm)
    && (n.votedFor == None || n.votedFor == Some(req.candidateId))
  }

  function VoteReply(n: Node, granted: bool): Message {
    VoteResp(VoteResponse(n.cfg.clusterId, n.term, granted, n.leaderId))
  }

  function HandleVoteRequest(n: Node, req: VoteRequest, draw: nat): Out {
    if req.clusterId != n.cfg.clusterId || n.role == Observer || !IsKnownVoter(n.cfg, req.candidateId) then Out(n, [])
    else if req.term < n.term then Out(n, [SendMessage(req.candidateId, VoteReply(n, false))])
    else
      var raised := req.term > n.term;
      var m := if raised then AdoptVoteTerm(n, req.term, draw) else n;
      var granted := GrantsVote(m, req);
      var voted := granted && m.votedFor != Some(req.candidateId);
      var m' := if granted then m.(votedFor := Some(req.candidateId), timer := ElectionTimer(0, draw)) else m;
      Out(m', (if raised || voted then [PersistHardState] else [])
              + (if raised && Campaigning(n.role) then [AnnounceStepDown] else [])
              + [SendMessage(req.candidateId, VoteReply(m', granted))])
  }

  function HandleVoteResponse(n: Node, voter: NodeId, resp: VoteResponse, draw: nat): Out {
    if resp.clusterId != n.cfg.clusterId || !IsKnownVoter(n.cfg, voter) then Out(n, [])
    else if resp.term > n.term then BecomeFollower(n, resp.term, None, draw)
    else if n.role != Candidate || resp.term != n.term || !resp.voteGranted then Out(n, [])
    else
      var m := n.(votesReceived := n.votesReceived + {voter});
      if HasQuorum(m.cfg, m.votesReceived) then BecomeLeader(m, draw) else Out(m, [])
  }

  predicate GrantsPreVote(n: Node, req: PreVoteRequest) {
    && req.nextTerm > n.term
    && CandidateLogIsUpToDate(n, req.lastLogIndex, req.lastLogTerm)
    && !LeaderRecentlyActive(n)
  }

  function HandlePreVoteRequest(n: Node, req: PreVoteRequest): Out {
    if req.clusterId != n.cfg.clusterId || n.role == Observer || !IsKnownVoter(n.cfg, req.candidateId) then Out(n, [])
    else Out(n, [SendMessage(req.candidateId,
                             PreVoteResp(PreVoteResponse(n.cfg.clusterId, n.term, GrantsPreVote(n, req), n.leaderId)))])
  }

  function HandlePreVoteResponse(n: Node, voter: NodeId, resp: PreVoteResponse, draw: nat): Out {
    if resp.clusterId != n.cfg.clusterId || !IsKnownVoter(n.cfg, voter) then Out(n, [])
    else if resp.term > n.term then BecomeFollower(n, resp.term, None, draw)
    else if n.role != PreCandidate || !resp.voteGranted then Out(n, [])
    else
      var m := n.(preVotesReceived := n.preVotesReceived + {voter});
      if HasQuorum(m.cfg, m.preVotesReceived) then BecomeCandidate(m, draw) else Out(m, [])
  }

  // ------------------------------------------------------------------
  // Replication
  // ------------------------------------------------------------------

  /** Liveness bookkeeping for an accepted fetch. */
  function StampFetch(n: Node, replica: NodeId): Node {
    var seq' := n.fetchSeq + 1;
    n.(fetchSeq := seq', lastLeaderContact := Some(n.logicalTick),
       peers := if replica in n.peers
                then n.peers[replica := n.peers[replica].(lastFetchTime := n.logicalTick, lastFetchSeq := seq')]
                else n.peers)
  }

  predicate IsKnownReplica(n: Node, id: NodeId) {
    IsKnownVoter(n.cfg, id) || id in n.peers
  }

  function HandleFetchRequest(n: Node, req: FetchRequest, draw: nat): Out {
    if req.clusterId != n.cfg.clusterId || req.replicaId == n.cfg.id || !IsKnownReplica(n, req.replicaId)
    then Out(n, [])
    else if req.leaderEpoch > n.term then BecomeFollower(n, req.leaderEpoch, None, draw)
    else if n.role != Leader || req.fetchOffset == 0 then Out(n, [])
    else
      var m := StampFetch(n, req.replicaId);
      if m.lastSnapshotMeta.Some? && req.fetchOffset <= m.lastSnapshotMeta.value.lastIncludedIndex
         && m.lastSnapshotMeta.value.id != "" then
        Out(m, [RedirectToSnapshot(req.replicaId, m.cfg.clusterId, m.term, m.cfg.id, m.commitIndex,
                                   m.lastSnapshotMeta.value)])
      else
        Out(m, [ServeFetch(req.replicaId, m.cfg.clusterId, m.term, m.cfg.id, m.commitIndex,
                           req.fetchOffset, req.lastFetchedEpoch)])
  }

  function Max(a: nat, b: nat): nat {
    if a > b then a else b
  }

  function Min(a: nat, b: nat): nat {
    if a < b then a else b
  }

  /** Raise the replica's recorded progress, clamped to the leader's tail. */
  function RecordProgress(n: Node, replica: NodeId, confirmed: nat): Node {
    if replica !in n.peers then n
    else
      var p := n.peers[replica];
      var offset := Max(p.lastFetchOffset, Min(confirmed, n.lastLogIndex));
      n.(peers := n.peers[replica := p.(lastFetchOffset := offset,
                                        lastCaughtUpTime := if offset == n.lastLogIndex then n.logicalTick
                                                            else p.lastCaughtUpTime)])
  }

  function HandleFetchRequestAcked(n: Node, replica: NodeId, confirmed: nat): Out {
    if n.role != Leader || !IsKnownReplica(n, replica) then Out(n, [])
    else AdvanceAndDrain(RecordProgress(n, replica, confirmed))
  }

  /** Entries are numbered consecutively from `first` and their terms do not fall. */
  predicate WellFormedBatch(entries: seq<Entry>, first: nat) {
    && |entries| > 0 && entries[0].index == first
    && forall i :: 0 <= i < |entries| - 1 ==>
         entries[i + 1].index == entries[i].index + 1 && entries[i + 1].term >= entries[i].term
  }

  function Refetch(n: Node, d: DivergingEpoch): FetchRequest {
    FetchRequest(n.cfg.clusterId, n.term, n.cfg.id, d.endOffset + 1, d.epoch)
  }

  /** Adopt the commit index announced by the leader, clamped to the own tail. */
  function LearnCommit(n: Node, highWatermark: nat): Out {
    var c := Min(highWatermark, n.lastLogIndex);
    if c > n.commitIndex then DrainApplyPipeline(n.(commitIndex := c)) else Out(n, [])
  }

  /** What a follower does with an authoritative answer of its own term, after leader contact is recorded. */
  function ConsumeAnswer(n: Node, resp: FetchResponse): Out {
    if resp.snapshotRedirect.Some? then
      Out(n.(lastFetchTick := Some(n.logicalTick)),
          [SendMessage(resp.leaderId, FetchSnapshotReq(FetchSnapshotRequest(
             n.cfg.clusterId, n.term, n.cfg.id, resp.snapshotRedirect.value.snapshotId, 0, 0)))])
    else if resp.divergingEpoch.Some? then
      var d := resp.divergingEpoch.value;
      Out(n.(lastFetchTick := Some(n.logicalTick)),
          [TruncateLog(SuffixFromInclusive(d.endOffset + 1)),
           SendMessage(resp.leaderId, FetchReq(Refetch(n, d)))])
    else if resp.entries == [] then LearnCommit(n, resp.highWatermark)
    else if !WellFormedBatch(resp.entries, n.lastLogIndex + 1) then Out(n, [])
    else
      var last := resp.entries[|resp.entries| - 1];
      var o := LearnCommit(n.(lastLogIndex := last.index, lastLogTerm := last.term), resp.highWatermark);
      Out(o.node, [AppendEntries(resp.entries)] + o.actions)
  }

  /** Term reconciliation and leader contact for an answer that is not stale. */
  function RecogniseLeader(n: Node, resp: FetchResponse, draw: nat): Out {
    var a := if resp.leaderEpoch > n.term then BecomeFollower(n, resp.leaderEpoch, Some(resp.leaderId), draw)
             else Out(n, []);
    var b := if a.node.role == Candidate || a.node.role == PreCandidate
             then BecomeFollower(a.node, a.node.term, Some(resp.leaderId), draw)
             else Out(a.node.(leaderId := Some(resp.leaderId)), []);
    Out(b.node.(lastLeaderContact := Some(b.node.logicalTick), timer := ElectionTimer(0, draw)), a.actions + b.actions)
  }

  /** The answer is dropped: foreign, not authoritative, stale, or contradicting the known leader. */
  predicate DropsAnswer(n: Node, resp: FetchResponse) {
    || resp.clusterId != n.cfg.clusterId || !resp.isLeader || !IsKnownVoter(n.cfg, resp.leaderId)
    || resp.leaderEpoch < n.term
    || (resp.leaderEpoch == n.term
        && (n.role == Leader || (n.leaderId.Some? && n.leaderId.value != resp.leaderId)))
  }

  function HandleFetchResponse(n: Node, resp: FetchResponse, draw: nat): Out {
    if DropsAnswer(n, resp) then Out(n, [])
    else
      var a := RecogniseLeader(n, resp, draw);
      var b := ConsumeAnswer(a.node, resp);
      Out(b.node, a.actions + b.actions)
  }

  function HandleClientPropose(n: Node, command: seq<bv8>): Out {
    if n.role != Leader then Out(n, [])
    else
      var e := Entry(n.lastLogIndex + 1, n.term, Command(command));
      var o := AdvanceAndDrain(n.(lastLogIndex := n.lastLogIndex + 1, lastLogTerm := n.term));
      Out(o.node, [AppendEntries([e])] + o.actions)
  }

  // ------------------------------------------------------------------
  // Snapshots
  // ------------------------------------------------------------------

  predicate IsSnapshotMetaNewer(current: Option<SnapshotMeta>, candidate: SnapshotMeta) {
    current.None? || candidate.lastIncludedIndex > current.value.lastIncludedIndex
  }

  function HandleSnapshotComplete(n: Node, metadata: SnapshotMeta): Out {
    var m := n.(snapshotInFlight := false);
    if !IsSnapshotMetaNewer(n.lastSnapshotMeta, metadata) then Out(m, [])
    else Out(m.(lastSnapshotMeta := Some(metadata)), [TruncateLog(PrefixThroughInclusive(metadata.lastIncludedIndex))])
  }

  function HandleSnapshotInstalled(n: Node, metadata: SnapshotMeta): Out {
    var through := metadata.lastIncludedIndex;
    Out(n.(lastApplied := Max(through, n.lastApplied),
           commitIndex := Max(through, n.commitIndex),
           lastLogIndex := Max(through, n.lastLogIndex),
           lastLogTerm := if through > n.lastLogIndex then metadata.lastIncludedTerm else n.lastLogTerm,
           lastSnapshotMeta := if IsSnapshotMetaNewer(n.lastSnapshotMeta, metadata) then Some(metadata)
                               else n.lastSnapshotMeta,
           snapshotInFlight := false),
        [])
  }

  function HandleFetchSnapshotReceived(n: Node, metadata: SnapshotMeta, data: seq<bv8>): Out {
    if metadata.lastIncludedIndex <= n.lastApplied then Out(n, [])
    else Out(n, [InstallSnapshot(metadata, data)])
  }

  // ------------------------------------------------------------------
  // Step and construction
  // ------------------------------------------------------------------

  function Step(n: Node, input: Input, draw: nat): Out {
    match input
    case Tick => HandleTick(n, draw)
    case VoteRequested(req) => HandleVoteRequest(n, req, draw)
    case VoteAnswered(voter, resp) => HandleVoteResponse(n, voter, resp, draw)
    case PreVoteRequested(req) => HandlePreVoteRequest(n, req)
    case PreVoteAnswered(voter, resp) => HandlePreVoteResponse(n, voter, resp, draw)
    case FetchRequested(req) => HandleFetchRequest(n, req, draw)
    case FetchAnswered(resp) => HandleFetchResponse(n, resp, draw)
    case ClientPropose(command) => HandleClientPropose(n, command)
    case FetchRequestAcked(replica, offset) => HandleFetchRequestAcked(n, replica, offset)
    case SnapshotComplete(metadata) => HandleSnapshotComplete(n, metadata)
    case SnapshotInstalled(metadata) => HandleSnapshotInstalled(n, metadata)
    case FetchSnapshotReceived(metadata, data) => HandleFetchSnapshotReceived(n, metadata, data)
  }

  /** The driver mirrors the durable log's tail into the engine. */
  function SetLastLog(n: Node, index: nat, term: nat): Node {
    n.(lastLogIndex := index, lastLogTerm := term)
  }

  /** Voters other than the node itself, and observers that are not voters. */
  function InitialPeers(cfg: Config): map<NodeId, PeerState> {
    map p | p in VoterIds(cfg) + SetOf(cfg.observers) && p != cfg.id :: PeerState(0, 0, 0, 0, p in VoterIds(cfg))
  }

  function NewNode(cfg: Config, draw: nat): Node {
    Node(cfg, if cfg.id in cfg.observers then Observer else Follower, 0, None, 0, 0, ElectionTimer(0, draw), {}, {},
         InitialPeers(cfg), None, None, 0, 0, 0, None, None, None, false, None, 0, 0)
  }
}
