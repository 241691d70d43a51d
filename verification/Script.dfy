/**
 Concrete behaviour of a small cluster, voters 1, 2, 3 and observer 4: what each
 exchange of messages does to the servers that take part. `Scenarios.dfy` strings
 these exchanges together into whole runs.
 */
module Script {
  import opened Base
  import opened Messages
  import opened Quorums
  import opened OrderStatistics
  import opened Engine
  import opened EngineQuorum
  import opened EngineBallots
  import opened Driver
  import opened Cluster

  // ------------------------------------------------------------------
  // The cluster and its runs
  // ------------------------------------------------------------------

  function Order(id: NodeId): seq<NodeId> {
    if id == 1 then [2, 3, 4] else if id == 2 then [1, 3, 4] else if id == 3 then [1, 2, 4] else [1, 2, 3]
  }

  function Setup(id: NodeId): Config {
    Config(id, "", Some([1, 2, 3]), [4], Order(id), 1, 1, false, false, 100)
  }

  predicate IsVoter(id: NodeId) {
    id == 1 || id == 2 || id == 3
  }

  lemma Voters(id: NodeId)
    ensures VoterIds(Setup(id)) == {1, 2, 3} && Distinct([1, 2, 3])
  {
  }

  /** The number of entries the drivers put into an answer. */
  const BATCH: nat := 2

  /** The pre-votes handed to an engine were sent to it, and the drivers answer with their own batch and divergence. */
  ghost predicate Genuine(c: Cluster, e: Event) {
    && Possible(c, e)
    && (e.Noise? ==>
          || (e.input.PreVoteRequested? && exists src :: Sent(src, e.id, PreVoteReq(e.input.preVoteReq)) in c.net)
          || (e.input.PreVoteAnswered? && Sent(e.input.voter, e.id, PreVoteResp(e.input.preVoteResp)) in c.net))
    && (e.DeliverFetch? ==> e.batch == BATCH && e.anchor == None)
  }

  ghost predicate GenuineRun(states: seq<Cluster>, events: seq<Event>) {
    AnyRun(states, events) && forall i :: 0 <= i < |events| ==> Genuine(states[i], events[i])
  }

  /** A genuine run leads from `c` to `c'`. */
  ghost predicate Reaches(c: Cluster, c': Cluster) {
    exists states, events :: GenuineRun(states, events) && states[0] == c && states[|events|] == c'
  }

  lemma ReachesStep(c: Cluster, e: Event)
    requires Genuine(c, e)
    ensures Reaches(c, Happen(c, e))
  {
    var states, events := [c, Happen(c, e)], [e];
    assert GenuineRun(states, events);
  }

  lemma ReachesThen(c: Cluster, c': Cluster, c'': Cluster)
    requires Reaches(c, c') && Reaches(c', c'')
    ensures Reaches(c, c'')
  {
    hide Genuine, Happen, Possible;
    var s1, e1 :| GenuineRun(s1, e1) && s1[0] == c && s1[|e1|] == c';
    var s2, e2 :| GenuineRun(s2, e2) && s2[0] == c' && s2[|e2|] == c'';
    var states, events := s1[..|e1|] + s2, e1 + e2;
    forall i | 0 <= i < |events|
      ensures Genuine(states[i], events[i]) && Possible(states[i], events[i])
      ensures states[i + 1] == Happen(states[i], events[i])
    {
      if i < |e1| {
        assert states[i] == s1[i] && events[i] == e1[i];
        assert states[i + 1] == s1[i + 1];
      } else {
        assert states[i] == s2[i - |e1|] && events[i] == e2[i - |e1|];
        assert states[i + 1] == s2[i - |e1| + 1];
      }
    }
    assert GenuineRun(states, events);
  }

  // ------------------------------------------------------------------
  // What matters of a server
  // ------------------------------------------------------------------

  datatype Face = Face(
    role: Role, term: nat, votedFor: Option<NodeId>, leaderId: Option<NodeId>, contacted: bool, log: seq<Entry>,
    noOp: Option<nat>, offsets: map<NodeId, nat>, commit: nat, applied: seq<Entry>, timer: ElectionTimer)

  function OffsetMap(peers: map<NodeId, PeerState>): map<NodeId, nat> {
    map p | p in peers :: peers[p].lastFetchOffset
  }

  function FaceOf(sv: Server): Face {
    var n := sv.node;
    Face(n.role, n.term, n.votedFor, n.leaderId, n.lastLeaderContact.Some?, sv.log, n.leaderNoOpIndex,
         OffsetMap(n.peers), n.commitIndex, sv.applied, n.timer)
  }

  /** The engine mirrors the log, applies what it commits, and can fetch at its next tick. */
  ghost predicate Tidy(sv: Server, id: NodeId) {
    var n := sv.node;
    && n.cfg == Setup(id) && 1 <= id <= 4 && n.peers.Keys == {1, 2, 3, 4} - {id}
    && (forall p :: p in n.peers ==> (n.peers[p].isVoter <==> IsVoter(p)))
    && n.lastLogIndex == |sv.log| && n.lastLogTerm == LastTerm(sv.log) && n.lastSnapshotMeta == None
    && n.lastApplied == n.commitIndex
    && (n.lastFetchTick.Some? ==> n.lastFetchTick.value <= n.logicalTick)
    && (n.role == Observer <==> id == 4)
  }

  lemma TidyBasics(sv: Server, id: NodeId)
    requires Tidy(sv, id)
    ensures sv.node.cfg == Setup(id) && sv.node.lastApplied == sv.node.commitIndex
    ensures sv.node.lastLogIndex == |sv.log| && sv.node.lastLogTerm == LastTerm(sv.log)
    ensures sv.node.peers.Keys == {1, 2, 3, 4} - {id} && sv.node.lastSnapshotMeta == None
  {
  }

  lemma {:induction false} BroadcastReaches(order: seq<NodeId>, peers: map<NodeId, PeerState>, message: Message,
                                            x: NodeId)
    requires x in order && x in peers && peers[x].isVoter
    ensures SendMessage(x, message) in Broadcast(order, peers, message)
  {
    if order[0] != x {
      BroadcastReaches(order[1..], peers, message, x);
    }
  }

  /** A broadcast reaches every other voter. */
  lemma ReachesVoters(sv: Server, id: NodeId, message: Message, x: NodeId)
    requires Tidy(sv, id) && IsVoter(x) && x != id
    ensures SendMessage(x, message) in Broadcast(sv.node.cfg.peerOrder, sv.node.peers, message)
  {
    assert x in Order(id);
    BroadcastReaches(Order(id), sv.node.peers, message, x);
  }

  lemma QuorumOfTwo(id: NodeId, a: NodeId, b: NodeId)
    requires IsVoter(a) && IsVoter(b) && a != b
    ensures HasQuorum(Setup(id), {a, b}) && !HasQuorum(Setup(id), {a})
  {
    Voters(id);
    assert {a, b} * {1, 2, 3} == {a, b} && {a} * {1, 2, 3} == {a};
  }

  // ------------------------------------------------------------------
  // Steps of one server
  // ------------------------------------------------------------------

  /** The server, its actions and its face are all that a step is judged by. */
  lemma Harmlessly(sv: Server, input: Input, draw: nat)
    requires forall a :: a in Step(sv.node, input, draw).actions ==> Harmless(a)
    ensures StepServer(sv, input, draw) == sv.(node := Step(sv.node, input, draw).node)
  {
    hide Step;
    ExecuteHarmless(sv.(node := Step(sv.node, input, draw).node), Step(sv.node, input, draw).actions);
  }

  function PreVoteFor(sv: Server, id: NodeId): Message {
    PreVoteReq(PreVoteRequest("", sv.node.term + 1, id, |sv.log|, LastTerm(sv.log)))
  }

  /** An expired follower starts a pre-vote and asks every other voter. */
  lemma TickStands(sv: Server, id: NodeId, draw: nat)
    requires Tidy(sv, id) && IsVoter(id) && sv.node.role == Follower
    requires sv.node.timer.elapsed + 1 >= sv.node.timer.timeout
    ensures var sv' := StepServer(sv, Input.Tick, draw);
      && Tidy(sv', id) && sv'.node.preVotesReceived == {id}
      && FaceOf(sv') == FaceOf(sv).(role := PreCandidate, leaderId := None, contacted := false, noOp := None,
                                    timer := ElectionTimer(0, draw))
    ensures forall x :: IsVoter(x) && x != id ==>
      SendMessage(x, PreVoteFor(sv, id)) in Step(sv.node, Input.Tick, draw).actions
  {
    hide HandleTick, Broadcast, HasQuorum, FetchDue, Tidy, FaceOf;
    var n := sv.node;
    var f := ScheduleFetch(AdvanceClock(n));
    TidyBasics(sv, id);
    BroadcastSends(n.cfg.peerOrder, n.peers, FetchReq(NextFetch(AdvanceClock(n))));
    BroadcastSends(n.cfg.peerOrder, n.peers, PreVoteFor(sv, id));
    QuorumOfTwo(id, id, if id == 1 then 2 else 1);
    PreVoteStarts(n, draw);
    Harmlessly(sv, Input.Tick, draw);
    StandingTidy(sv, id, draw);
    forall x | IsVoter(x) && x != id ensures SendMessage(x, PreVoteFor(sv, id)) in HandleTick(n, draw).actions {
      ReachesVoters(sv, id, PreVoteFor(sv, id), x);
    }
  }

  lemma StandingTidy(sv: Server, id: NodeId, draw: nat)
    requires Tidy(sv, id) && IsVoter(id) && sv.node.role == Follower
    ensures var sv' := sv.(node := EnterPreCandidate(ScheduleFetch(AdvanceClock(sv.node)).node, draw));
      && Tidy(sv', id) && sv'.node.preVotesReceived == {id}
      && FaceOf(sv') == FaceOf(sv).(role := PreCandidate, leaderId := None, contacted := false, noOp := None,
                                    timer := ElectionTimer(0, draw))
  {
    hide Broadcast, OffsetMap, FetchDue;
  }

  lemma PreVoteStarts(n: Node, draw: nat)
    requires n.role == Follower && n.timer.elapsed + 1 >= n.timer.timeout && !HasQuorum(n.cfg, {n.cfg.id})
    ensures var f := ScheduleFetch(AdvanceClock(n));
      var request := PreVoteReq(PreVoteRequest(n.cfg.clusterId, n.term + 1, n.cfg.id, n.lastLogIndex, n.lastLogTerm));
      HandleTick(n, draw)
      == Out(EnterPreCandidate(f.node, draw), f.actions + Broadcast(n.cfg.peerOrder, n.peers, request))
  {
    hide HasQuorum, Broadcast, FetchDue;
  }

  /** The candidate's log is at least as up to date as the voter's. */
  predicate AsUpToDate(candidate: seq<Entry>, voter: seq<Entry>) {
    LastTerm(candidate) > LastTerm(voter) || (LastTerm(candidate) == LastTerm(voter) && |candidate| >= |voter|)
  }

  function PreVoteGrant(sv: Server): Message {
    PreVoteResp(PreVoteResponse("", sv.node.term, true, sv.node.leaderId))
  }

  /** A follower without leader contact grants the pre-vote and stays as it is. */
  lemma GrantsPre(sv: Server, id: NodeId, from: Server, candidate: NodeId, draw: nat)
    requires Tidy(sv, id) && IsVoter(id) && IsVoter(candidate) && sv.node.role == Follower
    requires sv.node.lastLeaderContact == None && sv.node.term <= from.node.term && AsUpToDate(from.log, sv.log)
    ensures var input := PreVoteRequested(PreVoteFor(from, candidate).preVoteRequest);
      && StepServer(sv, input, draw) == sv
      && SendMessage(candidate, PreVoteGrant(sv)) in Step(sv.node, input, draw).actions
  {
    var input := PreVoteRequested(PreVoteFor(from, candidate).preVoteRequest);
    Voters(id);
    Harmlessly(sv, input, draw);
  }

  function VoteFor(sv: Server, id: NodeId): Message {
    VoteReq(VoteRequest("", sv.node.term + 1, id, |sv.log|, LastTerm(sv.log)))
  }

  /** The first grant makes a quorum of three: the pre-candidate stands. */
  lemma Stands(sv: Server, id: NodeId, voter: NodeId, resp: PreVoteResponse, draw: nat)
    requires Tidy(sv, id) && IsVoter(id) && IsVoter(voter) && voter != id
    requires sv.node.role == PreCandidate && sv.node.preVotesReceived == {id}
    requires resp.clusterId == "" && resp.term <= sv.node.term && resp.voteGranted
    ensures var sv' := StepServer(sv, PreVoteAnswered(voter, resp), draw);
      && Tidy(sv', id) && sv'.node.votesReceived == {id}
      && FaceOf(sv') == FaceOf(sv).(role := Candidate, term := sv.node.term + 1, votedFor := Some(id), leaderId := None,
                                    contacted := false, noOp := None, timer := ElectionTimer(0, draw))
    ensures forall x :: IsVoter(x) && x != id ==>
      SendMessage(x, VoteFor(sv, id)) in Step(sv.node, PreVoteAnswered(voter, resp), draw).actions
  {
    hide HandlePreVoteResponse, Broadcast, HasQuorum, Tidy, FaceOf;
    var n := sv.node;
    TidyBasics(sv, id);
    SecondPreVote(n, id, voter);
    BroadcastSends(n.cfg.peerOrder, n.peers, VoteFor(sv, id));
    PreVoteWon(n, voter, resp, draw);
    Harmlessly(sv, PreVoteAnswered(voter, resp), draw);
    CandidateTidy(sv, id, voter, draw);
    forall x | IsVoter(x) && x != id
      ensures SendMessage(x, VoteFor(sv, id)) in HandlePreVoteResponse(n, voter, resp, draw).actions
    {
      ReachesVoters(sv, id, VoteFor(sv, id), x);
    }
  }

  lemma SecondPreVote(n: Node, id: NodeId, voter: NodeId)
    requires n.cfg == Setup(id) && IsVoter(id) && IsVoter(voter) && voter != id && n.preVotesReceived == {id}
    ensures voter in VoterIds(n.cfg) && HasQuorum(n.cfg, n.preVotesReceived + {voter}) && !HasQuorum(n.cfg, {id})
  {
    Voters(id);
    QuorumOfTwo(id, id, voter);
    assert n.preVotesReceived + {voter} == {id, voter};
  }

  lemma CandidateTidy(sv: Server, id: NodeId, voter: NodeId, draw: nat)
    requires Tidy(sv, id) && IsVoter(id)
    ensures var m := sv.node.(preVotesReceived := sv.node.preVotesReceived + {voter});
      var sv' := sv.(node := EnterCandidate(m, draw));
      && Tidy(sv', id) && sv'.node.votesReceived == {id}
      && FaceOf(sv') == FaceOf(sv).(role := Candidate, term := sv.node.term + 1, votedFor := Some(id), leaderId := None,
                                    contacted := false, noOp := None, timer := ElectionTimer(0, draw))
  {
    hide OffsetMap;
  }

  lemma PreVoteWon(n: Node, voter: NodeId, resp: PreVoteResponse, draw: nat)
    requires n.role == PreCandidate && voter in VoterIds(n.cfg) && resp.clusterId == n.cfg.clusterId
    requires resp.term <= n.term && resp.voteGranted && HasQuorum(n.cfg, n.preVotesReceived + {voter})
    requires !HasQuorum(n.cfg, {n.cfg.id})
    ensures var m := n.(preVotesReceived := n.preVotesReceived + {voter});
      var request := VoteReq(VoteRequest(n.cfg.clusterId, n.term + 1, n.cfg.id, n.lastLogIndex, n.lastLogTerm));
      HandlePreVoteResponse(n, voter, resp, draw)
      == Out(EnterCandidate(m, draw), [PersistHardState] + Broadcast(n.cfg.peerOrder, n.peers, request))
  {
    hide HasQuorum, Broadcast;
  }

  function VoteGrant(t: nat): Message {
    VoteResp(VoteResponse("", t, true, None))
  }

  /** A vote request of a higher term: the voter follows the term and votes if the log is up to date. */
  lemma FollowsTerm(sv: Server, id: NodeId, req: VoteRequest, draw: nat)
    requires Tidy(sv, id) && IsVoter(id) && IsVoter(req.candidateId) && req.clusterId == "" && req.term > sv.node.term
    ensures var sv', granted := StepServer(sv, VoteRequested(req), draw),
                                CandidateLogIsUpToDate(sv.node, req.lastLogIndex, req.lastLogTerm);
      && Tidy(sv', id)
      && FaceOf(sv') == FaceOf(sv).(role := Follower, term := req.term,
                                    votedFor := if granted then Some(req.candidateId) else None, leaderId := None,
                                    contacted := false, timer := ElectionTimer(0, draw))
      && (granted ==>
            SendMessage(req.candidateId, VoteGrant(req.term)) in Step(sv.node, VoteRequested(req), draw).actions)
  {
    hide CandidateLogIsUpToDate;
    Voters(id);
    UpToDateStays(sv.node, AdoptVoteTerm(sv.node, req.term, draw), req.lastLogIndex, req.lastLogTerm);
    Harmlessly(sv, VoteRequested(req), draw);
  }

  lemma UpToDateStays(n: Node, n': Node, index: nat, term: nat)
    requires n'.lastLogIndex == n.lastLogIndex && n'.lastLogTerm == n.lastLogTerm
    ensures CandidateLogIsUpToDate(n', index, term) == CandidateLogIsUpToDate(n, index, term)
  {
  }

  // ------------------------------------------------------------------
  // Commits among three voters
  // ------------------------------------------------------------------

  ghost predicate ThreeVoters(n: Node) {
    && Committing(n) && VoterIds(n.cfg) == {1, 2, 3} && IsVoter(n.cfg.id)
    && forall v :: IsVoter(v) && v != n.cfg.id ==> v in n.peers
  }

  /** Nothing is committed while no other voter is recorded past the commit index. */
  lemma NoCommit(n: Node)
    requires ThreeVoters(n)
    requires forall v :: IsVoter(v) && v != n.cfg.id ==> n.peers[v].lastFetchOffset <= n.commitIndex
    ensures CommitCandidate(n).None?
  {
    hide CommitCandidate;
    CommitRule(n);
    forall k: nat | Committable(n, k) ensures false {
      SubsetSize(Reaching(n, k), {n.cfg.id});
    }
  }

  /** A second voter recorded at the end of the leader's log commits all of it. */
  lemma CommitAll(n: Node, v: NodeId)
    requires ThreeVoters(n) && IsVoter(v) && v != n.cfg.id && n.peers[v].lastFetchOffset == n.lastLogIndex
    requires n.commitIndex < n.lastLogIndex && n.leaderNoOpIndex.value <= n.lastLogIndex && OffsetsBelow(n)
    ensures CommitCandidate(n) == Some(n.lastLogIndex)
  {
    hide CommitCandidate;
    SubsetSize({n.cfg.id, v}, Reaching(n, n.lastLogIndex));
    assert Committable(n, n.lastLogIndex);
    CommitRule(n);
    CandidateWithin(n);
  }

  // ------------------------------------------------------------------
  // Leading
  // ------------------------------------------------------------------

  function NoOpAfter(log: seq<Entry>, t: nat): Entry {
    Entry(|log| + 1, t, NoOp)
  }

  function ZeroOffsets(id: NodeId): map<NodeId, nat> {
    map p | p in {1, 2, 3, 4} - {id} :: 0
  }

  lemma TidyThree(n: Node, sv: Server, id: NodeId)
    requires Tidy(sv, id) && IsVoter(id) && n.cfg == sv.node.cfg && n.peers.Keys == sv.node.peers.Keys
    requires forall p :: p in n.peers ==> n.peers[p].isVoter == sv.node.peers[p].isVoter
    requires n.role == Leader && n.leaderNoOpIndex.Some?
    ensures ThreeVoters(n)
  {
    Voters(id);
  }

  lemma VoteWon(n: Node, voter: NodeId, resp: VoteResponse, draw: nat)
    requires n.role == Candidate && voter in VoterIds(n.cfg) && resp.clusterId == n.cfg.clusterId
    requires resp.term == n.term && resp.voteGranted && HasQuorum(n.cfg, n.votesReceived + {voter})
    requires CommitCandidate(EnterLeader(n, draw)).None?
    ensures HandleVoteResponse(n, voter, resp, draw)
         == Out(EnterLeader(n, draw), [AnnounceLeader, AppendEntries([NoOpEntry(n)])])
  {
    hide HasQuorum, CommitCandidate;
    var m := n.(votesReceived := n.votesReceived + {voter});
    assert EnterLeader(m, draw) == EnterLeader(n, draw);
    assert [AnnounceLeader, AppendEntries([NoOpEntry(n)])] + [] == [AnnounceLeader, AppendEntries([NoOpEntry(n)])];
  }

  /** The first vote makes a quorum of three: the candidate leads and writes its no-op. */
  lemma Wins(sv: Server, id: NodeId, voter: NodeId, draw: nat)
    requires Tidy(sv, id) && IsVoter(id) && IsVoter(voter) && voter != id
    requires sv.node.role == Candidate && sv.node.votesReceived == {id}
    ensures var sv' := StepServer(sv, VoteAnswered(voter, VoteGrant(sv.node.term).voteResponse), draw);
      && Tidy(sv', id)
      && FaceOf(sv') == FaceOf(sv).(role := Leader, leaderId := Some(id), contacted := true,
                                    log := sv.log + [NoOpAfter(sv.log, sv.node.term)], noOp := Some(|sv.log| + 1),
                                    offsets := ZeroOffsets(id), timer := ElectionTimer(0, draw))
  {
    hide StepServer, EnterLeader, Tidy, FaceOf, CommitCandidate;
    LeaderTidy(sv, id, draw);
    TidyBasics(sv, id);
    SecondVote(sv.node, id, voter);
    WinsAs(sv, voter, draw);
  }

  lemma SecondVote(n: Node, id: NodeId, voter: NodeId)
    requires n.cfg == Setup(id) && IsVoter(id) && IsVoter(voter) && voter != id && n.votesReceived == {id}
    ensures voter in VoterIds(n.cfg) && HasQuorum(n.cfg, n.votesReceived + {voter})
  {
    Voters(id);
    QuorumOfTwo(id, id, voter);
    assert n.votesReceived + {voter} == {id, voter};
  }

  lemma WinsAs(sv: Server, voter: NodeId, draw: nat)
    requires sv.node.role == Candidate && voter in VoterIds(sv.node.cfg) && sv.node.cfg.clusterId == ""
    requires HasQuorum(sv.node.cfg, sv.node.votesReceived + {voter})
    requires CommitCandidate(EnterLeader(sv.node, draw)).None?
    ensures StepServer(sv, VoteAnswered(voter, VoteGrant(sv.node.term).voteResponse), draw)
         == Server(EnterLeader(sv.node, draw), sv.log + [NoOpEntry(sv.node)], sv.applied)
  {
    hide HasQuorum, CommitCandidate, HandleVoteResponse, EnterLeader, Execute, VoterIds;
    VoteWon(sv.node, voter, VoteGrant(sv.node.term).voteResponse, draw);
    ExecuteTwo(sv.(node := EnterLeader(sv.node, draw)), AnnounceLeader, AppendEntries([NoOpEntry(sv.node)]));
  }

  lemma LeaderTidy(sv: Server, id: NodeId, draw: nat)
    requires Tidy(sv, id) && IsVoter(id) && sv.node.role == Candidate
    ensures var l := EnterLeader(sv.node, draw);
      var sv' := Server(l, sv.log + [NoOpEntry(sv.node)], sv.applied);
      && Tidy(sv', id) && CommitCandidate(l).None?
      && FaceOf(sv') == FaceOf(sv).(role := Leader, leaderId := Some(id), contacted := true,
                                    log := sv.log + [NoOpAfter(sv.log, sv.node.term)], noOp := Some(|sv.log| + 1),
                                    offsets := ZeroOffsets(id), timer := ElectionTimer(0, draw))
  {
    hide CommitCandidate;
    var l := EnterLeader(sv.node, draw);
    TidyThree(l, sv, id);
    NoCommit(l);
    assert OffsetMap(l.peers) == ZeroOffsets(id);
  }

  lemma Proposes(sv: Server, id: NodeId, command: seq<bv8>)
    requires Tidy(sv, id) && IsVoter(id) && sv.node.role == Leader && sv.node.leaderNoOpIndex.Some?
    requires forall v :: IsVoter(v) && v != id ==> sv.node.peers[v].lastFetchOffset <= sv.node.commitIndex
    ensures var sv' := StepServer(sv, ClientPropose(command), 0);
      && Tidy(sv', id)
      && FaceOf(sv') == FaceOf(sv).(log := sv.log + [Entry(|sv.log| + 1, sv.node.term, Command(command))])
  {
    hide CommitCandidate, Execute;
    var n := sv.node;
    var m := n.(lastLogIndex := n.lastLogIndex + 1, lastLogTerm := n.term);
    var e := Entry(n.lastLogIndex + 1, n.term, Command(command));
    TidyThree(m, sv, id);
    NoCommit(m);
    assert HandleClientPropose(n, command) == Out(m, [AppendEntries([e])] + []);
    ExecuteOne(sv.(node := m), AppendEntries([e]));
    assert [AppendEntries([e])] + [] == [AppendEntries([e])];
  }

  lemma ExecuteOne(sv: Server, a: Action)
    ensures Execute(sv, [a]) == Perform(sv, a)
  {
    assert [a][1..] == [];
  }

  // ------------------------------------------------------------------
  // Fetching and serving
  // ------------------------------------------------------------------

  function FetchOf(sv: Server, id: NodeId): FetchRequest {
    FetchRequest("", sv.node.term, id, |sv.log| + 1, LastTerm(sv.log))
  }

  /** A tick that does not expire sends a fetch to the known leader, or to every other voter. */
  lemma TickFetches(sv: Server, id: NodeId, draw: nat)
    requires Tidy(sv, id) && (sv.node.role == Follower || sv.node.role == Observer)
    requires sv.node.role == Follower ==> sv.node.timer.elapsed + 1 < sv.node.timer.timeout
    ensures var sv' := StepServer(sv, Input.Tick, draw);
      Tidy(sv', id) && FaceOf(sv') == FaceOf(sv).(timer := sv.node.timer.(elapsed := sv.node.timer.elapsed + 1))
    ensures var sent := Step(sv.node, Input.Tick, draw).actions;
      if sv.node.leaderId.Some? then SendMessage(sv.node.leaderId.value, FetchReq(FetchOf(sv, id))) in sent
      else forall x :: IsVoter(x) && x != id ==> SendMessage(x, FetchReq(FetchOf(sv, id))) in sent
  {
    hide Broadcast, OffsetMap, HandleTick;
    var n := sv.node;
    var m := AdvanceClock(n);
    var f := ScheduleFetch(m);
    assert FetchDue(m);
    BroadcastSends(n.cfg.peerOrder, n.peers, FetchReq(NextFetch(m)));
    TickIdles(n, draw);
    Harmlessly(sv, Input.Tick, draw);
    if n.leaderId.None? {
      forall x | IsVoter(x) && x != id ensures SendMessage(x, FetchReq(FetchOf(sv, id))) in f.actions {
        ReachesVoters(sv, id, FetchReq(FetchOf(sv, id)), x);
      }
    }
  }

  lemma TickIdles(n: Node, draw: nat)
    requires n.role == Follower || n.role == Observer
    requires n.role == Follower ==> n.timer.elapsed + 1 < n.timer.timeout
    ensures HandleTick(n, draw) == ScheduleFetch(AdvanceClock(n))
  {
    hide Broadcast, FetchDue;
    var f := ScheduleFetch(AdvanceClock(n));
    assert f.actions + [] == f.actions;
  }

  /** The leader accepts a fetch of a tracked replica. */
  ghost predicate Serves(sv: Server, id: NodeId, req: FetchRequest) {
    && Tidy(sv, id) && IsVoter(id) && sv.node.role == Leader && sv.node.leaderNoOpIndex.Some?
    && req.clusterId == "" && req.replicaId in sv.node.peers && req.leaderEpoch <= sv.node.term && req.fetchOffset >= 1
  }

  function ServeOf(sv: Server, id: NodeId, req: FetchRequest): Action {
    ServeFetch(req.replicaId, "", sv.node.term, id, sv.node.commitIndex, req.fetchOffset, req.lastFetchedEpoch)
  }

  lemma Stamps(sv: Server, id: NodeId, req: FetchRequest, draw: nat)
    requires Serves(sv, id, req)
    ensures var sv1 := sv.(node := StampFetch(sv.node, req.replicaId));
      && HandleFetchRequest(sv.node, req, draw) == Out(sv1.node, [ServeOf(sv, id, req)])
      && Tidy(sv1, id) && FaceOf(sv1) == FaceOf(sv).(contacted := true)
  {
    var n, n1 := sv.node, StampFetch(sv.node, req.replicaId);
    assert OffsetMap(n1.peers) == OffsetMap(n.peers);
  }

  /** The record after an acknowledgement up to `k`. */
  function Raised(sv: Server, replica: NodeId, k: nat): nat
    requires replica in sv.node.peers
  {
    Max(sv.node.peers[replica].lastFetchOffset, Min(k, |sv.log|))
  }

  lemma RecordTidy(sv: Server, id: NodeId, replica: NodeId, k: nat)
    requires Tidy(sv, id) && replica in sv.node.peers
    ensures var m := RecordProgress(sv.node, replica, k);
      && Tidy(sv.(node := m), id) && m.peers.Keys == sv.node.peers.Keys
      && FaceOf(sv.(node := m)) == FaceOf(sv).(offsets := FaceOf(sv).offsets[replica := Raised(sv, replica, k)])
      && (forall p :: p in m.peers && p != replica ==> m.peers[p] == sv.node.peers[p])
      && m.peers[replica].lastFetchOffset == Raised(sv, replica, k)
  {
    var m := RecordProgress(sv.node, replica, k);
    assert OffsetMap(m.peers) == OffsetMap(sv.node.peers)[replica := Raised(sv, replica, k)];
  }

  /** An acknowledgement that leaves the other voters at or below the commit index only updates the record. */
  lemma AckRecords(sv: Server, id: NodeId, replica: NodeId, k: nat, draw: nat)
    requires Tidy(sv, id) && IsVoter(id) && sv.node.role == Leader && sv.node.leaderNoOpIndex.Some?
    requires replica in sv.node.peers
    requires forall v :: IsVoter(v) && v != id ==>
      (if v == replica then Raised(sv, replica, k) else sv.node.peers[v].lastFetchOffset) <= sv.node.commitIndex
    ensures var sv' := StepServer(sv, FetchRequestAcked(replica, k), draw);
      && Tidy(sv', id)
      && FaceOf(sv') == FaceOf(sv).(offsets := FaceOf(sv).offsets[replica := Raised(sv, replica, k)])
  {
    hide CommitCandidate, RecordProgress, OffsetMap;
    var m := RecordProgress(sv.node, replica, k);
    RecordTidy(sv, id, replica, k);
    TidyThree(m, sv.(node := m), id);
    NoCommit(m);
    assert HandleFetchRequestAcked(sv.node, replica, k) == Out(m, []);
  }

  /** An acknowledgement of the whole log by a voter commits and applies all of it. */
  lemma AckCommits(sv: Server, id: NodeId, replica: NodeId, draw: nat)
    requires Tidy(sv, id) && IsVoter(id) && sv.node.role == Leader && sv.node.leaderNoOpIndex.Some?
    requires IsVoter(replica) && replica != id && OffsetsBelow(sv.node)
    requires sv.node.leaderNoOpIndex.value <= |sv.log| && sv.node.commitIndex == 0 < |sv.log| < 100 && sv.applied == []
    ensures var sv' := StepServer(sv, FetchRequestAcked(replica, |sv.log|), draw);
      && Tidy(sv', id)
      && FaceOf(sv') == FaceOf(sv).(offsets := FaceOf(sv).offsets[replica := |sv.log|], commit := |sv.log|,
                                    applied := sv.log)
  {
    hide CommitCandidate, RecordProgress, StepServer, Tidy, FaceOf;
    var k := |sv.log|;
    var sv1 := sv.(node := RecordProgress(sv.node, replica, k));
    TidyBasics(sv, id);
    RecordTidy(sv, id, replica, k);
    TidyBasics(sv1, id);
    FaceFields(sv, sv1, replica, k);
    TidyThree(sv1.node, sv1, id);
    CommitAll(sv1.node, replica);
    AckApplies(sv, replica, draw);
    CommittedFace(sv1, id);
    assert Raised(sv, replica, k) == k by {
      BelowTail(sv.node, replica);
    }
  }

  lemma BelowTail(n: Node, p: NodeId)
    requires OffsetsBelow(n) && p in n.peers
    ensures n.peers[p].lastFetchOffset <= n.lastLogIndex
  {
  }

  lemma AckApplies(sv: Server, replica: NodeId, draw: nat)
    requires var m := RecordProgress(sv.node, replica, |sv.log|);
      && m.commitIndex == m.lastApplied == 0 < m.lastLogIndex == |sv.log| < 100 && m.lastSnapshotMeta == None
      && m.cfg.maxLogEntriesBeforeCompaction == 100 && CommitCandidate(m) == Some(|sv.log|)
    requires sv.node.role == Leader && replica in sv.node.peers && sv.applied == []
    ensures var m, k := RecordProgress(sv.node, replica, |sv.log|), |sv.log|;
      StepServer(sv, FetchRequestAcked(replica, k), draw)
      == Server(m.(commitIndex := k, lastApplied := k), sv.log, sv.log)
  {
    hide CommitCandidate, RecordProgress, DrainApplyPipeline, Execute;
    var m, k := RecordProgress(sv.node, replica, |sv.log|), |sv.log|;
    AllDrained(m);
    assert HandleFetchRequestAcked(sv.node, replica, k) == DrainApplyPipeline(m.(commitIndex := k));
    ExecuteOne(sv.(node := m.(commitIndex := k, lastApplied := k)), ApplyToStateMachine(1, k));
    assert [] + sv.log[0..k] == sv.log;
  }

  lemma FaceFields(sv: Server, sv1: Server, replica: NodeId, k: nat)
    requires replica in sv.node.peers && sv1 == sv.(node := RecordProgress(sv.node, replica, k))
    ensures sv1.node.role == sv.node.role && sv1.node.leaderNoOpIndex == sv.node.leaderNoOpIndex
    ensures sv1.node.commitIndex == sv.node.commitIndex && (OffsetsBelow(sv.node) ==> OffsetsBelow(sv1.node))
    ensures sv1.node.cfg == sv.node.cfg && sv1.node.lastLogIndex == sv.node.lastLogIndex
  {
  }

  lemma CommittedFace(sv: Server, id: NodeId)
    requires Tidy(sv, id)
    ensures var k := |sv.log|;
      var sv' := Server(sv.node.(commitIndex := k, lastApplied := k), sv.log, sv.log);
      Tidy(sv', id) && FaceOf(sv') == FaceOf(sv).(commit := k, applied := sv.log)
  {
  }


  lemma AllDrained(m: Node)
    requires m.commitIndex == m.lastApplied == 0 < m.lastLogIndex < 100 && m.lastSnapshotMeta == None
    requires m.cfg.maxLogEntriesBeforeCompaction == 100
    ensures var k := m.lastLogIndex;
      DrainApplyPipeline(m.(commitIndex := k))
      == Out(m.(commitIndex := k, lastApplied := k), [ApplyToStateMachine(1, k)])
  {
    assert [ApplyToStateMachine(1, m.lastLogIndex)] + [] == [ApplyToStateMachine(1, m.lastLogIndex)];
  }

  // ------------------------------------------------------------------
  // Consuming answers
  // ------------------------------------------------------------------

  /** A follower or observer takes the answer as its leader's, and has nothing to learn from its commit index. */
  ghost predicate Accepts(sv: Server, id: NodeId, resp: FetchResponse) {
    && Tidy(sv, id) && (sv.node.role == Follower || sv.node.role == Observer)
    && resp.clusterId == "" && resp.isLeader && IsVoter(resp.leaderId) && resp.snapshotRedirect == None
    && resp.leaderEpoch >= sv.node.term && resp.highWatermark <= sv.node.commitIndex
    && (resp.leaderEpoch == sv.node.term ==> sv.node.leaderId == None || sv.node.leaderId == Some(resp.leaderId))
  }

  /** The face after the sender is recognised as leader. */
  function Followed(f: Face, resp: FetchResponse, draw: nat): Face {
    var raised := resp.leaderEpoch > f.term;
    f.(term := resp.leaderEpoch, votedFor := if raised then None else f.votedFor, leaderId := Some(resp.leaderId),
       contacted := true, noOp := if raised then None else f.noOp, timer := ElectionTimer(0, draw))
  }

  lemma Recognises(sv: Server, id: NodeId, resp: FetchResponse, draw: nat)
    requires Accepts(sv, id, resp)
    ensures !DropsAnswer(sv.node, resp)
    ensures var a := RecogniseLeader(sv.node, resp, draw);
      && Tidy(sv.(node := a.node), id) && FaceOf(sv.(node := a.node)) == Followed(FaceOf(sv), resp, draw)
      && a.node.term == resp.leaderEpoch && a.node.commitIndex == sv.node.commitIndex
      && forall x :: x in a.actions ==> Harmless(x)
  {
    hide OffsetMap;
    Voters(id);
  }

  /** The answer's own actions decide what becomes of the log. */
  lemma AnswerExecutes(sv: Server, resp: FetchResponse, draw: nat)
    requires !DropsAnswer(sv.node, resp)
    requires forall x :: x in RecogniseLeader(sv.node, resp, draw).actions ==> Harmless(x)
    ensures var b := ConsumeAnswer(RecogniseLeader(sv.node, resp, draw).node, resp);
      && StepServer(sv, FetchAnswered(resp), draw) == Execute(sv.(node := b.node), b.actions)
      && forall x :: x in b.actions ==> x in Step(sv.node, FetchAnswered(resp), draw).actions
  {
    hide RecogniseLeader, ConsumeAnswer, DropsAnswer, Execute;
    var a := RecogniseLeader(sv.node, resp, draw);
    var b := ConsumeAnswer(a.node, resp);
    ExecuteAppend(sv.(node := b.node), a.actions, b.actions);
    ExecuteHarmless(sv.(node := b.node), a.actions);
  }

  lemma NothingLearned(n: Node, highWatermark: nat)
    requires highWatermark <= n.commitIndex
    ensures LearnCommit(n, highWatermark) == Out(n, [])
  {
  }

  /** A batch that does not continue the log is dropped, but its sender is the leader all the same. */
  lemma DropsBatch(sv: Server, id: NodeId, resp: FetchResponse, draw: nat)
    requires Accepts(sv, id, resp) && resp.divergingEpoch == None && resp.entries != []
    requires !WellFormedBatch(resp.entries, |sv.log| + 1)
    ensures var sv' := StepServer(sv, FetchAnswered(resp), draw);
      Tidy(sv', id) && FaceOf(sv') == Followed(FaceOf(sv), resp, draw)
  {
    hide RecogniseLeader, DropsAnswer, FaceOf, Tidy, StepServer, LearnCommit, WellFormedBatch;
    Recognises(sv, id, resp, draw);
    AnswerExecutes(sv, resp, draw);
    TidyBasics(sv.(node := RecogniseLeader(sv.node, resp, draw).node), id);
  }

  lemma AppendedTidy(sv: Server, id: NodeId, entries: seq<Entry>)
    requires Tidy(sv, id) && WellFormedBatch(entries, |sv.log| + 1)
    ensures var last := entries[|entries| - 1];
      var sv' := Server(sv.node.(lastLogIndex := last.index, lastLogTerm := last.term), sv.log + entries, sv.applied);
      Tidy(sv', id) && FaceOf(sv') == FaceOf(sv).(log := sv.log + entries)
  {
    hide WellFormedBatch, OffsetMap;
    BatchNonempty(entries, |sv.log| + 1);
    BatchRises(entries, |sv.log| + 1, |entries| - 1);
  }

  lemma BatchNonempty(entries: seq<Entry>, first: nat)
    requires WellFormedBatch(entries, first)
    ensures entries != []
  {
  }

  lemma TakesEntries(sv: Server, id: NodeId, resp: FetchResponse, draw: nat)
    requires Accepts(sv, id, resp) && resp.divergingEpoch == None && WellFormedBatch(resp.entries, |sv.log| + 1)
    ensures var sv' := StepServer(sv, FetchAnswered(resp), draw);
      Tidy(sv', id) && FaceOf(sv') == Followed(FaceOf(sv), resp, draw).(log := sv.log + resp.entries)
  {
    hide RecogniseLeader, DropsAnswer, FaceOf, Tidy, StepServer, LearnCommit, WellFormedBatch;
    Recognises(sv, id, resp, draw);
    AnswerExecutes(sv, resp, draw);
    BatchNonempty(resp.entries, |sv.log| + 1);
    var sv1 := sv.(node := RecogniseLeader(sv.node, resp, draw).node);
    TidyBasics(sv1, id);
    AppendedTidy(sv1, id, resp.entries);
    var last := resp.entries[|resp.entries| - 1];
    var m := sv1.node.(lastLogIndex := last.index, lastLogTerm := last.term);
    NothingLearned(m, resp.highWatermark);
    ExecuteOne(sv.(node := m), AppendEntries(resp.entries));
    assert [AppendEntries(resp.entries)] + [] == [AppendEntries(resp.entries)];
  }

  function RefetchOf(resp: FetchResponse, id: NodeId): FetchRequest
    requires resp.divergingEpoch.Some?
  {
    var d := resp.divergingEpoch.value;
    FetchRequest("", resp.leaderEpoch, id, d.endOffset + 1, d.epoch)
  }

  lemma CutTidy(sv: Server, id: NodeId, j: nat)
    requires Tidy(sv, id) && j <= |sv.log|
    ensures var n1 := sv.node.(lastFetchTick := Some(sv.node.logicalTick));
      var sv' := Perform(sv.(node := n1), TruncateLog(SuffixFromInclusive(j + 1)));
      Tidy(sv', id) && FaceOf(sv') == FaceOf(sv).(log := sv.log[..j])
  {
    hide OffsetMap;
    assert j == |sv.log| ==> sv.log[..j] == sv.log;
  }

  lemma TakesDivergence(sv: Server, id: NodeId, resp: FetchResponse, draw: nat)
    requires Accepts(sv, id, resp) && resp.divergingEpoch.Some? && resp.divergingEpoch.value.endOffset <= |sv.log|
    ensures var sv' := StepServer(sv, FetchAnswered(resp), draw);
      && Tidy(sv', id)
      && FaceOf(sv') == Followed(FaceOf(sv), resp, draw).(log := sv.log[..resp.divergingEpoch.value.endOffset])
      && SendMessage(resp.leaderId, FetchReq(RefetchOf(resp, id))) in Step(sv.node, FetchAnswered(resp), draw).actions
  {
    hide RecogniseLeader, DropsAnswer, FaceOf, Tidy, StepServer, Perform, Step, Execute;
    Recognises(sv, id, resp, draw);
    AnswerExecutes(sv, resp, draw);
    var sv1 := sv.(node := RecogniseLeader(sv.node, resp, draw).node);
    TidyBasics(sv1, id);
    var n1, d := sv1.node.(lastFetchTick := Some(sv1.node.logicalTick)), resp.divergingEpoch.value;
    var refetch := SendMessage(resp.leaderId, FetchReq(Refetch(sv1.node, d)));
    CutTidy(sv1, id, d.endOffset);
    ExecuteTwo(sv.(node := n1), TruncateLog(SuffixFromInclusive(d.endOffset + 1)), refetch);
    SendPerforms(Perform(sv.(node := n1), TruncateLog(SuffixFromInclusive(d.endOffset + 1))), refetch);
    assert refetch in ConsumeAnswer(sv1.node, resp).actions;
  }

  lemma SendPerforms(sv: Server, a: Action)
    requires a.SendMessage?
    ensures Perform(sv, a) == sv
  {
  }
}
