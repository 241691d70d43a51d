/**
 The consensus engine as the source has it: one object whose handlers update
 its fields in place and push actions. Every handler is proved to compute the
 corresponding function of `Engine`, about which the properties are proved.
 */
module RaftNode {
  import opened Base
  import opened Messages
  import opened Quorums
  import opened OrderStatistics
  import opened Engine
  import EngineRuns
  import EngineElections

  lemma BroadcastRest(order: seq<NodeId>, peers: map<NodeId, PeerState>, message: Message, i: nat)
    requires i < |order|
    ensures Broadcast(order[i..], peers, message)
         == (if order[i] in peers && peers[order[i]].isVoter then [SendMessage(order[i], message)] else [])
            + Broadcast(order[i + 1..], peers, message)
  {
    assert order[i..][1..] == order[i + 1..];
  }

  lemma NoBroadcast(order: seq<NodeId>, peers: map<NodeId, PeerState>, message: Message)
    ensures Broadcast(order[|order|..], peers, message) == []
  {
  }

  /** What one voter record contributes to the offsets. */
  function OffsetFor(n: Node, v: NodeId): seq<nat> {
    if v == n.cfg.id then [n.lastLogIndex]
    else if v in n.peers then (if n.peers[v].isVoter then [n.peers[v].lastFetchOffset] else [])
    else [0]
  }

  lemma OffsetsRest(n: Node, voters: seq<NodeId>, i: nat)
    requires i < |voters|
    ensures Offsets(n, voters[i..]) == OffsetFor(n, voters[i]) + Offsets(n, voters[i + 1..])
  {
    assert voters[i..][1..] == voters[i + 1..];
  }

  lemma NoOffsets(n: Node, voters: seq<NodeId>)
    ensures Offsets(n, voters[|voters|..]) == []
  {
  }

  /** The loop over the batch: consecutive indices, terms that do not fall. */
  method CheckBatch(entries: seq<Entry>, first: nat) returns (ok: bool)
    ensures ok == WellFormedBatch(entries, first)
  {
    if |entries| == 0 || entries[0].index != first {
      return false;
    }
    for i := 0 to |entries| - 1
      invariant forall j :: 0 <= j < i ==>
        entries[j + 1].index == entries[j].index + 1 && entries[j + 1].term >= entries[j].term
    {
      if entries[i + 1].index != entries[i].index + 1 {
        return false;
      }
      if entries[i + 1].term < entries[i].term {
        return false;
      }
    }
    return true;
  }

  /** A fetch inside the window, and after tick `since` if given. */
  predicate Lately(time: nat, now: nat, window: nat, since: Option<nat>) {
    now - time < window && (since.None? || time > since.value)
  }

  /** Voters with such a fetch. */
  ghost function Fetched(peers: map<NodeId, PeerState>, ids: set<NodeId>, now: nat, window: nat,
                         since: Option<nat>): set<NodeId> {
    set p | p in peers && p in ids && Lately(peers[p].lastFetchTime, now, window, since)
  }

  method CountFetchers(order: seq<NodeId>, peers: map<NodeId, PeerState>, ids: set<NodeId>, now: nat, window: nat,
                       since: Option<nat>) returns (count: nat)
    requires Distinct(order) && SetOf(order) == peers.Keys
    ensures count == |Fetched(peers, ids, now, window, since)|
  {
    hide SetOf, Distinct, Lately;
    ghost var all := Fetched(peers, ids, now, window, since);
    CountEnds(order, all);
    count := 0;
    for i := 0 to |order|
      invariant count == |SetOf(order[..i]) * all|
    {
      CountStep(order, i, all);
      if order[i] in ids && Lately(peers[order[i]].lastFetchTime, now, window, since) {
        count := count + 1;
      }
    }
  }

  lemma StepPromises(n: Node, input: Input, draw: nat)
    ensures EngineRuns.Onward(n, Step(n, input, draw).node) && EngineElections.Guarded(n, Step(n, input, draw))
  {
    hide Step, EngineRuns.Onward, EngineElections.Guarded;
    EngineRuns.MoveOnward(n, EngineRuns.Move.Feed(input, draw));
    EngineElections.PersistBeforeAnnouncing(n, EngineRuns.Move.Feed(input, draw));
  }

  // The fields of the engine, grouped by what they are about.

  datatype HardState = HardState(term: nat, votedFor: Option<NodeId>)

  datatype Election = Election(role: Role, votes: set<NodeId>, preVotes: set<NodeId>)

  datatype Clock = Clock(tick: nat, timer: ElectionTimer)

  datatype Contact = Contact(leaderId: Option<NodeId>, lastLeaderContact: Option<nat>, lastFetchTick: Option<nat>)

  datatype Tenure = Tenure(noOpIndex: Option<nat>, startedTick: Option<nat>, checkQuorumElapsed: nat)

  datatype Tail = Tail(index: nat, term: nat)

  datatype Progress = Progress(commitIndex: nat, lastApplied: nat)

  datatype Snapshots = Snapshots(latest: Option<SnapshotMeta>, inFlight: bool)

  datatype Replicas = Replicas(peers: map<NodeId, PeerState>, fetchSeq: nat)

  class RaftNode {
    const cfg: Config
    var hard: HardState
    var election: Election
    var clock: Clock
    var contact: Contact
    var reign: Tenure
    var tail: Tail
    var progress: Progress
    var snapshots: Snapshots
    var replicas: Replicas

    /** The whole state as a value. */
    ghost function State(): Node
      reads this
    {
      Node(cfg, election.role, hard.term, hard.votedFor, progress.commitIndex, progress.lastApplied, clock.timer,
           election.votes, election.preVotes, replicas.peers, contact.leaderId, contact.lastLeaderContact, clock.tick,
           tail.index, tail.term, reign.noOpIndex, contact.lastFetchTick, snapshots.latest, snapshots.inFlight,
           reign.startedTick, reign.checkQuorumElapsed, replicas.fetchSeq)
    }

    /** The peer map is walked in an order that visits each of its keys once. */
    ghost predicate Valid()
      reads this
    {
      Distinct(cfg.peerOrder) && SetOf(cfg.peerOrder) == replicas.peers.Keys
    }

    constructor (cfg: Config, draw: nat)
      requires Distinct(cfg.peerOrder) && SetOf(cfg.peerOrder) == InitialPeers(cfg).Keys
      ensures Valid() && State() == NewNode(cfg, draw)
    {
      var ids := VoterIds(cfg);
      var peers: map<NodeId, PeerState> := map[];
      for i := 0 to |cfg.peerOrder|
        invariant peers.Keys == SetOf(cfg.peerOrder[..i])
        invariant forall p :: p in peers ==> peers[p] == PeerState(0, 0, 0, 0, p in ids)
      {
        var p := cfg.peerOrder[i];
        peers := peers[p := PeerState(0, 0, 0, 0, p in ids)];
        assert cfg.peerOrder[..i + 1] == cfg.peerOrder[..i] + [p];
      }
      assert cfg.peerOrder[..|cfg.peerOrder|] == cfg.peerOrder;
      assert peers == InitialPeers(cfg);
      this.cfg := cfg;
      hard := HardState(0, None);
      election := Election(if cfg.id in cfg.observers then Observer else Follower, {}, {});
      clock := Clock(0, ElectionTimer(0, draw));
      contact := Contact(None, None, None);
      reign := Tenure(None, None, 0);
      tail := Tail(0, 0);
      progress := Progress(0, 0);
      snapshots := Snapshots(None, false);
      replicas := Replicas(peers, 0);
    }

    // ----------------------------------------------------------------
    // Loops over peers and voters
    // ----------------------------------------------------------------

    method BroadcastToVoters(message: Message) returns (actions: seq<Action>)
      requires Valid()
      ensures actions == Broadcast(cfg.peerOrder, replicas.peers, message)
    {
      hide Broadcast, Distinct;
      actions := [];
      var order, peers := cfg.peerOrder, replicas.peers;
      assert order[0..] == order;
      for i := 0 to |order|
        invariant actions + Broadcast(order[i..], peers, message) == Broadcast(order, peers, message)
      {
        BroadcastRest(order, peers, message, i);
        assert order[i] in SetOf(order);
        var sent: seq<Action> := if peers[order[i]].isVoter then [SendMessage(order[i], message)] else [];
        actions := actions + sent;
      }
      NoBroadcast(order, peers, message);
    }

    method ResetPeerRecords()
      requires Valid()
      modifies this`replicas
      ensures Valid() && replicas == Replicas(FreshPeerRecords(old(State())), old(replicas.fetchSeq))
    {
      ghost var before := State();
      var peers, now := replicas.peers, clock.tick;
      for i := 0 to |cfg.peerOrder|
        invariant peers.Keys == before.peers.Keys
        invariant forall j :: 0 <= j < i ==> peers[cfg.peerOrder[j]] == FreshPeerRecords(before)[cfg.peerOrder[j]]
        invariant forall j :: i <= j < |cfg.peerOrder| ==> peers[cfg.peerOrder[j]] == before.peers[cfg.peerOrder[j]]
      {
        var p := cfg.peerOrder[i];
        assert p in SetOf(cfg.peerOrder);
        peers := peers[p := peers[p].(lastFetchOffset := 0, lastFetchTime := now, lastCaughtUpTime := now)];
      }
      forall p | p in peers ensures peers[p] == FreshPeerRecords(before)[p] {
        assert p in SetOf(cfg.peerOrder);
      }
      replicas := replicas.(peers := peers);
    }

    method VoterOffset(v: NodeId) returns (offset: seq<nat>)
      ensures offset == OffsetFor(State(), v)
    {
      offset := [];
      if v == cfg.id {
        offset := [tail.index];
      } else if v in replicas.peers {
        if replicas.peers[v].isVoter {
          offset := [replicas.peers[v].lastFetchOffset];
        }
      } else {
        offset := [0];
      }
    }

    method CollectOffsets(voters: seq<NodeId>) returns (offsets: seq<nat>)
      ensures offsets == Offsets(State(), voters)
    {
      hide Offsets, OffsetFor;
      offsets := [];
      ghost var n := State();
      assert voters[0..] == voters;
      for i := 0 to |voters|
        invariant offsets + Offsets(n, voters[i..]) == Offsets(n, voters)
      {
        OffsetsRest(n, voters, i);
        var offset := VoterOffset(voters[i]);
        offsets := offsets + offset;
      }
      NoOffsets(n, voters);
    }

    /** Count voters with a fetch inside the window. */
    method CheckReachable() returns (ok: bool)
      requires Valid()
      ensures ok == CheckQuorumReachable(State())
    {
      hide SetOf, Distinct;
      if cfg.voters.None? {
        return true;
      }
      var ids := VoterIds(cfg);
      var count := CountFetchers(cfg.peerOrder, replicas.peers, ids, clock.tick, cfg.checkQuorumTicks, None);
      assert Fetched(replicas.peers, ids, clock.tick, cfg.checkQuorumTicks, None) == FreshPeers(State());
      var self := if cfg.id in ids then 1 else 0;
      return self + count >= QuorumSize(ids);
    }

    /** Count voters that have fetched inside the window and since the leadership began. */
    method CheckLease() returns (active: bool)
      requires Valid()
      ensures active == HasActiveLease(State())
    {
      hide SetOf, Distinct;
      if !cfg.enableLeaderLease || election.role != Leader || cfg.voters.None? || reign.startedTick.None? {
        return false;
      }
      var ids, started := VoterIds(cfg), reign.startedTick;
      var count := CountFetchers(cfg.peerOrder, replicas.peers, ids, clock.tick, cfg.checkQuorumTicks, started);
      assert Fetched(replicas.peers, ids, clock.tick, cfg.checkQuorumTicks, started)
          == LeasePeers(State(), started.value);
      var self := if cfg.id in ids then 1 else 0;
      return self + count >= QuorumSize(ids);
    }

    // ----------------------------------------------------------------
    // Commit and apply
    // ----------------------------------------------------------------

    method TryAdvanceCommitIndex() returns (advanced: bool)
      modifies this`progress
      ensures advanced == CommitCandidate(old(State())).Some?
      ensures State() == if advanced then old(State()).(commitIndex := CommitCandidate(old(State())).value)
                         else old(State())
    {
      if election.role != Leader || cfg.voters.None? || reign.noOpIndex.None? {
        return false;
      }
      var offsets := CollectOffsets(cfg.voters.value);
      var q := QuorumSize(VoterIds(cfg));
      if |offsets| < q {
        return false;
      }
      offsets := Descending(offsets);
      var candidate := offsets[q - 1];
      if candidate <= progress.commitIndex {
        return false;
      }
      if candidate < reign.noOpIndex.value {
        return false;
      }
      progress := progress.(commitIndex := candidate);
      return true;
    }

    method ApplyCommitted() returns (actions: seq<Action>)
      modifies this`progress
      ensures State() == MaybeApply(old(State())).node && actions == MaybeApply(old(State())).actions
    {
      if progress.commitIndex <= progress.lastApplied {
        return [];
      }
      var from := progress.lastApplied + 1;
      progress := progress.(lastApplied := progress.commitIndex);
      return [ApplyToStateMachine(from, progress.commitIndex)];
    }

    method TriggerSnapshot() returns (actions: seq<Action>)
      modifies this`snapshots
      ensures State() == MaybeTakeSnapshot(old(State())).node && actions == MaybeTakeSnapshot(old(State())).actions
    {
      if snapshots.inFlight {
        return [];
      }
      var covered := if snapshots.latest.Some? then snapshots.latest.value.lastIncludedIndex else 0;
      var lag := if progress.commitIndex > covered then progress.commitIndex - covered else 0;
      if lag > cfg.maxLogEntriesBeforeCompaction {
        snapshots := snapshots.(inFlight := true);
        return [TakeSnapshot(progress.commitIndex)];
      }
      return [];
    }

    method Drain() returns (actions: seq<Action>)
      modifies this`progress, this`snapshots
      ensures State() == DrainApplyPipeline(old(State())).node && actions == DrainApplyPipeline(old(State())).actions
    {
      actions := ApplyCommitted();
      var more := TriggerSnapshot();
      actions := actions + more;
    }

    method Advance() returns (actions: seq<Action>)
      modifies this`progress, this`snapshots
      ensures State() == AdvanceAndDrain(old(State())).node && actions == AdvanceAndDrain(old(State())).actions
    {
      actions := [];
      var advanced := TryAdvanceCommitIndex();
      if advanced {
        actions := Drain();
      }
    }

    // ----------------------------------------------------------------
    // Role transitions
    // ----------------------------------------------------------------

    method StepDownTo(newTerm: nat, leader: Option<NodeId>, draw: nat) returns (actions: seq<Action>)
      requires Valid()
      modifies this`hard, this`election, this`contact, this`reign, this`clock
      ensures Valid()
      ensures var o := BecomeFollower(old(State()), newTerm, leader, draw); State() == o.node && actions == o.actions
    {
      hide SetOf, Distinct;
      actions := [];
      var prior := election.role;
      if newTerm > hard.term {
        hard := HardState(newTerm, None);
        actions := actions + [PersistHardState];
      }
      election := Election(if prior == Observer then Observer else Follower, {}, {});
      contact := Contact(leader, if leader.Some? then Some(clock.tick) else None, None);
      reign := Tenure(None, None, 0);
      clock := clock.(timer := ElectionTimer(0, draw));
      if Campaigning(prior) {
        actions := actions + [AnnounceStepDown];
      }
    }

    method TakeLeadership(draw: nat) returns (actions: seq<Action>)
      requires Valid()
      modifies this
      ensures Valid()
      ensures var o := BecomeLeader(old(State()), draw); State() == o.node && actions == o.actions
    {
      hide SetOf, Distinct, AdvanceAndDrain;
      var noOp := EnterReign(draw);
      var more := Advance();
      actions := [AnnounceLeader, AppendEntries([noOp])] + more;
    }

    method EnterReign(draw: nat) returns (noOp: Entry)
      requires Valid()
      modifies this`election, this`contact, this`reign, this`clock, this`replicas, this`tail
      ensures Valid() && State() == EnterLeader(old(State()), draw) && noOp == NoOpEntry(old(State()))
    {
      hide SetOf, Distinct;
      ResetPeerRecords();
      election := Election(Leader, {}, {});
      contact := Contact(Some(cfg.id), Some(clock.tick), None);
      clock := clock.(timer := ElectionTimer(0, draw));
      noOp := Entry(tail.index + 1, hard.term, NoOp);
      tail := Tail(noOp.index, noOp.term);
      reign := Tenure(Some(noOp.index), Some(clock.tick), 0);
    }

    method StandForElection(draw: nat) returns (actions: seq<Action>)
      requires Valid()
      modifies this
      ensures Valid()
      ensures var o := BecomeCandidate(old(State()), draw); State() == o.node && actions == o.actions
    {
      hide SetOf, Distinct, BecomeLeader;
      hard := HardState(hard.term + 1, Some(cfg.id));
      election := Election(Candidate, {cfg.id}, {});
      contact := Contact(None, None, None);
      reign := Tenure(None, None, 0);
      clock := clock.(timer := ElectionTimer(0, draw));
      assert State() == EnterCandidate(old(State()), draw);
      var sent := BroadcastToVoters(VoteReq(VoteRequest(cfg.clusterId, hard.term, cfg.id, tail.index, tail.term)));
      actions := [PersistHardState] + sent;
      if HasQuorum(cfg, election.votes) {
        var more := TakeLeadership(draw);
        actions := actions + more;
      }
    }

    method StartPreVote(draw: nat) returns (actions: seq<Action>)
      requires Valid()
      modifies this
      ensures Valid()
      ensures var o := BecomePreCandidate(old(State()), draw); State() == o.node && actions == o.actions
    {
      hide SetOf, Distinct, BecomeCandidate;
      election := Election(PreCandidate, {}, {cfg.id});
      contact := Contact(None, None, None);
      reign := Tenure(None, None, 0);
      clock := clock.(timer := ElectionTimer(0, draw));
      assert State() == EnterPreCandidate(old(State()), draw);
      actions := BroadcastToVoters(
        PreVoteReq(PreVoteRequest(cfg.clusterId, hard.term + 1, cfg.id, tail.index, tail.term)));
      if HasQuorum(cfg, election.preVotes) {
        var more := StandForElection(draw);
        actions := actions + more;
      }
    }

    // ----------------------------------------------------------------
    // Tick
    // ----------------------------------------------------------------

    method FetchIfDue() returns (actions: seq<Action>)
      requires Valid()
      modifies this`contact
      ensures var o := ScheduleFetch(old(State())); State() == o.node && actions == o.actions
    {
      hide SetOf, Distinct;
      actions := [];
      var due := contact.lastFetchTick.None? || clock.tick - contact.lastFetchTick.value >= cfg.fetchIntervalTicks;
      if (election.role == Follower || election.role == Observer) && due {
        var req := FetchReq(FetchRequest(cfg.clusterId, hard.term, cfg.id, tail.index + 1, tail.term));
        if contact.leaderId.Some? {
          actions := [SendMessage(contact.leaderId.value, req)];
          contact := contact.(lastFetchTick := Some(clock.tick));
        } else {
          actions := BroadcastToVoters(req);
          if actions != [] {
            contact := contact.(lastFetchTick := Some(clock.tick));
          }
        }
      }
    }

    method OnTick(draw: nat) returns (actions: seq<Action>)
      requires Valid()
      modifies this
      ensures Valid()
      ensures var o := HandleTick(old(State()), draw); State() == o.node && actions == o.actions
    {
      hide SetOf, Distinct, TickRole, ScheduleFetch;
      clock := Clock(clock.tick + 1, clock.timer.(elapsed := clock.timer.elapsed + 1));
      assert State() == AdvanceClock(old(State()));
      actions := FetchIfDue();
      var more := TickByRole(draw);
      actions := actions + more;
    }

    method TickByRole(draw: nat) returns (actions: seq<Action>)
      requires Valid()
      modifies this
      ensures Valid()
      ensures var o := TickRole(old(State()), draw); State() == o.node && actions == o.actions
    {
      hide SetOf, Distinct, BecomePreCandidate, BecomeFollower, CheckQuorumReachable;
      if election.role == Leader && cfg.enableCheckQuorum {
        reign := reign.(checkQuorumElapsed := reign.checkQuorumElapsed + 1);
        if reign.checkQuorumElapsed >= cfg.checkQuorumTicks {
          reign := reign.(checkQuorumElapsed := 0);
          var reachable := CheckReachable();
          if !reachable {
            actions := StepDownTo(hard.term, None, draw);
            return;
          }
        }
      }
      if clock.timer.elapsed < clock.timer.timeout {
        return [];
      }
      if election.role != Leader && election.role != Observer {
        actions := StartPreVote(draw);
      } else {
        actions := [];
      }
    }

    // ----------------------------------------------------------------
    // Elections
    // ----------------------------------------------------------------

    method OnVoteRequest(req: VoteRequest, draw: nat) returns (actions: seq<Action>)
      requires Valid()
      modifies this`hard, this`election, this`contact, this`reign, this`clock
      ensures Valid()
      ensures var o := HandleVoteRequest(old(State()), req, draw); State() == o.node && actions == o.actions
    {
      hide SetOf, Distinct, CandidateLogIsUpToDate;
      if req.clusterId != cfg.clusterId || election.role == Observer || !IsKnownVoter(cfg, req.candidateId) {
        return [];
      }
      if req.term < hard.term {
        var denial := VoteResponse(cfg.clusterId, hard.term, false, contact.leaderId);
        return [SendMessage(req.candidateId, VoteResp(denial))];
      }
      var raised, stepDown := req.term > hard.term, false;
      if raised {
        stepDown := Campaigning(election.role);
        FollowTerm(req.term, draw);
      }
      var before := hard.votedFor;
      var granted := GrantVote(req, draw);
      actions := if raised || hard.votedFor != before then [PersistHardState] else [];
      if stepDown {
        actions := actions + [AnnounceStepDown];
      }
      actions := actions
      + [SendMessage(req.candidateId, VoteResp(VoteResponse(cfg.clusterId, hard.term, granted, contact.leaderId)))];
    }

    /** The step-down inside a vote request; the no-op marker and the fetch cursor stay. */
    method FollowTerm(newTerm: nat, draw: nat)
      modifies this`hard, this`election, this`contact, this`reign, this`clock
      ensures State() == AdoptVoteTerm(old(State()), newTerm, draw)
    {
      hard := HardState(newTerm, None);
      election := Election(Follower, {}, {});
      contact := Contact(None, None, contact.lastFetchTick);
      reign := Tenure(reign.noOpIndex, None, 0);
      clock := clock.(timer := ElectionTimer(0, draw));
    }

    /** Decide the vote and record it. */
    method GrantVote(req: VoteRequest, draw: nat) returns (granted: bool)
      modifies this`hard, this`clock
      ensures granted == GrantsVote(old(State()), req)
      ensures State()
           == if granted then old(State()).(votedFor := Some(req.candidateId), timer := ElectionTimer(0, draw))
              else old(State())
    {
      var logOk := req.lastLogTerm > tail.term || (req.lastLogTerm == tail.term && req.lastLogIndex >= tail.index);
      var voteOk := hard.votedFor == None || hard.votedFor == Some(req.candidateId);
      granted := logOk && voteOk;
      if granted {
        hard := hard.(votedFor := Some(req.candidateId));
        clock := clock.(timer := ElectionTimer(0, draw));
      }
    }

    method OnVoteResponse(voter: NodeId, resp: VoteResponse, draw: nat) returns (actions: seq<Action>)
      requires Valid()
      modifies this
      ensures Valid()
      ensures var o := HandleVoteResponse(old(State()), voter, resp, draw); State() == o.node && actions == o.actions
    {
      hide SetOf, Distinct, BecomeLeader, BecomeFollower;
      actions := [];
      if resp.clusterId != cfg.clusterId || !IsKnownVoter(cfg, voter) {
        return;
      }
      if resp.term > hard.term {
        actions := StepDownTo(resp.term, None, draw);
        return;
      }
      if election.role != Candidate || resp.term != hard.term {
        return;
      }
      if resp.voteGranted {
        election := election.(votes := election.votes + {voter});
        if HasQuorum(cfg, election.votes) {
          actions := TakeLeadership(draw);
        }
      }
    }

    method OnPreVoteRequest(req: PreVoteRequest) returns (actions: seq<Action>)
      ensures actions == HandlePreVoteRequest(State(), req).actions
    {
      if req.clusterId != cfg.clusterId || election.role == Observer || !IsKnownVoter(cfg, req.candidateId) {
        return [];
      }
      var termOk := req.nextTerm > hard.term;
      var logOk := req.lastLogTerm > tail.term || (req.lastLogTerm == tail.term && req.lastLogIndex >= tail.index);
      var leaderActive :=
        election.role == Leader
        || (contact.lastLeaderContact.Some? && clock.tick - contact.lastLeaderContact.value < clock.timer.timeout);
      var granted := termOk && logOk && !leaderActive;
      return [SendMessage(req.candidateId,
                          PreVoteResp(PreVoteResponse(cfg.clusterId, hard.term, granted, contact.leaderId)))];
    }

    method OnPreVoteResponse(voter: NodeId, resp: PreVoteResponse, draw: nat) returns (actions: seq<Action>)
      requires Valid()
      modifies this
      ensures Valid()
      ensures var o := HandlePreVoteResponse(old(State()), voter, resp, draw); State() == o.node && actions == o.actions
    {
      hide SetOf, Distinct, BecomeCandidate, BecomeFollower;
      actions := [];
      if resp.clusterId != cfg.clusterId || !IsKnownVoter(cfg, voter) {
        return;
      }
      if resp.term > hard.term {
        actions := StepDownTo(resp.term, None, draw);
        return;
      }
      if election.role != PreCandidate {
        return;
      }
      if resp.voteGranted {
        election := election.(preVotes := election.preVotes + {voter});
        if HasQuorum(cfg, election.preVotes) {
          actions := StandForElection(draw);
        }
      }
    }

    // ----------------------------------------------------------------
    // Replication
    // ----------------------------------------------------------------

    method OnFetchRequest(req: FetchRequest, draw: nat) returns (actions: seq<Action>)
      requires Valid()
      modifies this
      ensures Valid()
      ensures var o := HandleFetchRequest(old(State()), req, draw); State() == o.node && actions == o.actions
    {
      hide SetOf, Distinct, BecomeFollower;
      actions := [];
      if req.clusterId != cfg.clusterId || req.replicaId == cfg.id {
        return;
      }
      if !IsKnownVoter(cfg, req.replicaId) && req.replicaId !in replicas.peers {
        return;
      }
      if req.leaderEpoch > hard.term {
        actions := StepDownTo(req.leaderEpoch, None, draw);
        return;
      }
      if election.role != Leader || req.fetchOffset == 0 {
        return;
      }
      Stamp(req.replicaId);
      var latest := snapshots.latest;
      if latest.Some? && req.fetchOffset <= latest.value.lastIncludedIndex {
        if latest.value.id != "" {
          return [RedirectToSnapshot(req.replicaId, cfg.clusterId, hard.term, cfg.id, progress.commitIndex,
                                     latest.value)];
        }
      }
      return [ServeFetch(req.replicaId, cfg.clusterId, hard.term, cfg.id, progress.commitIndex,
                         req.fetchOffset, req.lastFetchedEpoch)];
    }

    /** Liveness bookkeeping of an accepted fetch. */
    method Stamp(replica: NodeId)
      requires Valid()
      modifies this`replicas, this`contact
      ensures Valid() && State() == StampFetch(old(State()), replica)
    {
      replicas := replicas.(fetchSeq := replicas.fetchSeq + 1);
      if replica in replicas.peers {
        var peer := replicas.peers[replica].(lastFetchTime := clock.tick, lastFetchSeq := replicas.fetchSeq);
        replicas := replicas.(peers := replicas.peers[replica := peer]);
      }
      contact := contact.(lastLeaderContact := Some(clock.tick));
    }

    method OnFetchRequestAcked(replica: NodeId, confirmed: nat) returns (actions: seq<Action>)
      requires Valid()
      modifies this`replicas, this`progress, this`snapshots
      ensures Valid()
      ensures var o := HandleFetchRequestAcked(old(State()), replica, confirmed);
        State() == o.node && actions == o.actions
    {
      hide AdvanceAndDrain;
      actions := [];
      if election.role != Leader {
        return;
      }
      if !IsKnownVoter(cfg, replica) && replica !in replicas.peers {
        return;
      }
      var clamped := if confirmed < tail.index then confirmed else tail.index;
      if replica in replicas.peers {
        var peer := replicas.peers[replica];
        if clamped > peer.lastFetchOffset {
          peer := peer.(lastFetchOffset := clamped);
        }
        if peer.lastFetchOffset == tail.index {
          peer := peer.(lastCaughtUpTime := clock.tick);
        }
        replicas := replicas.(peers := replicas.peers[replica := peer]);
      }
      assert State() == RecordProgress(old(State()), replica, confirmed);
      actions := Advance();
    }

    /** Recognise the sender of an authoritative answer as leader. */
    method FollowLeader(resp: FetchResponse, draw: nat) returns (actions: seq<Action>)
      requires Valid() && !DropsAnswer(State(), resp)
      modifies this`hard, this`election, this`contact, this`reign, this`clock
      ensures Valid()
      ensures var o := RecogniseLeader(old(State()), resp, draw); State() == o.node && actions == o.actions
    {
      hide SetOf, Distinct;
      actions := [];
      if resp.leaderEpoch > hard.term {
        actions := StepDownTo(resp.leaderEpoch, Some(resp.leaderId), draw);
      }
      if election.role == Candidate || election.role == PreCandidate {
        var more := StepDownTo(hard.term, Some(resp.leaderId), draw);
        actions := actions + more;
      } else if contact.leaderId.None? {
        contact := contact.(leaderId := Some(resp.leaderId));
      }
      contact := contact.(lastLeaderContact := Some(clock.tick));
      clock := clock.(timer := ElectionTimer(0, draw));
    }

    method LearnCommitIndex(highWatermark: nat) returns (actions: seq<Action>)
      modifies this`progress, this`snapshots
      ensures var o := LearnCommit(old(State()), highWatermark); State() == o.node && actions == o.actions
    {
      actions := [];
      var newCommit := if highWatermark < tail.index then highWatermark else tail.index;
      if newCommit > progress.commitIndex {
        progress := progress.(commitIndex := newCommit);
        actions := Drain();
      }
    }

    method Consume(resp: FetchResponse) returns (actions: seq<Action>)
      requires Valid()
      modifies this`contact, this`tail, this`progress, this`snapshots
      ensures Valid()
      ensures var o := ConsumeAnswer(old(State()), resp); State() == o.node && actions == o.actions
    {
      hide SetOf, Distinct, LearnCommit, WellFormedBatch;
      if resp.snapshotRedirect.Some? {
        contact := contact.(lastFetchTick := Some(clock.tick));
        return [SendMessage(resp.leaderId, FetchSnapshotReq(FetchSnapshotRequest(
          cfg.clusterId, hard.term, cfg.id, resp.snapshotRedirect.value.snapshotId, 0, 0)))];
      }
      if resp.divergingEpoch.Some? {
        var d := resp.divergingEpoch.value;
        contact := contact.(lastFetchTick := Some(clock.tick));
        var refetch := FetchRequest(cfg.clusterId, hard.term, cfg.id, d.endOffset + 1, d.epoch);
        return [TruncateLog(SuffixFromInclusive(d.endOffset + 1)), SendMessage(resp.leaderId, FetchReq(refetch))];
      }
      actions := [];
      if resp.entries != [] {
        var ok := CheckBatch(resp.entries, tail.index + 1);
        if !ok {
          return;
        }
        var last := resp.entries[|resp.entries| - 1];
        actions := [AppendEntries(resp.entries)];
        tail := Tail(last.index, last.term);
      }
      var more := LearnCommitIndex(resp.highWatermark);
      actions := actions + more;
    }

    method OnFetchResponse(resp: FetchResponse, draw: nat) returns (actions: seq<Action>)
      requires Valid()
      modifies this
      ensures Valid()
      ensures var o := HandleFetchResponse(old(State()), resp, draw); State() == o.node && actions == o.actions
    {
      hide SetOf, Distinct, RecogniseLeader, ConsumeAnswer;
      actions := [];
      if resp.clusterId != cfg.clusterId || !resp.isLeader || !IsKnownVoter(cfg, resp.leaderId) {
        return;
      }
      if resp.leaderEpoch < hard.term {
        return;
      }
      if resp.leaderEpoch == hard.term {
        if election.role == Leader || (contact.leaderId.Some? && contact.leaderId.value != resp.leaderId) {
          return;
        }
      }
      actions := FollowLeader(resp, draw);
      var more := Consume(resp);
      actions := actions + more;
    }

    method OnClientPropose(command: seq<bv8>) returns (actions: seq<Action>)
      requires Valid()
      modifies this`tail, this`progress, this`snapshots
      ensures Valid()
      ensures var o := HandleClientPropose(old(State()), command); State() == o.node && actions == o.actions
    {
      hide SetOf, Distinct, AdvanceAndDrain;
      if election.role != Leader {
        return [];
      }
      var entry := Entry(tail.index + 1, hard.term, Command(command));
      tail := Tail(entry.index, entry.term);
      var more := Advance();
      actions := [AppendEntries([entry])] + more;
    }

    // ----------------------------------------------------------------
    // Snapshots
    // ----------------------------------------------------------------

    method OnSnapshotComplete(metadata: SnapshotMeta) returns (actions: seq<Action>)
      requires Valid()
      modifies this`snapshots
      ensures Valid()
      ensures var o := HandleSnapshotComplete(old(State()), metadata); State() == o.node && actions == o.actions
    {
      var isFresh := IsSnapshotMetaNewer(snapshots.latest, metadata);
      snapshots := snapshots.(inFlight := false);
      if !isFresh {
        return [];
      }
      snapshots := snapshots.(latest := Some(metadata));
      return [TruncateLog(PrefixThroughInclusive(metadata.lastIncludedIndex))];
    }

    method OnSnapshotInstalled(metadata: SnapshotMeta)
      requires Valid()
      modifies this`progress, this`tail, this`snapshots
      ensures Valid() && State() == HandleSnapshotInstalled(old(State()), metadata).node
    {
      hide SetOf, Distinct;
      var through := metadata.lastIncludedIndex;
      if through > progress.lastApplied {
        progress := progress.(lastApplied := through);
      }
      if through > progress.commitIndex {
        progress := progress.(commitIndex := through);
      }
      if through > tail.index {
        tail := Tail(through, metadata.lastIncludedTerm);
      }
      if IsSnapshotMetaNewer(snapshots.latest, metadata) {
        snapshots := snapshots.(latest := Some(metadata));
      }
      snapshots := snapshots.(inFlight := false);
    }

    // ----------------------------------------------------------------
    // Step
    // ----------------------------------------------------------------

    /** The driver's report of the durable log's tail. */
    method MirrorLastLog(index: nat, lastTerm: nat)
      requires Valid()
      modifies this`tail
      ensures Valid() && State() == SetLastLog(old(State()), index, lastTerm)
    {
      tail := Tail(index, lastTerm);
    }

    /**
     One input: the object's step is the engine's step. The term does not fall, a vote stays
     within its term, a lost leadership stays lost, and a changed term or vote is persisted
     before anything is said on its strength.
     */
    method Feed(input: Input, draw: nat) returns (actions: seq<Action>)
      requires Valid()
      modifies this
      ensures Valid()
      ensures State() == Step(old(State()), input, draw).node && actions == Step(old(State()), input, draw).actions
      ensures EngineRuns.Onward(old(State()), State()) && EngineElections.Guarded(old(State()), Out(State(), actions))
    {
      StepPromises(State(), input, draw);
      hide EngineRuns.Onward, EngineElections.Guarded;
      hide SetOf, Distinct, HandleTick, HandleVoteRequest, HandleVoteResponse, HandlePreVoteResponse,
        HandleFetchRequest,
        HandleFetchResponse, HandleClientPropose, HandleFetchRequestAcked;
      match input
      case Tick => actions := OnTick(draw);
      case VoteRequested(req) => actions := OnVoteRequest(req, draw);
      case VoteAnswered(voter, resp) => actions := OnVoteResponse(voter, resp, draw);
      case PreVoteRequested(req) => actions := OnPreVoteRequest(req);
      case PreVoteAnswered(voter, resp) => actions := OnPreVoteResponse(voter, resp, draw);
      case FetchRequested(req) => actions := OnFetchRequest(req, draw);
      case FetchAnswered(resp) => actions := OnFetchResponse(resp, draw);
      case ClientPropose(command) => actions := OnClientPropose(command);
      case FetchRequestAcked(replica, confirmed) => actions := OnFetchRequestAcked(replica, confirmed);
      case SnapshotComplete(metadata) => actions := OnSnapshotComplete(metadata);
      case SnapshotInstalled(metadata) =>
        OnSnapshotInstalled(metadata);
        actions := [];
      case FetchSnapshotReceived(metadata, data) =>
        actions := if metadata.lastIncludedIndex <= progress.lastApplied then [] else [InstallSnapshot(metadata, data)];
    }
  }
}
