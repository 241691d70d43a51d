/** Each server step is matched by protocol steps of the corresponding member. */
module Simulation {
  import opened Base
  import opened Messages
  import opened Quorums
  import opened OrderStatistics
  import opened Engine
  import opened EngineQuorum
  import opened Driver
  import P = Protocol
  import ProtocolHistory
  import opened ProtocolSteps

  ghost function StandingOf(role: Role): P.Standing {
    match role
    case Leader => P.Leader
    case Candidate => P.Candidate
    case _ => P.Follower
  }

  /** A leader's recorded progress and its no-op marker. */
  ghost predicate LeaderMirrors(sv: Server, m: P.Member) {
    && sv.node.leaderNoOpIndex.Some?
    && 1 <= sv.node.leaderNoOpIndex.value <= |sv.log|
    && sv.log[sv.node.leaderNoOpIndex.value - 1].term == sv.node.term
    && forall p :: p in sv.node.peers ==> P.Progress(m, p) == sv.node.peers[p].lastFetchOffset
  }

  /** The server is in the state the protocol member describes; its engine's mirror matches its log. */
  ghost predicate Mirrors(sv: Server, m: P.Member) {
    var n := sv.node;
    && m.term == n.term && m.vote == n.votedFor && m.log == sv.log && m.commit == n.commitIndex
    && m.standing == StandingOf(n.role)
    && (n.role == Candidate ==> m.votes == n.votesReceived)
    && (n.role == Leader ==> LeaderMirrors(sv, m))
    && n.lastLogIndex == |sv.log| && n.lastLogTerm == LastTerm(sv.log) && Indexed(sv.log)
    && n.lastSnapshotMeta == None && PeersOk(n)
    && n.lastApplied <= n.commitIndex <= |sv.log| && sv.applied == sv.log[..n.lastApplied]
  }

  ghost predicate ConfigOk(cfg: Config, id: NodeId, voters: set<NodeId>) {
    cfg.id == id && cfg.voters.Some? && Distinct(cfg.voters.value) && cfg.voters.value != [] && VoterIds(cfg) == voters
  }

  /** Server `sv` is member `id` of a system in a good state. */
  ghost predicate Ready(s: P.System, id: NodeId, sv: Server) {
    && P.Inv(s) && id in s.members && Mirrors(sv, s.members[id]) && ConfigOk(sv.node.cfg, id, s.voters)
  }

  /** `s'` follows `s` by steps of member `id` alone and describes `sv'`. */
  ghost predicate Sim(s: P.System, s': P.System, id: NodeId, sv: Server, sv': Server) {
    && Ready(s', id, sv') && sv'.node.cfg == sv.node.cfg
    && ProtocolHistory.Later(s, s')
    && (forall m :: m in s.members && m != id ==> s'.members[m] == s.members[m])
  }

  lemma SimReflexive(s: P.System, id: NodeId, sv: Server)
    requires Ready(s, id, sv)
    ensures Sim(s, s, id, sv, sv)
  {
  }

  lemma SimTransitive(s: P.System, s': P.System, s'': P.System, id: NodeId, sv: Server, sv': Server, sv'': Server)
    requires Sim(s, s', id, sv, sv') && Sim(s', s'', id, sv', sv'')
    ensures Sim(s, s'', id, sv, sv'')
  {
    ProtocolHistory.LaterTransitive(s, s', s'');
  }

  // ------------------------------------------------------------------
  // Engine changes without protocol meaning
  // ------------------------------------------------------------------

  /** The nodes agree on everything the protocol can see. */
  ghost predicate SameCore(n: Node, n': Node) {
    && n'.cfg == n.cfg && n'.role == n.role && n'.term == n.term && n'.votedFor == n.votedFor
    && n'.commitIndex == n.commitIndex && n'.lastApplied == n.lastApplied
    && n'.lastLogIndex == n.lastLogIndex && n'.lastLogTerm == n.lastLogTerm
    && n'.votesReceived == n.votesReceived && n'.leaderNoOpIndex == n.leaderNoOpIndex
    && n'.lastSnapshotMeta == n.lastSnapshotMeta && n'.peers.Keys == n.peers.Keys
    && forall p :: p in n.peers ==>
         n'.peers[p].isVoter == n.peers[p].isVoter && n'.peers[p].lastFetchOffset == n.peers[p].lastFetchOffset
  }

  lemma SameMirrors(sv: Server, n': Node, m: P.Member)
    requires Mirrors(sv, m) && SameCore(sv.node, n')
    ensures Mirrors(sv.(node := n'), m)
  {
  }

  lemma SameSim(s: P.System, id: NodeId, sv: Server, n': Node)
    requires Ready(s, id, sv) && SameCore(sv.node, n')
    ensures Sim(s, s, id, sv, sv.(node := n'))
  {
    SameMirrors(sv, n', s.members[id]);
  }

  // ------------------------------------------------------------------
  // Stepping down
  // ------------------------------------------------------------------

  lemma FollowerMirrors(sv: Server, m: P.Member, m': P.Member, term: nat, leader: Option<NodeId>, draw: nat)
    requires Mirrors(sv, m)
    requires m' == if term > sv.node.term
                   then m.(term := term, vote := None, standing := P.Follower, votes := {})
                   else m.(standing := P.Follower, votes := {})
    ensures Mirrors(sv.(node := BecomeFollower(sv.node, term, leader, draw).node), m')
  {
  }

  lemma FollowerSim(s: P.System, id: NodeId, sv: Server, term: nat, leader: Option<NodeId>, draw: nat)
    returns (s': P.System)
    requires Ready(s, id, sv)
    ensures Sim(s, s', id, sv, sv.(node := BecomeFollower(sv.node, term, leader, draw).node))
  {
    hide P.Inv, ProtocolHistory.Later;
    if term > sv.node.term {
      AdoptTermInv(s, id, term);
      s' := P.AdoptTerm(s, id, term);
    } else {
      StepDownInv(s, id);
      s' := P.StepDown(s, id);
    }
    FollowerMirrors(sv, s.members[id], s'.members[id], term, leader, draw);
  }

  // ------------------------------------------------------------------
  // Commit and apply
  // ------------------------------------------------------------------

  /** Raising the commit index within the log applies exactly the newly committed entries. */
  lemma DrainMirrors(sv: Server, m: P.Member, c: nat)
    requires Mirrors(sv, m) && sv.node.commitIndex < c <= |sv.log|
    ensures var o := DrainApplyPipeline(sv.node.(commitIndex := c));
      && Mirrors(Execute(sv.(node := o.node), o.actions), m.(commit := c))
      && Execute(sv.(node := o.node), o.actions).node.cfg == sv.node.cfg
  {
    var n := sv.node.(commitIndex := c);
    var o := DrainApplyPipeline(n);
    var apply := ApplyToStateMachine(n.lastApplied + 1, c);
    var sv1 := sv.(node := o.node);
    var snap := MaybeTakeSnapshot(MaybeApply(n).node).actions;
    assert o.actions == [apply] + snap;
    ExecuteAppend(sv1, [apply], snap);
    ExecuteHarmless(Execute(sv1, [apply]), snap);
    assert Execute(sv1, [apply]) == Perform(sv1, apply) by {
      assert [apply][1..] == [];
    }
    assert sv.log[..n.lastApplied] + sv.log[n.lastApplied..c] == sv.log[..c];
  }

  /** A commit index the rule allows is supported by a majority of the protocol's progress records. */
  lemma CandidateSupported(s: P.System, id: NodeId, sv: Server)
    requires Ready(s, id, sv) && CommitCandidate(sv.node).Some?
    ensures var c := CommitCandidate(sv.node).value;
      P.CanAdvance(s, id, c) && sv.node.commitIndex < c <= |sv.log|
  {
    hide P.Inv, ProtocolHistory.Later;
    var n, m := sv.node, s.members[id];
    var c := CommitCandidate(n).value;
    OffsetsAreVoters(n, n.cfg.voters.value);
    QuorumOffsetIsExact(n, c);
    assert c == QuorumOffset(n);
    LeaderFacts(s, id);
    assert c <= |sv.log| by {
      var v := SomeReaching(n, c);
      if v != id {
        assert P.Progress(m, v) == n.peers[v].lastFetchOffset;
      }
    }
    forall v | v in Reaching(n, c) ensures v in P.Supporters(s, id, c) {
      if v != id {
        assert P.Progress(m, v) == n.peers[v].lastFetchOffset;
      }
    }
    assert Reaching(n, c) * s.voters == Reaching(n, c);
    MajorityGrows(Reaching(n, c), P.Supporters(s, id, c), s.voters);
    OwnTermAbove(s, sv.log, n.leaderNoOpIndex.value, c, n.term);
  }

  lemma LeaderFacts(s: P.System, id: NodeId)
    requires P.Inv(s) && id in s.members && s.members[id].standing == P.Leader
    ensures P.LeaderOk(s, id)
  {
  }

  lemma SomeReaching(n: Node, k: int) returns (v: NodeId)
    requires |Reaching(n, k)| >= 1
    ensures v in Reaching(n, k)
  {
    v :| v in Reaching(n, k);
  }

  /** From the no-op on, a leader's entries are of its own term. */
  lemma OwnTermAbove(s: P.System, log: seq<Entry>, k: nat, j: nat, t: nat)
    requires P.Inv(s) && t in s.reigns && s.reigns[t].log == log
    requires 1 <= k <= j <= |log| && log[k - 1].term == t
    ensures log[j - 1].term == t
  {
    assert P.ReignOk(s, t);
    P.BidPart(s, t);
  }

  lemma AdvanceSim(s: P.System, id: NodeId, sv: Server) returns (s': P.System)
    requires Ready(s, id, sv)
    ensures Sim(s, s', id, sv, Execute(sv.(node := AdvanceAndDrain(sv.node).node), AdvanceAndDrain(sv.node).actions))
  {
    hide P.Inv, ProtocolHistory.Later;
    if CommitCandidate(sv.node).None? {
      SimReflexive(s, id, sv);
      s' := s;
    } else {
      var c := CommitCandidate(sv.node).value;
      CandidateSupported(s, id, sv);
      AdvanceInv(s, id, c);
      s' := P.Advance(s, id, c);
      DrainMirrors(sv, s.members[id], c);
    }
  }

  // ------------------------------------------------------------------
  // Elections
  // ------------------------------------------------------------------

  lemma EnterLeaderMirrors(sv: Server, m: P.Member, draw: nat)
    requires Mirrors(sv, m) && sv.node.role == Candidate
    ensures var e := NoOpEntry(sv.node);
      Mirrors(Server(EnterLeader(sv.node, draw), sv.log + [e], sv.applied),
              m.(standing := P.Leader, votes := {}, log := m.log + [e], progress := map[]))
  {
    var e := NoOpEntry(sv.node);
    assert (sv.log + [e])[..sv.node.lastApplied] == sv.log[..sv.node.lastApplied];
  }

  /** Winning an election appends the no-op and may commit at once. */
  lemma LeaderSim(s: P.System, id: NodeId, sv: Server, draw: nat) returns (s': P.System)
    requires Ready(s, id, sv) && sv.node.role == Candidate && HasQuorum(sv.node.cfg, sv.node.votesReceived)
    ensures var o := BecomeLeader(sv.node, draw);
      Sim(s, s', id, sv, Execute(sv.(node := o.node), o.actions))
  {
    hide P.Inv, ProtocolHistory.Later;
    var n, e := sv.node, NoOpEntry(sv.node);
    ElectInv(s, id, e);
    var s1 := P.Elect(s, id, e);
    var sv1 := Server(EnterLeader(n, draw), sv.log + [e], sv.applied);
    EnterLeaderMirrors(sv, s.members[id], draw);
    assert Sim(s, s1, id, sv, sv1);
    s' := AdvanceSim(s1, id, sv1);
    var o := AdvanceAndDrain(sv1.node);
    LeaderExecutes(sv, o.node, e, o.actions);
    SimTransitive(s, s1, s', id, sv, sv1, Execute(sv1.(node := o.node), o.actions));
  }

  lemma LeaderExecutes(sv: Server, n': Node, e: Entry, rest: seq<Action>)
    ensures Execute(sv.(node := n'), [AnnounceLeader, AppendEntries([e])] + rest)
      == Execute(Server(n', sv.log + [e], sv.applied), rest)
  {
    var a := [AnnounceLeader, AppendEntries([e])] + rest;
    assert a[1..] == [AppendEntries([e])] + rest;
    assert a[1..][1..] == rest;
  }

  // ------------------------------------------------------------------
  // What a message in flight promises
  // ------------------------------------------------------------------

  /** A fetch request's claim about its sender's log: an entry of the sender's own term has been acknowledged. */
  ghost predicate ClaimOk(s: P.System, r: FetchRequest) {
    && r.lastFetchedEpoch <= r.leaderEpoch
    && (r.fetchOffset >= 2 && r.lastFetchedEpoch == r.leaderEpoch ==>
          P.Acked(s, r.leaderEpoch, r.replicaId, r.fetchOffset - 1) && P.OwnEntry(s, r.leaderEpoch, r.fetchOffset - 1))
  }

  ghost predicate MessageOk(s: P.System, src: NodeId, dst: NodeId, message: Message) {
    match message
    case VoteReq(r) =>
      && (r.term, r.candidateId) in s.bids
      && r.lastLogIndex == |s.bids[(r.term, r.candidateId)]|
      && r.lastLogTerm == LastTerm(s.bids[(r.term, r.candidateId)])
    case VoteResp(r) => r.voteGranted ==> (r.term, src) in s.ballots && s.ballots[(r.term, src)] == dst
    case FetchReq(r) => r.replicaId == src && ClaimOk(s, r)
    case _ => true
  }

  ghost predicate ActionsOk(s: P.System, id: NodeId, actions: seq<Action>) {
    forall a :: a in actions && a.SendMessage? ==> MessageOk(s, id, a.to, a.message)
  }

  lemma MessageStays(s: P.System, s': P.System, src: NodeId, dst: NodeId, message: Message)
    requires ProtocolHistory.Later(s, s') && MessageOk(s, src, dst, message)
    ensures MessageOk(s', src, dst, message)
  {
    if message.FetchReq? {
      var r := message.fetchRequest;
      assert P.AckedTo(s, r.leaderEpoch, r.replicaId) <= P.AckedTo(s', r.leaderEpoch, r.replicaId);
      if r.fetchOffset >= 2 && P.OwnEntry(s, r.leaderEpoch, r.fetchOffset - 1) {
        assert s.reigns[r.leaderEpoch].log[r.fetchOffset - 2] == s'.reigns[r.leaderEpoch].log[r.fetchOffset - 2];
      }
    }
  }

  lemma ActionsStay(s: P.System, s': P.System, id: NodeId, actions: seq<Action>)
    requires ProtocolHistory.Later(s, s') && ActionsOk(s, id, actions)
    ensures ActionsOk(s', id, actions)
  {
    forall a | a in actions && a.SendMessage? ensures MessageOk(s', id, a.to, a.message) {
      MessageStays(s, s', id, a.to, a.message);
    }
  }

  /** A broadcast of one good message touches no log and sends only good messages. */
  lemma BroadcastOk(s: P.System, id: NodeId, n: Node, message: Message)
    requires message.VoteReq? || message.FetchReq? || message.PreVoteReq?
    requires forall dst :: MessageOk(s, id, dst, message)
    ensures ActionsOk(s, id, Broadcast(n.cfg.peerOrder, n.peers, message))
    ensures forall a :: a in Broadcast(n.cfg.peerOrder, n.peers, message) ==> Harmless(a)
  {
    BroadcastSends(n.cfg.peerOrder, n.peers, message);
  }

  // ------------------------------------------------------------------
  // Candidacy
  // ------------------------------------------------------------------

  lemma DrainSilent(n: Node)
    ensures forall a :: a in DrainApplyPipeline(n).actions ==> !a.SendMessage?
  {
  }

  lemma AdvanceSilent(n: Node)
    ensures forall a :: a in AdvanceAndDrain(n).actions ==> !a.SendMessage?
  {
    if CommitCandidate(n).Some? {
      DrainSilent(n.(commitIndex := CommitCandidate(n).value));
    }
  }

  lemma LeaderSilent(n: Node, draw: nat)
    ensures forall a :: a in BecomeLeader(n, draw).actions ==> !a.SendMessage?
  {
    AdvanceSilent(EnterLeader(n, draw));
  }

  lemma EnterCandidateMirrors(sv: Server, m: P.Member, draw: nat)
    requires Mirrors(sv, m)
    ensures Mirrors(sv.(node := EnterCandidate(sv.node, draw)),
                    m.(term := m.term + 1, vote := Some(sv.node.cfg.id), standing := P.Candidate,
                       votes := {sv.node.cfg.id}))
  {
  }

  lemma CandidateSim(s: P.System, id: NodeId, sv: Server, draw: nat) returns (s': P.System)
    requires Ready(s, id, sv)
    ensures var o := BecomeCandidate(sv.node, draw);
      Sim(s, s', id, sv, Execute(sv.(node := o.node), o.actions)) && ActionsOk(s', id, o.actions)
  {
    hide P.Inv, ProtocolHistory.Later;
    var c := EnterCandidate(sv.node, draw);
    var s1, sv1 := P.Stand(s, id), sv.(node := c);
    StandInv(s, id);
    EnterCandidateMirrors(sv, s.members[id], draw);
    var request := VoteReq(VoteRequest(c.cfg.clusterId, c.term, c.cfg.id, c.lastLogIndex, c.lastLogTerm));
    var sent := [PersistHardState] + Broadcast(c.cfg.peerOrder, c.peers, request);
    BroadcastOk(s1, id, c, request);
    var o := BecomeCandidate(sv.node, draw);
    ExecuteHarmless(sv.(node := o.node), sent);
    if HasQuorum(c.cfg, c.votesReceived) {
      s' := LeaderSim(s1, id, sv1, draw);
      var l := BecomeLeader(c, draw);
      LeaderSilent(c, draw);
      ExecuteAppend(sv.(node := o.node), sent, l.actions);
      SimTransitive(s, s1, s', id, sv, sv1, Execute(sv1.(node := l.node), l.actions));
      ActionsStay(s1, s', id, sent);
    } else {
      s' := s1;
    }
  }

  /** Entering the pre-candidate phase is a step-down as far as the protocol can see. */
  lemma EnterPreCandidateMirrors(sv: Server, m: P.Member, draw: nat)
    requires Mirrors(sv, m)
    ensures Mirrors(sv.(node := EnterPreCandidate(sv.node, draw)), m.(standing := P.Follower, votes := {}))
  {
  }

  lemma PreCandidateSim(s: P.System, id: NodeId, sv: Server, draw: nat) returns (s': P.System)
    requires Ready(s, id, sv)
    ensures var o := BecomePreCandidate(sv.node, draw);
      Sim(s, s', id, sv, Execute(sv.(node := o.node), o.actions)) && ActionsOk(s', id, o.actions)
  {
    hide P.Inv, ProtocolHistory.Later;
    var p := EnterPreCandidate(sv.node, draw);
    var s1, sv1 := P.StepDown(s, id), sv.(node := p);
    StepDownInv(s, id);
    EnterPreCandidateMirrors(sv, s.members[id], draw);
    var request := PreVoteReq(PreVoteRequest(p.cfg.clusterId, p.term + 1, p.cfg.id, p.lastLogIndex, p.lastLogTerm));
    var sent := Broadcast(p.cfg.peerOrder, p.peers, request);
    BroadcastOk(s1, id, p, request);
    var o := BecomePreCandidate(sv.node, draw);
    ExecuteHarmless(sv.(node := o.node), sent);
    if HasQuorum(p.cfg, p.preVotesReceived) {
      s' := CandidateSim(s1, id, sv1, draw);
      var l := BecomeCandidate(p, draw);
      ExecuteAppend(sv.(node := o.node), sent, l.actions);
      SimTransitive(s, s1, s', id, sv, sv1, Execute(sv1.(node := l.node), l.actions));
      ActionsStay(s1, s', id, sent);
    } else {
      s' := s1;
    }
  }

  // ------------------------------------------------------------------
  // Ticks and fetch requests
  // ------------------------------------------------------------------

  lemma LogTermsFacts(s: P.System, id: NodeId)
    requires P.Inv(s) && id in s.members
    ensures LastTerm(s.members[id].log) <= s.members[id].term
    ensures P.Grounded(s, s.members[id].log)
  {
  }

  /** Announcing `(k, epoch)` from the own log is an acknowledgement where the entry is of the own term. */
  lemma ClaimSim(s: P.System, id: NodeId, sv: Server, r: FetchRequest) returns (s': P.System)
    requires Ready(s, id, sv) && r.replicaId == id && r.leaderEpoch == sv.node.term
    requires 1 <= r.fetchOffset <= |sv.log| + 1 && r.lastFetchedEpoch == TermAt(sv.log, r.fetchOffset - 1)
    ensures Sim(s, s', id, sv, sv) && ClaimOk(s', r)
  {
    hide P.Inv, ProtocolHistory.Later;
    var k := r.fetchOffset - 1;
    ClaimTerm(s, id, k);
    if k >= 1 && r.lastFetchedEpoch == sv.node.term {
      LogTermsFacts(s, id);
      ProtocolHistory.AckOwn(s, id, k);
      AckInv(s, id, k);
      s' := P.Ack(s, id, k);
    } else {
      SimReflexive(s, id, sv);
      s' := s;
    }
  }

  lemma ClaimTerm(s: P.System, id: NodeId, k: nat)
    requires P.Inv(s) && id in s.members && k <= |s.members[id].log|
    ensures TermAt(s.members[id].log, k) <= s.members[id].term
  {
  }

  lemma ScheduleFetchSame(n: Node)
    ensures SameCore(n, ScheduleFetch(n).node)
    ensures forall a :: a in ScheduleFetch(n).actions ==> a.SendMessage? && a.message == FetchReq(NextFetch(n))
  {
    BroadcastSends(n.cfg.peerOrder, n.peers, FetchReq(NextFetch(n)));
  }

  /** The fetch part of a tick. */
  lemma FetchSim(s: P.System, id: NodeId, sv: Server) returns (s': P.System)
    requires Ready(s, id, sv)
    ensures var f := ScheduleFetch(AdvanceClock(sv.node));
      && Sim(s, s', id, sv, sv.(node := f.node)) && ActionsOk(s', id, f.actions)
      && forall a :: a in f.actions ==> Harmless(a)
  {
    hide P.Inv, ProtocolHistory.Later;
    var n := AdvanceClock(sv.node);
    var f := ScheduleFetch(n);
    ScheduleFetchSame(n);
    var s1 := ClaimSim(s, id, sv, NextFetch(n));
    SameSim(s1, id, sv, f.node);
    SimTransitive(s, s1, s1, id, sv, sv, sv.(node := f.node));
    s' := s1;
  }

  /** Running `o` after harmless actions `before` that already happened to `sv1`. */
  lemma AfterHarmless(s: P.System, s1: P.System, s2: P.System, id: NodeId, sv: Server, sv1: Server,
                      before: seq<Action>, o: Out)
    requires Sim(s, s1, id, sv, sv1) && sv1.log == sv.log && sv1.applied == sv.applied
    requires forall a :: a in before ==> Harmless(a)
    requires ActionsOk(s1, id, before) && ActionsOk(s2, id, o.actions)
    requires Sim(s1, s2, id, sv1, Execute(sv1.(node := o.node), o.actions))
    ensures Sim(s, s2, id, sv, Execute(sv.(node := o.node), before + o.actions))
    ensures ActionsOk(s2, id, before + o.actions)
  {
    hide P.Inv, ProtocolHistory.Later;
    ExecuteHarmless(sv.(node := o.node), before);
    ExecuteAppend(sv.(node := o.node), before, o.actions);
    SimTransitive(s, s1, s2, id, sv, sv1, Execute(sv1.(node := o.node), o.actions));
    ActionsStay(s1, s2, id, before);
  }

  lemma TickRoleSim(s: P.System, id: NodeId, sv: Server, draw: nat) returns (s': P.System)
    requires Ready(s, id, sv)
    ensures var o := TickRole(sv.node, draw);
      Sim(s, s', id, sv, Execute(sv.(node := o.node), o.actions)) && ActionsOk(s', id, o.actions)
  {
    hide P.Inv, ProtocolHistory.Later;
    var m, o := sv.node, TickRole(sv.node, draw);
    var c := if CheckQuorumFails(m) || (m.role == Leader && m.cfg.enableCheckQuorum) then CheckQuorum(m) else m;
    var sv1 := sv.(node := c);
    SameSim(s, id, sv, c);
    if CheckQuorumFails(m) {
      s' := FollowerSim(s, id, sv1, m.term, None, draw);
      ExecuteHarmless(sv.(node := o.node), o.actions);
      SimTransitive(s, s, s', id, sv, sv1, sv.(node := o.node));
    } else if c.timer.elapsed >= c.timer.timeout && c.role != Leader && c.role != Observer {
      s' := PreCandidateSim(s, id, sv1, draw);
      SimTransitive(s, s, s', id, sv, sv1, Execute(sv.(node := o.node), o.actions));
    } else {
      SimReflexive(s, id, sv);
      s' := s;
    }
  }

  lemma TickSim(s: P.System, id: NodeId, sv: Server, draw: nat) returns (s': P.System)
    requires Ready(s, id, sv)
    ensures var o := HandleTick(sv.node, draw);
      Sim(s, s', id, sv, Execute(sv.(node := o.node), o.actions)) && ActionsOk(s', id, o.actions)
  {
    hide P.Inv, ProtocolHistory.Later;
    var f := ScheduleFetch(AdvanceClock(sv.node));
    var s1 := FetchSim(s, id, sv);
    var sv1 := sv.(node := f.node);
    s' := TickRoleSim(s1, id, sv1, draw);
    AfterHarmless(s, s1, s', id, sv, sv1, f.actions, TickRole(f.node, draw));
  }

  // ------------------------------------------------------------------
  // Votes
  // ------------------------------------------------------------------

  lemma AdoptVoteMirrors(sv: Server, m: P.Member, term: nat, draw: nat)
    requires Mirrors(sv, m)
    ensures Mirrors(sv.(node := AdoptVoteTerm(sv.node, term, draw)),
                    m.(term := term, vote := None, standing := P.Follower, votes := {}))
  {
  }

  lemma GrantMirrors(sv: Server, m: P.Member, c: NodeId, draw: nat)
    requires Mirrors(sv, m)
    ensures Mirrors(sv.(node := sv.node.(votedFor := Some(c), timer := ElectionTimer(0, draw))), m.(vote := Some(c)))
  {
  }

  /** The node after its term has been reconciled with a vote request's. */
  function Reconciled(n: Node, req: VoteRequest, draw: nat): Node {
    if req.term > n.term then AdoptVoteTerm(n, req.term, draw) else n
  }

  lemma ReconcileSim(s: P.System, id: NodeId, sv: Server, req: VoteRequest, draw: nat) returns (s': P.System)
    requires Ready(s, id, sv)
    ensures Sim(s, s', id, sv, sv.(node := Reconciled(sv.node, req, draw)))
  {
    hide P.Inv, ProtocolHistory.Later;
    if req.term > sv.node.term {
      AdoptTermInv(s, id, req.term);
      s' := P.AdoptTerm(s, id, req.term);
      AdoptVoteMirrors(sv, s.members[id], req.term, draw);
    } else {
      SimReflexive(s, id, sv);
      s' := s;
    }
  }

  lemma GrantSim(s: P.System, id: NodeId, sv: Server, req: VoteRequest, draw: nat) returns (s': P.System)
    requires Ready(s, id, sv) && req.term == sv.node.term && GrantsVote(sv.node, req)
    requires MessageOk(s, req.candidateId, id, VoteReq(req))
    ensures var n' := sv.node.(votedFor := Some(req.candidateId), timer := ElectionTimer(0, draw));
      Sim(s, s', id, sv, sv.(node := n'))
    ensures (req.term, id) in s'.ballots && s'.ballots[(req.term, id)] == req.candidateId
  {
    hide P.Inv, ProtocolHistory.Later;
    CastInv(s, id, req.candidateId);
    s' := P.Cast(s, id, req.candidateId);
    GrantMirrors(sv, s.members[id], req.candidateId, draw);
  }

  predicate DropsVoteRequest(n: Node, req: VoteRequest) {
    req.clusterId != n.cfg.clusterId || n.role == Observer || !IsKnownVoter(n.cfg, req.candidateId) || req.term < n.term
  }

  /** The node after a vote request and the one reply it sends. */
  lemma VoteRequestShape(n: Node, req: VoteRequest, draw: nat)
    ensures var o := HandleVoteRequest(n, req, draw);
      var m := Reconciled(n, req, draw);
      var granted := !DropsVoteRequest(n, req) && GrantsVote(m, req);
      && o.node == (if DropsVoteRequest(n, req) then n
                    else if granted then m.(votedFor := Some(req.candidateId), timer := ElectionTimer(0, draw)) else m)
      && (forall a :: a in o.actions ==> Harmless(a))
      && (forall a :: a in o.actions && a.SendMessage? ==>
            a.to == req.candidateId && a.message.VoteResp?
            && a.message.voteResponse.term == o.node.term && (a.message.voteResponse.voteGranted ==> granted))
  {
  }

  lemma VoteRequestSim(s: P.System, id: NodeId, sv: Server, req: VoteRequest, draw: nat) returns (s': P.System)
    requires Ready(s, id, sv) && MessageOk(s, req.candidateId, id, VoteReq(req))
    ensures var o := HandleVoteRequest(sv.node, req, draw);
      Sim(s, s', id, sv, Execute(sv.(node := o.node), o.actions)) && ActionsOk(s', id, o.actions)
  {
    hide P.Inv, ProtocolHistory.Later, Mirrors, HandleVoteRequest, Distinct;
    var n, o := sv.node, HandleVoteRequest(sv.node, req, draw);
    VoteRequestShape(n, req, draw);
    ExecuteHarmless(sv.(node := o.node), o.actions);
    if DropsVoteRequest(n, req) {
      SimReflexive(s, id, sv);
      s' := s;
    } else {
      var m := Reconciled(n, req, draw);
      var sv1 := sv.(node := m);
      s' := ReconcileSim(s, id, sv, req, draw);
      if GrantsVote(m, req) {
        var s1 := s';
        MessageStays(s, s1, req.candidateId, id, VoteReq(req));
        s' := GrantSim(s1, id, sv1, req, draw);
        SimTransitive(s, s1, s', id, sv, sv1, sv.(node := o.node));
      }
    }
  }

  lemma CollectMirrors(sv: Server, m: P.Member, v: NodeId)
    requires Mirrors(sv, m) && sv.node.role == Candidate
    ensures Mirrors(sv.(node := sv.node.(votesReceived := sv.node.votesReceived + {v})), m.(votes := m.votes + {v}))
  {
  }

  lemma VoteResponseSim(s: P.System, id: NodeId, sv: Server, voter: NodeId, resp: VoteResponse, draw: nat)
    returns (s': P.System)
    requires Ready(s, id, sv) && MessageOk(s, voter, id, VoteResp(resp))
    ensures var o := HandleVoteResponse(sv.node, voter, resp, draw);
      Sim(s, s', id, sv, Execute(sv.(node := o.node), o.actions)) && ActionsOk(s', id, o.actions)
  {
    hide P.Inv, ProtocolHistory.Later;
    var n, o := sv.node, HandleVoteResponse(sv.node, voter, resp, draw);
    if resp.clusterId != n.cfg.clusterId || !IsKnownVoter(n.cfg, voter) {
      SimReflexive(s, id, sv);
      s' := s;
    } else if resp.term > n.term {
      ExecuteHarmless(sv.(node := o.node), o.actions);
      s' := FollowerSim(s, id, sv, resp.term, None, draw);
    } else if n.role != Candidate || resp.term != n.term || !resp.voteGranted {
      SimReflexive(s, id, sv);
      s' := s;
    } else {
      var m := n.(votesReceived := n.votesReceived + {voter});
      var sv1, s1 := sv.(node := m), P.Collect(s, id, voter);
      CollectInv(s, id, voter);
      CollectMirrors(sv, s.members[id], voter);
      assert Sim(s, s1, id, sv, sv1);
      if HasQuorum(m.cfg, m.votesReceived) {
        s' := LeaderSim(s1, id, sv1, draw);
        LeaderSilent(m, draw);
        SimTransitive(s, s1, s', id, sv, sv1, Execute(sv1.(node := o.node), o.actions));
      } else {
        s' := s1;
      }
    }
  }

  /** Pre-vote answers carry no promise: whatever they say, the protocol sees a term adoption or a candidacy. */
  lemma PreVoteResponseSim(s: P.System, id: NodeId, sv: Server, voter: NodeId, resp: PreVoteResponse, draw: nat)
    returns (s': P.System)
    requires Ready(s, id, sv)
    ensures var o := HandlePreVoteResponse(sv.node, voter, resp, draw);
      Sim(s, s', id, sv, Execute(sv.(node := o.node), o.actions)) && ActionsOk(s', id, o.actions)
  {
    hide P.Inv, ProtocolHistory.Later;
    var n, o := sv.node, HandlePreVoteResponse(sv.node, voter, resp, draw);
    if resp.clusterId != n.cfg.clusterId || !IsKnownVoter(n.cfg, voter) {
      SimReflexive(s, id, sv);
      s' := s;
    } else if resp.term > n.term {
      ExecuteHarmless(sv.(node := o.node), o.actions);
      s' := FollowerSim(s, id, sv, resp.term, None, draw);
    } else if n.role != PreCandidate || !resp.voteGranted {
      SimReflexive(s, id, sv);
      s' := s;
    } else {
      var m := n.(preVotesReceived := n.preVotesReceived + {voter});
      var sv1 := sv.(node := m);
      SameSim(s, id, sv, m);
      if HasQuorum(m.cfg, m.preVotesReceived) {
        s' := CandidateSim(s, id, sv1, draw);
        SimTransitive(s, s, s', id, sv, sv1, Execute(sv1.(node := o.node), o.actions));
      } else {
        SimReflexive(s, id, sv);
        s' := s;
      }
    }
  }

  // ------------------------------------------------------------------
  // Proposals
  // ------------------------------------------------------------------

  lemma ProposeMirrors(sv: Server, m: P.Member, e: Entry)
    requires Mirrors(sv, m) && sv.node.role == Leader
    requires e.index == |sv.log| + 1 && e.term == sv.node.term
    ensures Mirrors(Server(sv.node.(lastLogIndex := sv.node.lastLogIndex + 1, lastLogTerm := sv.node.term),
                           sv.log + [e], sv.applied),
                    m.(log := m.log + [e]))
  {
    assert (sv.log + [e])[..sv.node.lastApplied] == sv.log[..sv.node.lastApplied];
  }

  lemma AppendExecutes(sv: Server, n': Node, e: Entry, rest: seq<Action>)
    ensures Execute(sv.(node := n'), [AppendEntries([e])] + rest) == Execute(Server(n', sv.log + [e], sv.applied), rest)
  {
    assert ([AppendEntries([e])] + rest)[1..] == rest;
  }

  lemma ProposePossible(s: P.System, id: NodeId, sv: Server, e: Entry)
    requires Ready(s, id, sv) && sv.node.role == Leader && e.term == sv.node.term
    ensures P.CanPropose(s, id, e) && sv.node.lastLogIndex == |sv.log|
  {
    hide P.Inv;
    LeaderFacts(s, id);
  }

  lemma ProposeSim(s: P.System, id: NodeId, sv: Server, command: seq<bv8>) returns (s': P.System)
    requires Ready(s, id, sv)
    ensures var o := HandleClientPropose(sv.node, command);
      Sim(s, s', id, sv, Execute(sv.(node := o.node), o.actions)) && ActionsOk(s', id, o.actions)
  {
    hide P.Inv, ProtocolHistory.Later, Mirrors, AdvanceAndDrain, Distinct;
    var n := sv.node;
    if n.role != Leader {
      SimReflexive(s, id, sv);
      s' := s;
    } else {
      var e := Entry(n.lastLogIndex + 1, n.term, Command(command));
      var n1 := n.(lastLogIndex := n.lastLogIndex + 1, lastLogTerm := n.term);
      var sv1 := Server(n1, sv.log + [e], sv.applied);
      ProposePossible(s, id, sv, e);
      ProposeInv(s, id, e);
      var s1 := P.Propose(s, id, e);
      ProposeMirrors(sv, s.members[id], e);
      assert Sim(s, s1, id, sv, sv1);
      s' := AdvanceSim(s1, id, sv1);
      var o := AdvanceAndDrain(n1);
      AdvanceSilent(n1);
      AppendExecutes(sv, o.node, e, o.actions);
      SimTransitive(s, s1, s', id, sv, sv1, Execute(sv1.(node := o.node), o.actions));
    }
  }

  // ------------------------------------------------------------------
  // Serving fetches
  // ------------------------------------------------------------------

  lemma RecordMirrors(sv: Server, m: P.Member, replica: NodeId, k: nat)
    requires Mirrors(sv, m) && sv.node.role == Leader && replica in sv.node.peers && k <= |sv.log|
    ensures Mirrors(sv.(node := RecordProgress(sv.node, replica, k)),
                    m.(progress := m.progress[replica := if P.Progress(m, replica) > k then P.Progress(m, replica)
                                                         else k]))
  {
  }

  /** A truthful acknowledgement is recorded and may advance the commit index. */
  lemma AckedSim(s: P.System, id: NodeId, sv: Server, replica: NodeId, k: nat) returns (s': P.System)
    requires Ready(s, id, sv) && k <= |sv.log|
    requires sv.node.role == Leader && k >= 1 && sv.log[k - 1].term == sv.node.term
      ==> P.Acked(s, sv.node.term, replica, k)
    ensures var o := HandleFetchRequestAcked(sv.node, replica, k);
      Sim(s, s', id, sv, Execute(sv.(node := o.node), o.actions)) && ActionsOk(s', id, o.actions)
  {
    hide P.Inv, ProtocolHistory.Later;
    var n := sv.node;
    if n.role != Leader || !IsKnownReplica(n, replica) {
      SimReflexive(s, id, sv);
      s' := s;
    } else {
      var n1 := RecordProgress(n, replica, k);
      var s1, sv1 := s, sv.(node := n1);
      SimReflexive(s, id, sv);
      if replica in n.peers {
        RecordInv(s, id, replica, k);
        s1 := P.Record(s, id, replica, k);
        RecordMirrors(sv, s.members[id], replica, k);
      }
      assert Sim(s, s1, id, sv, sv1);
      s' := AdvanceSim(s1, id, sv1);
      AdvanceSilent(n1);
      var o := AdvanceAndDrain(n1);
      SimTransitive(s, s1, s', id, sv, sv1, Execute(sv1.(node := o.node), o.actions));
    }
  }

  lemma StampSame(n: Node, replica: NodeId)
    ensures SameCore(n, StampFetch(n, replica))
  {
  }
}
