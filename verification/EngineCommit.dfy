/**
 The commit index over every run of one engine: it never passes the log, and a
 leader moves it exactly to the greatest index a quorum of voters is recorded
 to hold.
 */
module EngineCommit {
  import opened Base
  import opened Messages
  import opened Quorums
  import opened OrderStatistics
  import opened Engine
  import opened EngineQuorum
  import opened EngineRuns
  import EngineBallots

  ghost predicate Placed(n: Node) {
    PeersOk(n) && (n.cfg.voters.Some? ==> Distinct(n.cfg.voters.value))
  }

  ghost predicate Ordered(n: Node) {
    n.lastApplied <= n.commitIndex <= n.lastLogIndex
  }

  /** Other voters recorded to hold index `k`. */
  ghost function Others(n: Node, k: nat): set<NodeId> {
    set v | v in VoterIds(n.cfg) && v != n.cfg.id && v in n.peers && n.peers[v].lastFetchOffset >= k
  }

  /** The other voters' records, together with the leader's own log if it reached that far, would commit `k`. */
  ghost predicate Claimed(n: Node, k: nat) {
    Others(n, k) != {} && SelfCount(n) + |Others(n, k)| >= QuorumSize(VoterIds(n.cfg))
  }

  /** Every index of this reign up to which the records claim a quorum is at most `bound`. */
  ghost predicate ClaimsBelow(n: Node, bound: nat) {
    n.role == Leader ==>
      n.leaderNoOpIndex.Some? && forall k: nat :: Claimed(n, k) && k >= n.leaderNoOpIndex.value ==> k <= bound
  }

  /**
    What holds between steps. A leader's log may be mirrored shorter than some record, but never
    below the commit index.
   */
  ghost predicate Sound(n: Node) {
    Placed(n) && Ordered(n) && ClaimsBelow(n, n.commitIndex)
  }

  /** What holds before the commit rule is applied. */
  ghost predicate Nearly(n: Node) {
    Placed(n) && Ordered(n) && ClaimsBelow(n, n.lastLogIndex)
  }

  lemma ClaimIsQuorum(n: Node, k: nat)
    requires Placed(n) && k <= n.lastLogIndex && Claimed(n, k)
    ensures |Reaching(n, k)| >= QuorumSize(VoterIds(n.cfg))
  {
    var self := if n.cfg.id in VoterIds(n.cfg) then {n.cfg.id} else {};
    assert |self + Others(n, k)| == SelfCount(n) + |Others(n, k)|;
    SubsetSize(self + Others(n, k), Reaching(n, k));
  }

  /** An index past the leader's own tail can only be held by the others. */
  lemma QuorumPastTail(n: Node, k: nat)
    requires Placed(n) && k > n.lastLogIndex && |Reaching(n, k)| >= QuorumSize(VoterIds(n.cfg))
    ensures Claimed(n, k)
  {
    SubsetSize(Reaching(n, k), Others(n, k));
  }

  /** The candidate is within the log, and every claim within the log is met by it or committed already. */
  lemma CandidateSound(n: Node)
    requires Nearly(n) && n.role == Leader
    ensures CommitCandidate(n).Some? ==> CommitCandidate(n).value <= n.lastLogIndex
    ensures CommitCandidate(n).Some? ==> ClaimsBelow(n, CommitCandidate(n).value)
    ensures CommitCandidate(n).None? ==> ClaimsBelow(n, n.commitIndex)
  {
    if n.cfg.voters.None? || n.cfg.voters.value == [] {
      assert VoterIds(n.cfg) == {};
      assert forall k: nat :: Others(n, k) == {};
    } else {
      hide CommitCandidate, Placed;
      CommitRuleApplies(n);
      var c := CommitCandidate(n);
      if c.Some? && c.value > n.lastLogIndex {
        QuorumPastTail(n, c.value);
      }
      forall k: nat | Claimed(n, k) && k >= n.leaderNoOpIndex.value && k > n.commitIndex
        ensures Committable(n, k)
      {
        ClaimIsQuorum(n, k);
      }
    }
  }

  lemma CommitRuleApplies(n: Node)
    requires Nearly(n) && n.role == Leader && n.cfg.voters.Some? && n.cfg.voters.value != []
    ensures Committing(n)
    ensures CommitCandidate(n).Some? <==> exists k: nat :: Committable(n, k)
    ensures CommitCandidate(n).Some? ==>
      var c := CommitCandidate(n).value;
      Committable(n, c) && forall k: nat :: Committable(n, k) ==> k <= c
  {
    hide CommitCandidate;
    CommitRule(n);
  }

  lemma DrainFields(n: Node)
    ensures var d := DrainApplyPipeline(n).node;
      && d.cfg == n.cfg && d.role == n.role && d.peers == n.peers && d.leaderNoOpIndex == n.leaderNoOpIndex
      && d.lastLogIndex == n.lastLogIndex && d.commitIndex == n.commitIndex
      && d.lastApplied == Max(n.commitIndex, n.lastApplied)
  {
  }

  lemma ClaimsCarry(n: Node, n': Node, bound: nat, bound': nat)
    requires ClaimsBelow(n, bound) && bound <= bound' && n'.cfg == n.cfg
    requires n'.role == Leader ==> n.role == Leader && n'.leaderNoOpIndex == n.leaderNoOpIndex
    requires forall k: nat :: Others(n', k) == Others(n, k)
    ensures ClaimsBelow(n', bound')
  {
    forall k: nat | n'.role == Leader && Claimed(n', k) && k >= n'.leaderNoOpIndex.value ensures k <= bound' {
      assert Claimed(n, k);
    }
  }

  lemma AdvanceSound(n: Node)
    requires Nearly(n)
    ensures Sound(AdvanceAndDrain(n).node)
  {
    hide CommitCandidate, DrainApplyPipeline, ClaimsBelow;
    var c := CommitCandidate(n);
    CandidateAbove(n);
    if n.role == Leader {
      CandidateSound(n);
    } else {
      NoLeaderNoClaim(n, n.commitIndex);
    }
    if c.Some? {
      var m := n.(commitIndex := c.value);
      DrainFields(m);
      ClaimsCarry(n, DrainApplyPipeline(m).node, c.value, c.value);
    }
  }

  lemma NoLeaderNoClaim(n: Node, bound: nat)
    requires n.role != Leader
    ensures ClaimsBelow(n, bound)
  {
  }

  // ------------------------------------------------------------------
  // Every step keeps it
  // ------------------------------------------------------------------

  /** `n'` is what the commit rule makes of `m`, whose commit index is still that of `n`. */
  ghost predicate Advanced(n: Node, m: Node, n': Node) {
    && n' == AdvanceAndDrain(m).node && CommitCandidate(m).Some? && m.commitIndex == n.commitIndex
    && (Sound(n) ==> Nearly(m))
  }

  /** Soundness is kept, and a leader's commit index rises only by the commit rule. */
  ghost predicate Kept(n: Node, n': Node) {
    && (Sound(n) ==> Sound(n'))
    && (n'.role == Leader && n'.commitIndex != n.commitIndex ==> exists m :: Advanced(n, m, n'))
  }

  lemma AdvanceKept(n: Node, m: Node)
    requires m.commitIndex == n.commitIndex && (Sound(n) ==> Nearly(m))
    ensures Kept(n, AdvanceAndDrain(m).node)
  {
    hide CommitCandidate, Sound, Nearly, DrainApplyPipeline;
    if Sound(n) {
      AdvanceSound(m);
    }
    assert CommitCandidate(m).Some? ==> Advanced(n, m, AdvanceAndDrain(m).node);
  }

  /** A step that ends outside leadership, or changes nothing the invariant is about. */
  lemma QuietKept(n: Node, n': Node)
    requires n'.cfg == n.cfg && SamePeers(n, n') && n'.lastApplied == n.lastApplied && n'.commitIndex == n.commitIndex
    requires n'.lastLogIndex >= n.lastLogIndex
    requires n'.role == Leader ==>
      && n.role == Leader && n'.leaderNoOpIndex == n.leaderNoOpIndex
      && forall p :: p in n.peers ==> n'.peers[p].lastFetchOffset == n.peers[p].lastFetchOffset
    ensures Kept(n, n')
  {
    if Sound(n) {
      assert PeersOk(n');
      if n'.role == Leader {
        forall k: nat ensures Others(n', k) == Others(n, k) {
        }
        ClaimsCarry(n, n', n.commitIndex, n'.commitIndex);
      }
    }
  }

  /** A follower's commit index rises within its log. */
  lemma FollowerKept(n: Node, m: Node, c: nat)
    requires m.cfg == n.cfg && SamePeers(n, m) && m.lastApplied == n.lastApplied && m.commitIndex == n.commitIndex
    requires m.role != Leader && n.lastLogIndex <= m.lastLogIndex && m.commitIndex < c <= m.lastLogIndex
    ensures Kept(n, DrainApplyPipeline(m.(commitIndex := c)).node)
  {
    hide DrainApplyPipeline;
    DrainFields(m.(commitIndex := c));
  }

  lemma FreshReignNearly(n: Node, draw: nat)
    requires Placed(n) && Ordered(n)
    ensures Nearly(EnterLeader(n, draw))
  {
    var l := EnterLeader(n, draw);
    assert forall k: nat :: k >= 1 ==> Others(l, k) == {};
  }

  lemma LeaderKept(n: Node, m: Node, draw: nat)
    requires m.commitIndex == n.commitIndex && (Sound(n) ==> Placed(m) && Ordered(m))
    ensures Kept(n, BecomeLeader(m, draw).node)
  {
    hide AdvanceAndDrain, Sound, Nearly, Placed;
    if Sound(n) {
      FreshReignNearly(m, draw);
    }
    AdvanceKept(n, EnterLeader(m, draw));
  }

  lemma CandidateKept(n: Node, m: Node, draw: nat)
    requires m.commitIndex == n.commitIndex && (Sound(n) ==> Placed(m) && Ordered(m))
    ensures Kept(n, BecomeCandidate(m, draw).node)
  {
    hide BecomeLeader, HasQuorum, Sound, Broadcast;
    var c := EnterCandidate(m, draw);
    LeaderKept(n, c, draw);
    if Sound(n) {
      StandingSound(c);
    }
  }

  lemma StandingSound(n: Node)
    requires Placed(n) && Ordered(n) && n.role != Leader
    ensures Sound(n)
  {
  }

  lemma PreCandidateKept(n: Node, m: Node, draw: nat)
    requires m.commitIndex == n.commitIndex && (Sound(n) ==> Placed(m) && Ordered(m))
    ensures Kept(n, BecomePreCandidate(m, draw).node)
  {
    hide BecomeCandidate, HasQuorum, Sound, Broadcast;
    var p := EnterPreCandidate(m, draw);
    CandidateKept(n, p, draw);
    if Sound(n) {
      StandingSound(p);
    }
  }

  lemma RoleKept(n: Node, m: Node, draw: nat)
    requires m.cfg == n.cfg && SamePeers(n, m) && m.lastApplied == n.lastApplied && m.commitIndex == n.commitIndex
    requires m.lastLogIndex == n.lastLogIndex && m.role == n.role && m.leaderNoOpIndex == n.leaderNoOpIndex
    requires m.peers == n.peers
    ensures Kept(n, TickRole(m, draw).node)
  {
    hide BecomePreCandidate, CheckQuorumFails, Kept;
    var o := TickRole(m, draw);
    if !CheckQuorumFails(m) && m.role != Leader {
      PreCandidateKept(n, m, draw);
      QuietKept(n, m);
    } else {
      QuietKept(n, o.node);
    }
  }

  lemma TickKept(n: Node, draw: nat)
    ensures Kept(n, HandleTick(n, draw).node)
  {
    hide TickRole, Broadcast, FetchDue;
    RoleKept(n, ScheduleFetch(AdvanceClock(n)).node, draw);
  }

  lemma VoteRequestKept(n: Node, req: VoteRequest, draw: nat)
    ensures Kept(n, HandleVoteRequest(n, req, draw).node)
  {
    hide Kept, CandidateLogIsUpToDate;
    QuietKept(n, HandleVoteRequest(n, req, draw).node);
  }

  lemma VoteResponseKept(n: Node, voter: NodeId, resp: VoteResponse, draw: nat)
    ensures Kept(n, HandleVoteResponse(n, voter, resp, draw).node)
  {
    hide Kept, BecomeLeader, HasQuorum;
    var m := n.(votesReceived := n.votesReceived + {voter});
    LeaderKept(n, m, draw);
    QuietKept(n, m);
    QuietKept(n, n);
    QuietKept(n, BecomeFollower(n, resp.term, None, draw).node);
  }

  lemma PreVoteResponseKept(n: Node, voter: NodeId, resp: PreVoteResponse, draw: nat)
    ensures Kept(n, HandlePreVoteResponse(n, voter, resp, draw).node)
  {
    hide Kept, BecomeCandidate, HasQuorum;
    var m := n.(preVotesReceived := n.preVotesReceived + {voter});
    CandidateKept(n, m, draw);
    QuietKept(n, m);
    QuietKept(n, n);
    QuietKept(n, BecomeFollower(n, resp.term, None, draw).node);
  }

  lemma FetchRequestKept(n: Node, req: FetchRequest, draw: nat)
    ensures Kept(n, HandleFetchRequest(n, req, draw).node)
  {
    hide Kept;
    QuietKept(n, HandleFetchRequest(n, req, draw).node);
  }

  lemma RecordNearly(n: Node, replica: NodeId, confirmed: nat)
    requires Sound(n)
    ensures Nearly(RecordProgress(n, replica, confirmed))
  {
    var m := RecordProgress(n, replica, confirmed);
    forall k: nat | n.role == Leader && Claimed(m, k) && k >= m.leaderNoOpIndex.value ensures k <= m.lastLogIndex {
      assert k > m.lastLogIndex ==> Others(m, k) == Others(n, k);
      assert k > m.lastLogIndex ==> Claimed(n, k);
    }
  }

  lemma AckedKept(n: Node, replica: NodeId, confirmed: nat)
    ensures Kept(n, HandleFetchRequestAcked(n, replica, confirmed).node)
  {
    hide Kept, AdvanceAndDrain, Sound, Nearly;
    QuietKept(n, n);
    if Sound(n) {
      RecordNearly(n, replica, confirmed);
    }
    AdvanceKept(n, RecordProgress(n, replica, confirmed));
  }

  lemma ProposeKept(n: Node, command: seq<bv8>)
    ensures Kept(n, HandleClientPropose(n, command).node)
  {
    hide Kept, AdvanceAndDrain;
    QuietKept(n, n);
    var m := n.(lastLogIndex := n.lastLogIndex + 1, lastLogTerm := n.term);
    if Sound(n) {
      assert forall k: nat :: Others(m, k) == Others(n, k);
      ClaimsCarry(n, m, n.commitIndex, m.lastLogIndex);
    }
    AdvanceKept(n, m);
  }

  lemma ConsumeKept(n: Node, m: Node, resp: FetchResponse)
    requires m.cfg == n.cfg && SamePeers(n, m) && m.lastApplied == n.lastApplied && m.commitIndex == n.commitIndex
    requires m.lastLogIndex == n.lastLogIndex && m.role != Leader
    ensures Kept(n, ConsumeAnswer(m, resp).node)
  {
    hide Kept, DrainApplyPipeline, WellFormedBatch;
    var l := m;
    if resp.entries != [] && WellFormedBatch(resp.entries, m.lastLogIndex + 1) {
      EngineBallots.BatchRises(resp.entries, m.lastLogIndex + 1, |resp.entries| - 1);
      var last := resp.entries[|resp.entries| - 1];
      l := m.(lastLogIndex := last.index, lastLogTerm := last.term);
    }
    QuietKept(n, m);
    QuietKept(n, l);
    QuietKept(n, m.(lastFetchTick := Some(m.logicalTick)));
    LearnKept(n, m, resp.highWatermark);
    LearnKept(n, l, resp.highWatermark);
  }

  lemma LearnKept(n: Node, m: Node, highWatermark: nat)
    requires m.cfg == n.cfg && SamePeers(n, m) && m.lastApplied == n.lastApplied && m.commitIndex == n.commitIndex
    requires m.lastLogIndex >= n.lastLogIndex && m.role != Leader
    ensures Kept(n, LearnCommit(m, highWatermark).node)
  {
    hide Kept, DrainApplyPipeline;
    QuietKept(n, m);
    if Min(highWatermark, m.lastLogIndex) > m.commitIndex {
      FollowerKept(n, m, Min(highWatermark, m.lastLogIndex));
    }
  }

  lemma RecogniseFields(n: Node, resp: FetchResponse, draw: nat)
    requires !DropsAnswer(n, resp)
    ensures var m := RecogniseLeader(n, resp, draw).node;
      && m.cfg == n.cfg && m.peers == n.peers && m.lastApplied == n.lastApplied && m.commitIndex == n.commitIndex
      && m.lastLogIndex == n.lastLogIndex && m.role != Leader
  {
  }

  lemma FetchResponseKept(n: Node, resp: FetchResponse, draw: nat)
    ensures Kept(n, HandleFetchResponse(n, resp, draw).node)
  {
    hide Kept, RecogniseLeader, ConsumeAnswer, DropsAnswer;
    QuietKept(n, n);
    if !DropsAnswer(n, resp) {
      RecogniseFields(n, resp, draw);
      ConsumeKept(n, RecogniseLeader(n, resp, draw).node, resp);
    }
  }

  lemma StepKept(n: Node, input: Input, draw: nat)
    requires !input.SnapshotComplete? && !input.SnapshotInstalled?
    ensures Kept(n, Step(n, input, draw).node)
  {
    hide Kept, HandleTick, HandleVoteRequest, HandleVoteResponse, HandlePreVoteResponse, HandleFetchRequest,
      HandleFetchResponse, HandleClientPropose, HandleFetchRequestAcked;
    match input
    case Tick => TickKept(n, draw);
    case VoteRequested(req) => VoteRequestKept(n, req, draw);
    case VoteAnswered(voter, resp) => VoteResponseKept(n, voter, resp, draw);
    case PreVoteRequested(req) => QuietKept(n, n);
    case PreVoteAnswered(voter, resp) => PreVoteResponseKept(n, voter, resp, draw);
    case FetchRequested(req) => FetchRequestKept(n, req, draw);
    case FetchAnswered(resp) => FetchResponseKept(n, resp, draw);
    case ClientPropose(command) => ProposeKept(n, command);
    case FetchRequestAcked(replica, confirmed) => AckedKept(n, replica, confirmed);
    case FetchSnapshotReceived(metadata, data) => QuietKept(n, n);
  }

  // ------------------------------------------------------------------
  // Over runs
  // ------------------------------------------------------------------

  /** The mirrored log tail never goes below the commit index. */
  ghost predicate Respectful(n: Node, move: Move) {
    move.Mirror? ==> move.index >= n.commitIndex
  }

  /** A run of a new engine over distinct voters whose driver respects the commit index. */
  ghost predicate RespectfulTrace(nodes: seq<Node>, moves: seq<Move>, cfg: Config, draw: nat) {
    && Trace(nodes, moves) && nodes[0] == NewNode(cfg, draw) && (cfg.voters.Some? ==> Distinct(cfg.voters.value))
    && forall i :: 0 <= i < |moves| ==> Respectful(nodes[i], moves[i])
  }

  lemma SnapshotSound(n: Node, input: Input, draw: nat)
    requires Sound(n) && (input.SnapshotComplete? || input.SnapshotInstalled?)
    ensures Sound(Step(n, input, draw).node)
  {
    var n' := Step(n, input, draw).node;
    assert forall k: nat :: Others(n', k) == Others(n, k);
    ClaimsCarry(n, n', n.commitIndex, n'.commitIndex);
  }

  lemma MirrorSound(n: Node, move: Move)
    requires Sound(n) && move.Mirror? && Respectful(n, move)
    ensures Sound(Moved(n, move).node)
  {
    var n' := Moved(n, move).node;
    assert forall k: nat :: Others(n', k) == Others(n, k);
    ClaimsCarry(n, n', n.commitIndex, n'.commitIndex);
  }

  lemma MoveSound(n: Node, move: Move)
    requires Sound(n) && Respectful(n, move)
    ensures Sound(Moved(n, move).node)
  {
    hide Sound, Step;
    if move.Mirror? {
      MirrorSound(n, move);
    } else if move.input.SnapshotComplete? || move.input.SnapshotInstalled? {
      SnapshotSound(n, move.input, move.draw);
    } else {
      StepKept(n, move.input, move.draw);
    }
  }

  lemma NewSound(cfg: Config, draw: nat)
    requires cfg.voters.Some? ==> Distinct(cfg.voters.value)
    ensures Sound(NewNode(cfg, draw))
  {
  }

  /** `lastApplied <= commitIndex <= lastLogIndex` in every state of every run. */
  lemma {:induction false} AlwaysOrdered(nodes: seq<Node>, moves: seq<Move>, cfg: Config, draw: nat, i: nat)
    requires RespectfulTrace(nodes, moves, cfg, draw) && i < |nodes|
    ensures Sound(nodes[i])
    ensures nodes[i].lastApplied <= nodes[i].commitIndex <= nodes[i].lastLogIndex
  {
    hide Moved, Placed, ClaimsBelow;
    if i == 0 {
      NewSound(cfg, draw);
    } else {
      AlwaysOrdered(nodes, moves, cfg, draw, i - 1);
      assert nodes[i - 1 + 1] == Moved(nodes[i - 1], moves[i - 1]).node;
      MoveSound(nodes[i - 1], moves[i - 1]);
    }
  }

  lemma AdvancedReaches(n: Node, m: Node, n': Node)
    requires Advanced(n, m, n') && Nearly(m)
    ensures n'.leaderNoOpIndex.Some? && n'.leaderNoOpIndex.value <= n'.commitIndex <= n'.lastLogIndex
    ensures |Reaching(n', n'.commitIndex)| >= QuorumSize(VoterIds(n'.cfg))
    ensures forall k: nat :: k > n'.commitIndex ==> |Reaching(n', k)| < QuorumSize(VoterIds(n'.cfg))
  {
    hide CommitCandidate, DrainApplyPipeline;
    var c := CommitCandidate(m).value;
    DrainFields(m.(commitIndex := c));
    CandidateAbove(m);
    CandidateVoters(m);
    CandidateSound(m);
    CommitRuleApplies(m);
    assert forall k: nat :: Reaching(n', k) == Reaching(m, k);
    forall k: nat | k > c ensures |Reaching(m, k)| < QuorumSize(VoterIds(m.cfg)) {
      assert !Committable(m, k);
    }
  }

  lemma CandidateVoters(n: Node)
    requires CommitCandidate(n).Some?
    ensures n.cfg.voters.Some? && n.cfg.voters.value != [] && n.leaderNoOpIndex.Some?
  {
  }

  /**
   Whenever a leader's commit index has moved, other than by installing a snapshot, it is
   the greatest index a quorum of distinct voters is recorded to hold; it lies within the
   leader's log, at or after the no-op of its term.
   */
  lemma CommitsAtQuorum(nodes: seq<Node>, moves: seq<Move>, cfg: Config, draw: nat, i: nat)
    requires RespectfulTrace(nodes, moves, cfg, draw) && i < |moves|
    requires nodes[i + 1].role == Leader && nodes[i + 1].commitIndex != nodes[i].commitIndex
    requires !(moves[i].Feed? && moves[i].input.SnapshotInstalled?)
    ensures var n := nodes[i + 1];
      && n.leaderNoOpIndex.Some? && n.leaderNoOpIndex.value <= n.commitIndex <= n.lastLogIndex
      && |Reaching(n, n.commitIndex)| >= QuorumSize(VoterIds(n.cfg))
      && (forall k: nat :: k > n.commitIndex ==> |Reaching(n, k)| < QuorumSize(VoterIds(n.cfg)))
  {
    hide Step, Sound, Nearly, CommitCandidate, Reaching, AdvanceAndDrain;
    AlwaysOrdered(nodes, moves, cfg, draw, i);
    assert nodes[i + 1] == Moved(nodes[i], moves[i]).node;
    CommitMoves(nodes[i], moves[i]);
    StepKept(nodes[i], moves[i].input, moves[i].draw);
    var m :| Advanced(nodes[i], m, nodes[i + 1]);
    AdvancedReaches(nodes[i], m, nodes[i + 1]);
  }

  lemma CommitMoves(n: Node, move: Move)
    requires Moved(n, move).node.commitIndex != n.commitIndex
    ensures move.Feed? && !move.input.SnapshotComplete?
  {
  }

  /** With several voters a quorum for an index includes the record of another voter. */
  lemma QuorumIsClaim(n: Node, k: nat)
    requires |VoterIds(n.cfg)| > 1 && PeersOk(n) && |Reaching(n, k)| >= QuorumSize(VoterIds(n.cfg))
    ensures Claimed(n, k)
  {
    var self := if n.cfg.id in VoterIds(n.cfg) then {n.cfg.id} else {};
    assert |self + Others(n, k)| == SelfCount(n) + |Others(n, k)|;
    SubsetSize(Reaching(n, k), self + Others(n, k));
  }

  /** Between steps of a run nothing waits to be committed, unless the node is the only voter. */
  lemma NothingPending(n: Node)
    requires Sound(n) && |VoterIds(n.cfg)| != 1
    ensures CommitCandidate(n).None?
  {
    hide CommitCandidate, Reaching, Claimed, PeersOk, Distinct;
    if CommitCandidate(n).Some? {
      CandidateAbove(n);
      CandidateVoters(n);
      assert n.cfg.voters.value[0] in VoterIds(n.cfg);
      CommitRuleApplies(n);
      QuorumIsClaim(n, CommitCandidate(n).value);
      assert false;
    }
  }

  /** In every run, the acknowledgement of a replica that is no voter leaves the commit index alone. */
  lemma ObserverAcksNeverCommit(nodes: seq<Node>, moves: seq<Move>, cfg: Config, draw: nat, i: nat)
    requires RespectfulTrace(nodes, moves, cfg, draw) && i < |moves|
    requires moves[i].Feed? && moves[i].input.FetchRequestAcked? && moves[i].input.replica !in VoterIds(cfg)
    requires |VoterIds(cfg)| != 1 || CommitCandidate(nodes[i]).None?
    ensures nodes[i + 1].commitIndex == nodes[i].commitIndex
  {
    hide Sound, CommitCandidate, Moved, RecordProgress;
    AlwaysOrdered(nodes, moves, cfg, draw, i);
    RunOnward(nodes, moves, 0, i);
    assert nodes[i + 1] == Moved(nodes[i], moves[i]).node;
    if |VoterIds(cfg)| != 1 {
      NothingPending(nodes[i]);
    }
    AckKeepsCommit(nodes[i], moves[i]);
  }

  lemma AckKeepsCommit(n: Node, move: Move)
    requires move.Feed? && move.input.FetchRequestAcked? && move.input.replica !in VoterIds(n.cfg)
    requires Sound(n) && CommitCandidate(n).None?
    ensures Moved(n, move).node.commitIndex == n.commitIndex
  {
    hide CommitCandidate;
    ObserverAcksIgnored(n, move.input.replica, move.input.confirmedOffset);
  }
}
