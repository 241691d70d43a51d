/**
 Elections from one node's side: hard state is made durable before anything is
 said on its strength, and candidacies follow a quorum of pre-votes.
 */
module EngineElections {
  import opened Base
  import opened Messages
  import opened Quorums
  import opened Engine
  import opened EngineRuns

  // ------------------------------------------------------------------
  // Durable hard state
  // ------------------------------------------------------------------

  /** What must survive a restart: the term and the vote in it. */
  function Durable(n: Node): (nat, Option<NodeId>) {
    (n.term, n.votedFor)
  }

  /** An action that speaks for term `t`: a vote message, a fetch in term `t`, or an append. */
  predicate Announces(a: Action, t: nat) {
    a.AppendEntries?
    || (a.SendMessage? && (a.message.VoteReq? || a.message.VoteResp?
                           || (a.message.FetchReq? && a.message.fetchRequest.leaderEpoch == t)))
  }

  /** The hard state is persisted before the first action that announces term `t`. */
  ghost predicate PersistFirst(actions: seq<Action>, t: nat) {
    exists p :: 0 <= p < |actions| && actions[p] == PersistHardState
                && forall i :: 0 <= i < p ==> !Announces(actions[i], t)
  }

  ghost predicate Guarded(n: Node, o: Out) {
    Durable(o.node) != Durable(n) ==> PersistFirst(o.actions, o.node.term)
  }

  lemma PersistLater(pre: seq<Action>, rest: seq<Action>, t: nat)
    requires forall a :: a in pre ==> !Announces(a, t)
    requires PersistFirst(rest, t)
    ensures PersistFirst(pre + rest, t)
  {
    var p :| 0 <= p < |rest| && rest[p] == PersistHardState && forall i :: 0 <= i < p ==> !Announces(rest[i], t);
    forall i | 0 <= i < |pre| + p ensures !Announces((pre + rest)[i], t) {
      assert i < |pre| ==> pre[i] in pre;
    }
    assert (pre + rest)[|pre| + p] == PersistHardState;
  }

  lemma PersistSooner(actions: seq<Action>, rest: seq<Action>, t: nat)
    requires PersistFirst(actions, t)
    ensures PersistFirst(actions + rest, t)
  {
    var p :| 0 <= p < |actions| && actions[p] == PersistHardState
             && forall i :: 0 <= i < p ==> !Announces(actions[i], t);
    assert (actions + rest)[p] == PersistHardState;
  }

  lemma AdvanceKeepsHardState(n: Node)
    ensures Durable(AdvanceAndDrain(n).node) == Durable(n) && AdvanceAndDrain(n).node.role == n.role
  {
    hide CommitCandidate;
  }

  lemma LeaderKeepsHardState(n: Node, draw: nat)
    ensures Durable(BecomeLeader(n, draw).node) == Durable(n)
  {
    hide AdvanceAndDrain;
    AdvanceKeepsHardState(EnterLeader(n, draw));
  }

  lemma FollowerPersists(n: Node, term: nat, leader: Option<NodeId>, draw: nat)
    ensures var o := BecomeFollower(n, term, leader, draw);
      && (Durable(o.node) != Durable(n) ==> PersistFirst(o.actions, o.node.term))
      && o.node.term >= n.term && o.node.term >= term
  {
    assert BecomeFollower(n, term, leader, draw).node.term > n.term
           ==> BecomeFollower(n, term, leader, draw).actions[0] == PersistHardState;
  }

  lemma CandidatePersists(n: Node, draw: nat, t: nat)
    ensures var o := BecomeCandidate(n, draw);
      o.node.term == n.term + 1 && o.node.votedFor == Some(n.cfg.id) && PersistFirst(o.actions, t)
  {
    hide BecomeLeader, HasQuorum, Broadcast;
    var c := EnterCandidate(n, draw);
    LeaderKeepsHardState(c, draw);
    assert Durable(BecomeLeader(c, draw).node) == Durable(c);
    assert BecomeCandidate(n, draw).actions[0] == PersistHardState;
  }

  lemma PreCandidatePersists(n: Node, draw: nat, t: nat)
    ensures var o := BecomePreCandidate(n, draw);
      || Durable(o.node) == Durable(n)
      || (o.node.term == n.term + 1 && PersistFirst(o.actions, t) && HasQuorum(n.cfg, {n.cfg.id}))
  {
    hide BecomeCandidate, HasQuorum, PersistFirst;
    var p := EnterPreCandidate(n, draw);
    var request := PreVoteReq(PreVoteRequest(p.cfg.clusterId, p.term + 1, p.cfg.id, p.lastLogIndex, p.lastLogTerm));
    var sent := Broadcast(p.cfg.peerOrder, p.peers, request);
    BroadcastSends(p.cfg.peerOrder, p.peers, request);
    CandidatePersists(p, draw, t);
    PersistLater(sent, BecomeCandidate(p, draw).actions, t);
  }

  lemma RolePersists(n: Node, draw: nat, t: nat)
    ensures var o := TickRole(n, draw);
      || Durable(o.node) == Durable(n)
      || (o.node.term == n.term + 1 && PersistFirst(o.actions, t) && HasQuorum(n.cfg, {n.cfg.id}))
  {
    hide BecomePreCandidate, HasQuorum, PersistFirst, CheckQuorumFails;
    PreCandidatePersists(n, draw, t);
    PreCandidatePersists(CheckQuorum(n), draw, t);
  }

  lemma FetchesOwnTerm(n: Node)
    ensures var f := ScheduleFetch(n);
      && Durable(f.node) == Durable(n) && f.node.cfg == n.cfg
      && forall a, t: nat :: a in f.actions && t > n.term ==> !Announces(a, t)
  {
    BroadcastSends(n.cfg.peerOrder, n.peers, FetchReq(NextFetch(n)));
  }

  lemma TickPersists(n: Node, draw: nat)
    ensures Guarded(n, HandleTick(n, draw))
    ensures Durable(HandleTick(n, draw).node) != Durable(n) ==> HasQuorum(n.cfg, {n.cfg.id})
  {
    hide TickRole, ScheduleFetch, HasQuorum, PersistFirst;
    var f := ScheduleFetch(AdvanceClock(n));
    FetchesOwnTerm(AdvanceClock(n));
    var o := TickRole(f.node, draw);
    RolePersists(f.node, draw, n.term + 1);
    if Durable(o.node) != Durable(n) {
      PersistLater(f.actions, o.actions, n.term + 1);
    }
  }

  lemma VoteRequestPersists(n: Node, req: VoteRequest, draw: nat)
    ensures Guarded(n, HandleVoteRequest(n, req, draw))
  {
    hide CandidateLogIsUpToDate;
    var o := HandleVoteRequest(n, req, draw);
    if Durable(o.node) != Durable(n) {
      assert o.actions[0] == PersistHardState;
    }
  }

  lemma VoteResponsePersists(n: Node, voter: NodeId, resp: VoteResponse, draw: nat)
    ensures Guarded(n, HandleVoteResponse(n, voter, resp, draw))
  {
    hide BecomeLeader, BecomeFollower, HasQuorum;
    FollowerPersists(n, resp.term, None, draw);
    LeaderKeepsHardState(n.(votesReceived := n.votesReceived + {voter}), draw);
  }

  lemma PreVoteResponsePersists(n: Node, voter: NodeId, resp: PreVoteResponse, draw: nat)
    ensures Guarded(n, HandlePreVoteResponse(n, voter, resp, draw))
  {
    hide BecomeCandidate, BecomeFollower, HasQuorum;
    FollowerPersists(n, resp.term, None, draw);
    CandidatePersists(n.(preVotesReceived := n.preVotesReceived + {voter}), draw, n.term + 1);
  }

  lemma ConsumeKeepsHardState(n: Node, resp: FetchResponse)
    ensures Durable(ConsumeAnswer(n, resp).node) == Durable(n) && ConsumeAnswer(n, resp).node.role == n.role
  {
    hide WellFormedBatch;
  }

  lemma RecognisePersists(n: Node, resp: FetchResponse, draw: nat)
    requires resp.leaderEpoch >= n.term
    ensures Guarded(n, RecogniseLeader(n, resp, draw))
    ensures RecogniseLeader(n, resp, draw).node.term == resp.leaderEpoch
  {
    var o := RecogniseLeader(n, resp, draw);
    if Durable(o.node) != Durable(n) {
      assert o.actions[0] == PersistHardState;
    }
  }

  lemma FetchResponsePersists(n: Node, resp: FetchResponse, draw: nat)
    ensures Guarded(n, HandleFetchResponse(n, resp, draw))
  {
    hide RecogniseLeader, ConsumeAnswer, PersistFirst;
    if !DropsAnswer(n, resp) {
      var a := RecogniseLeader(n, resp, draw);
      RecognisePersists(n, resp, draw);
      ConsumeKeepsHardState(a.node, resp);
      if Durable(a.node) != Durable(n) {
        PersistSooner(a.actions, ConsumeAnswer(a.node, resp).actions, a.node.term);
      }
    }
  }

  lemma FetchRequestPersists(n: Node, req: FetchRequest, draw: nat)
    ensures Guarded(n, HandleFetchRequest(n, req, draw))
  {
    hide BecomeFollower;
    FollowerPersists(n, req.leaderEpoch, None, draw);
  }

  lemma LeaderInputsPersist(n: Node, input: Input, draw: nat)
    requires input.ClientPropose? || input.FetchRequestAcked?
    ensures Durable(Step(n, input, draw).node) == Durable(n) && Step(n, input, draw).node.role == n.role
  {
    hide AdvanceAndDrain;
    match input
    case ClientPropose(command) =>
      AdvanceKeepsHardState(n.(lastLogIndex := n.lastLogIndex + 1, lastLogTerm := n.term));
    case FetchRequestAcked(replica, confirmed) =>
      AdvanceKeepsHardState(RecordProgress(n, replica, confirmed));
  }

  /**
   Any step that changes the term or the vote persists them before every vote message,
   every fetch in the new term and every append.
   */
  lemma PersistBeforeAnnouncing(n: Node, move: Move)
    ensures Guarded(n, Moved(n, move))
  {
    if move.Feed? {
      hide PersistFirst, HandleTick, HandleVoteRequest, HandleVoteResponse, HandlePreVoteResponse, HandleFetchRequest,
        HandleFetchResponse, HandleClientPropose, HandleFetchRequestAcked;
      var draw := move.draw;
      match move.input
      case Tick => TickPersists(n, draw);
      case VoteRequested(req) => VoteRequestPersists(n, req, draw);
      case VoteAnswered(voter, resp) => VoteResponsePersists(n, voter, resp, draw);
      case PreVoteAnswered(voter, resp) => PreVoteResponsePersists(n, voter, resp, draw);
      case FetchRequested(req) => FetchRequestPersists(n, req, draw);
      case FetchAnswered(resp) => FetchResponsePersists(n, resp, draw);
      case ClientPropose(command) => LeaderInputsPersist(n, move.input, draw);
      case FetchRequestAcked(replica, confirmed) => LeaderInputsPersist(n, move.input, draw);
      case _ =>
    }
  }

  /** The hard state on disk after move `i - 1`, when the driver writes it at each request. */
  ghost function Saved(nodes: seq<Node>, moves: seq<Move>, i: nat): (nat, Option<NodeId>)
    requires Trace(nodes, moves) && i < |nodes|
  {
    if i == 0 || PersistHardState in Moved(nodes[i - 1], moves[i - 1]).actions then Durable(nodes[i])
    else Saved(nodes, moves, i - 1)
  }

  /** Between moves, what is on disk is always the current term and vote. */
  lemma {:induction false} SavedIsCurrent(nodes: seq<Node>, moves: seq<Move>, i: nat)
    requires Trace(nodes, moves) && i < |nodes|
    ensures Saved(nodes, moves, i) == Durable(nodes[i])
  {
    hide Moved;
    if i > 0 {
      SavedIsCurrent(nodes, moves, i - 1);
      assert nodes[i - 1 + 1] == Moved(nodes[i - 1], moves[i - 1]).node;
      PersistBeforeAnnouncing(nodes[i - 1], moves[i - 1]);
    }
  }

  // ------------------------------------------------------------------
  // Pre-Vote
  // ------------------------------------------------------------------

  /** The node raised its term by standing for election. */
  predicate Stands(n: Node, n': Node) {
    n'.term > n.term && (n'.role == Candidate || n'.role == Leader)
  }

  /** No candidacy and no change to a running pre-vote. */
  predicate Modest(n: Node, n': Node) {
    || (n'.role == n.role && n'.term == n.term && n'.preVotesReceived == n.preVotesReceived)
    || n'.role == Follower || n'.role == Observer
    || (n'.role == Leader && n'.term == n.term)
  }

  /** The input is a granted pre-vote by `voter` that a pre-candidate counts. */
  predicate GrantedBy(n: Node, move: Move, voter: NodeId) {
    && move.Feed? && move.input.PreVoteAnswered? && move.input.voter == voter && move.input.preVoteResp.voteGranted
    && move.input.preVoteResp.term <= n.term && voter in VoterIds(n.cfg) && n.role == PreCandidate
  }

  /** What one move does to the pre-vote: nothing, a new phase, one more grant, or a candidacy backed by a quorum. */
  ghost predicate PreVoting(n: Node, move: Move, n': Node) {
    || Modest(n, n')
    || (n'.role == PreCandidate && n'.preVotesReceived == {n.cfg.id})
    || (Stands(n, n') && HasQuorum(n.cfg, {n.cfg.id}))
    || (exists v :: GrantedBy(n, move, v) && n'.role == PreCandidate && n'.preVotesReceived == n.preVotesReceived + {v})
    || (exists v :: GrantedBy(n, move, v) && Stands(n, n') && HasQuorum(n.cfg, n.preVotesReceived + {v}))
  }

  lemma CandidateStands(n: Node, draw: nat)
    ensures Stands(n, BecomeCandidate(n, draw).node)
  {
    hide AdvanceAndDrain, HasQuorum, Broadcast;
    AdvanceKeepsHardState(EnterLeader(EnterCandidate(n, draw), draw));
  }

  lemma LeaderModest(n: Node, draw: nat)
    ensures BecomeLeader(n, draw).node.role == Leader && BecomeLeader(n, draw).node.term == n.term
  {
    hide AdvanceAndDrain;
    AdvanceKeepsHardState(EnterLeader(n, draw));
  }

  lemma PreCandidateVotes(n: Node, draw: nat)
    ensures var n' := BecomePreCandidate(n, draw).node;
      || (n'.role == PreCandidate && n'.preVotesReceived == {n.cfg.id})
      || (Stands(n, n') && HasQuorum(n.cfg, {n.cfg.id}))
  {
    hide BecomeCandidate, HasQuorum, Broadcast;
    CandidateStands(EnterPreCandidate(n, draw), draw);
  }

  lemma RoleVotes(n: Node, draw: nat)
    ensures PreVoting(n, Feed(Input.Tick, draw), TickRole(n, draw).node)
  {
    hide BecomePreCandidate, HasQuorum, CheckQuorumFails;
    PreCandidateVotes(n, draw);
    PreCandidateVotes(CheckQuorum(n), draw);
  }

  lemma TickVotes(n: Node, draw: nat)
    ensures PreVoting(n, Feed(Input.Tick, draw), HandleTick(n, draw).node)
  {
    hide TickRole, HasQuorum, Broadcast, FetchDue;
    RoleVotes(ScheduleFetch(AdvanceClock(n)).node, draw);
  }

  lemma PreVoteResponseVotes(n: Node, voter: NodeId, resp: PreVoteResponse, draw: nat)
    ensures PreVoting(n, Feed(PreVoteAnswered(voter, resp), draw), HandlePreVoteResponse(n, voter, resp, draw).node)
  {
    hide BecomeCandidate, HasQuorum;
    var move := Feed(PreVoteAnswered(voter, resp), draw);
    CandidateStands(n.(preVotesReceived := n.preVotesReceived + {voter}), draw);
    if n.role == PreCandidate && resp.term <= n.term && resp.voteGranted && voter in VoterIds(n.cfg) {
      assert GrantedBy(n, move, voter);
    }
  }

  lemma OtherModest(n: Node, input: Input, draw: nat)
    requires !input.Tick? && !input.PreVoteAnswered?
    ensures Modest(n, Step(n, input, draw).node)
  {
    hide AdvanceAndDrain, ConsumeAnswer, BecomeLeader, HasQuorum, CandidateLogIsUpToDate, WellFormedBatch,
      RecogniseLeader;
    match input
    case VoteAnswered(voter, resp) => LeaderModest(n.(votesReceived := n.votesReceived + {voter}), draw);
    case ClientPropose(command) => AdvanceModest(n.(lastLogIndex := n.lastLogIndex + 1, lastLogTerm := n.term));
    case FetchRequestAcked(replica, confirmed) => AdvanceModest(RecordProgress(n, replica, confirmed));
    case FetchAnswered(resp) =>
      if !DropsAnswer(n, resp) {
        RecogniseFollows(n, resp, draw);
        ConsumeKeepsHardState(RecogniseLeader(n, resp, draw).node, resp);
      }
    case _ =>
  }

  lemma AdvanceModest(n: Node)
    ensures Modest(n, AdvanceAndDrain(n).node)
  {
    hide CommitCandidate;
  }

  lemma RecogniseFollows(n: Node, resp: FetchResponse, draw: nat)
    requires !DropsAnswer(n, resp)
    ensures RecogniseLeader(n, resp, draw).node.role == Follower || RecogniseLeader(n, resp, draw).node.role == Observer
  {
  }

  lemma MoveVotes(n: Node, move: Move)
    ensures PreVoting(n, move, Moved(n, move).node)
  {
    hide HandleTick, HandlePreVoteResponse, HasQuorum;
    if move.Feed? {
      match move.input
      case Tick => TickVotes(n, move.draw);
      case PreVoteAnswered(voter, resp) => PreVoteResponseVotes(n, voter, resp, move.draw);
      case _ =>
        OtherModest(n, move.input, move.draw);
    }
  }

  /** One pre-vote phase from `s` to `i`: begun with the own vote alone, never left, and its tally never cleared. */
  ghost predicate Phase(nodes: seq<Node>, moves: seq<Move>, s: nat, i: nat)
    requires |nodes| == |moves| + 1 && i <= |moves|
  {
    && s <= i && nodes[s].preVotesReceived == {nodes[0].cfg.id}
    && (forall k :: s <= k <= i ==> nodes[k].role == PreCandidate)
    && (forall k :: s <= k < i ==> nodes[k].preVotesReceived <= nodes[k + 1].preVotesReceived)
  }

  /** Every vote is the own one or was granted in moves `s` to `i - 1`. */
  ghost predicate Earned(nodes: seq<Node>, moves: seq<Move>, s: nat, i: nat, votes: set<NodeId>)
    requires |nodes| == |moves| + 1 && i <= |moves|
  {
    forall v :: v in votes ==> v == nodes[0].cfg.id || GrantedIn(nodes, moves, s, i, v)
  }

  ghost predicate GrantedIn(nodes: seq<Node>, moves: seq<Move>, s: nat, i: nat, v: NodeId)
    requires |nodes| == |moves| + 1 && i <= |moves|
  {
    exists k :: s <= k < i && GrantedBy(nodes[k], moves[k], v)
  }

  lemma {:induction false} PhaseStarts(nodes: seq<Node>, moves: seq<Move>, i: nat) returns (s: nat)
    requires Trace(nodes, moves) && nodes[0].role != PreCandidate && i < |nodes| && nodes[i].role == PreCandidate
    ensures Phase(nodes, moves, s, i) && Earned(nodes, moves, s, i, nodes[i].preVotesReceived)
  {
    hide Moved, Onward, HasQuorum;
    var j := i - 1;
    assert nodes[j + 1] == Moved(nodes[j], moves[j]).node;
    MoveVotes(nodes[j], moves[j]);
    RunOnward(nodes, moves, 0, j);
    SameId(nodes[0], nodes[j]);
    if nodes[i].preVotesReceived == {nodes[j].cfg.id} {
      s := i;
    } else {
      s := PhaseStarts(nodes, moves, j);
      forall v | v in nodes[i].preVotesReceived
        ensures v == nodes[0].cfg.id || GrantedIn(nodes, moves, s, i, v)
      {
        if v in nodes[j].preVotesReceived && v != nodes[0].cfg.id {
          assert GrantedIn(nodes, moves, s, j, v);
        }
      }
    }
  }

  lemma SameId(n: Node, n': Node)
    requires Onward(n, n')
    ensures n'.cfg == n.cfg
  {
  }

  /**
   In every run, a node raises its own term by candidacy only on the votes of a quorum:
   itself, and voters that granted a pre-vote in one and the same phase up to that moment. A
   phase restarted by a timeout clears the tally, so grants of an earlier round do not count.
   */
  lemma CandidacyNeedsQuorum(nodes: seq<Node>, moves: seq<Move>, i: nat) returns (votes: set<NodeId>, s: nat)
    requires Trace(nodes, moves) && nodes[0].role != PreCandidate && i < |moves| && Stands(nodes[i], nodes[i + 1])
    ensures HasQuorum(nodes[0].cfg, votes)
    ensures votes == {nodes[0].cfg.id}
            || (Phase(nodes, moves, s, i) && Earned(nodes, moves, s, i + 1, votes))
  {
    hide Moved, Onward, HasQuorum;
    MoveVotes(nodes[i], moves[i]);
    RunOnward(nodes, moves, 0, i);
    SameId(nodes[0], nodes[i]);
    s := 0;
    if HasQuorum(nodes[0].cfg, {nodes[0].cfg.id}) {
      votes := {nodes[0].cfg.id};
    } else {
      var v :| GrantedBy(nodes[i], moves[i], v) && HasQuorum(nodes[0].cfg, nodes[i].preVotesReceived + {v});
      s := PhaseStarts(nodes, moves, i);
      votes := nodes[i].preVotesReceived + {v};
      forall u | u in votes ensures u == nodes[0].cfg.id || GrantedIn(nodes, moves, s, i + 1, u) {
        if u in nodes[i].preVotesReceived && u != nodes[0].cfg.id {
          assert GrantedIn(nodes, moves, s, i, u);
        }
      }
    }
  }

  /** Alone, a node is a quorum only in a single-voter cluster. */
  lemma AloneNoQuorum(cfg: Config)
    requires |VoterIds(cfg)| != 1
    ensures !HasQuorum(cfg, {cfg.id})
  {
    var both := {cfg.id} * VoterIds(cfg);
    SubsetSize(both, {cfg.id});
    if VoterIds(cfg) == {} {
      assert both == {};
    }
  }

  /** Ticks alone never change the term or the vote of a node that is not the only voter. */
  lemma {:induction false} TicksInflateNothing(nodes: seq<Node>, moves: seq<Move>, i: nat)
    requires Trace(nodes, moves) && i < |nodes| && |VoterIds(nodes[0].cfg)| != 1
    requires forall k :: 0 <= k < |moves| ==> moves[k].Feed? && moves[k].input == Input.Tick
    ensures Durable(nodes[i]) == Durable(nodes[0])
  {
    hide HandleTick, Onward, HasQuorum;
    if i > 0 {
      var j := i - 1;
      TicksInflateNothing(nodes, moves, j);
      assert nodes[j + 1] == Moved(nodes[j], moves[j]).node;
      RunOnward(nodes, moves, 0, j);
      SameId(nodes[0], nodes[j]);
      AloneNoQuorum(nodes[0].cfg);
      TickPersists(nodes[j], moves[j].draw);
    }
  }
}
