/**
 One engine fed any sequence of inputs, whatever the network and the other nodes
 do: the shape that every step has, and what follows for terms, votes and roles.
 */
module EngineRuns {
  import opened Base
  import opened Messages
  import opened Engine

  /** What the driver may do to an engine: feed an input, or mirror the tail of the durable log. */
  datatype Move = Feed(input: Input, draw: nat) | Mirror(index: nat, term: nat)

  function Moved(n: Node, move: Move): Out {
    match move
    case Feed(input, draw) => Step(n, input, draw)
    case Mirror(index, term) => Out(SetLastLog(n, index, term), [])
  }

  /** A run of one engine: `nodes[i]` is its state before move `i`. */
  ghost predicate Trace(nodes: seq<Node>, moves: seq<Move>) {
    |nodes| == |moves| + 1 && forall i :: 0 <= i < |moves| ==> nodes[i + 1] == Moved(nodes[i], moves[i]).node
  }

  // ------------------------------------------------------------------
  // The shape of a step
  // ------------------------------------------------------------------

  /** The node can no longer become, or be, the leader of term `t`. */
  ghost predicate Past(n: Node, t: nat) {
    n.term > t || (n.term == t && n.role != Candidate && n.role != Leader)
  }

  /** The peer map keeps its keys and voter flags. */
  ghost predicate SamePeers(n: Node, n': Node) {
    n'.peers.Keys == n.peers.Keys && forall p :: p in n.peers ==> n'.peers[p].isVoter == n.peers[p].isVoter
  }

  /** No recorded fetch lies in the future. */
  ghost predicate FetchesPast(n: Node) {
    forall p :: p in n.peers ==> n.peers[p].lastFetchTime <= n.logicalTick
  }

  /** `n'` may come after `n`: the term does not fall, a vote stays within its term, a lost leadership stays lost. */
  ghost predicate Onward(n: Node, n': Node) {
    && n'.cfg == n.cfg && n.logicalTick <= n'.logicalTick && SamePeers(n, n')
    && (FetchesPast(n) ==> FetchesPast(n'))
    && n.term <= n'.term
    && (n'.term == n.term && n.votedFor.Some? ==> n'.votedFor == n.votedFor)
    && (n.role == Observer ==> n'.role == Observer && (n.votedFor.None? ==> n'.votedFor.None?))
    && (forall t: nat :: Past(n, t) ==> Past(n', t))
    && (n.role == Leader ==> (n'.role == Leader && n'.term == n.term) || Past(n', n.term))
  }

  lemma OnwardTransitive(n: Node, n': Node, n'': Node)
    requires Onward(n, n') && Onward(n', n'')
    ensures Onward(n, n'')
  {
  }

  /** An election message: sent only by nodes that take part in elections. */
  predicate Electoral(a: Action) {
    a.SendMessage? && !a.message.FetchReq? && !a.message.FetchSnapshotReq?
  }

  predicate Tame(a: Action) {
    && !a.ApplyToStateMachine? && !a.TakeSnapshot?
    && !(a.TruncateLog? && a.truncation.PrefixThroughInclusive?)
  }

  /** A fetch is served only past the snapshot it could be redirected to. */
  predicate ServedPast(snapshot: Option<SnapshotMeta>, a: Action) {
    a.ServeFetch? && snapshot.Some? && snapshot.value.id != "" ==> a.fetchOffset > snapshot.value.lastIncludedIndex
  }

  /** Nothing is committed, applied or snapshotted, and an observer stays out of elections. */
  ghost predicate Calm(n: Node, o: Out) {
    && Onward(n, o.node)
    && o.node.commitIndex == n.commitIndex && o.node.lastApplied == n.lastApplied
    && o.node.snapshotInFlight == n.snapshotInFlight && o.node.lastSnapshotMeta == n.lastSnapshotMeta
    && (forall a :: a in o.actions ==>
          Tame(a) && ServedPast(n.lastSnapshotMeta, a) && (n.role == Observer ==> !Electoral(a)))
  }

  /** A calm part, then the commit index raised to `c` and the apply pipeline drained. */
  ghost predicate Poured(n: Node, m: Node, pre: seq<Action>, c: nat, o: Out) {
    var d := DrainApplyPipeline(m.(commitIndex := c));
    Calm(n, Out(m, pre)) && c > m.commitIndex && o == Out(d.node, pre + d.actions)
  }

  /** Every step but the two snapshot confirmations is calm, or calm and then one drain. */
  ghost predicate Pours(n: Node, o: Out) {
    Calm(n, o) || exists m, pre, c: nat :: Poured(n, m, pre, c, o)
  }

  function Then(o: Out, o': Out): Out {
    Out(o'.node, o.actions + o'.actions)
  }

  lemma CalmThen(n: Node, o: Out, o': Out)
    requires Calm(n, o) && Calm(o.node, o')
    ensures Calm(n, Then(o, o'))
  {
    hide Onward;
    OnwardTransitive(n, o.node, o'.node);
    if n.role == Observer {
      ObserverStays(n, o.node);
    }
  }

  lemma ObserverStays(n: Node, n': Node)
    requires Onward(n, n') && n.role == Observer
    ensures n'.role == Observer
  {
  }

  lemma PoursThen(n: Node, o: Out, o': Out)
    requires Calm(n, o) && Pours(o.node, o')
    ensures Pours(n, Then(o, o'))
  {
    hide Calm, DrainApplyPipeline;
    if Calm(o.node, o') {
      CalmThen(n, o, o');
    } else {
      var m, pre, c: nat :| Poured(o.node, m, pre, c, o');
      CalmThen(n, o, Out(m, pre));
      var d := DrainApplyPipeline(m.(commitIndex := c));
      assert o.actions + pre + d.actions == o.actions + (pre + d.actions);
      assert Poured(n, m, o.actions + pre, c, Then(o, o'));
    }
  }

  lemma CalmNode(n: Node, n': Node, actions: seq<Action>)
    requires Onward(n, n')
    requires n'.commitIndex == n.commitIndex && n'.lastApplied == n.lastApplied
    requires n'.snapshotInFlight == n.snapshotInFlight && n'.lastSnapshotMeta == n.lastSnapshotMeta
    requires forall a :: a in actions ==>
      Tame(a) && ServedPast(n.lastSnapshotMeta, a) && (n.role == Observer ==> !Electoral(a))
    ensures Calm(n, Out(n', actions)) && Pours(n, Out(n', actions))
  {
  }

  lemma AdvancePours(n: Node)
    ensures Pours(n, AdvanceAndDrain(n))
  {
    hide DrainApplyPipeline, CommitCandidate;
    CalmNode(n, n, []);
    var c := CommitCandidate(n);
    CandidateAbove(n);
    if c.Some? {
      var d := DrainApplyPipeline(n.(commitIndex := c.value));
      assert [] + d.actions == d.actions;
      assert Poured(n, n, [], c.value, AdvanceAndDrain(n));
    }
  }

  lemma CandidateAbove(n: Node)
    ensures CommitCandidate(n).Some? ==> CommitCandidate(n).value > n.commitIndex && n.role == Leader
  {
  }

  lemma FollowerCalm(n: Node, term: nat, leader: Option<NodeId>, draw: nat)
    ensures Calm(n, BecomeFollower(n, term, leader, draw))
  {
    var o := BecomeFollower(n, term, leader, draw);
    CalmNode(n, o.node, o.actions);
  }

  lemma LeaderPours(n: Node, draw: nat)
    requires n.role == Candidate
    ensures Pours(n, BecomeLeader(n, draw))
  {
    hide AdvanceAndDrain, Pours;
    var o := Out(EnterLeader(n, draw), [AnnounceLeader, AppendEntries([NoOpEntry(n)])]);
    CalmNode(n, o.node, o.actions);
    AdvancePours(o.node);
    PoursThen(n, o, AdvanceAndDrain(o.node));
  }

  lemma CandidatePours(n: Node, draw: nat)
    requires n.role != Observer
    ensures Pours(n, BecomeCandidate(n, draw))
  {
    hide BecomeLeader, HasQuorum;
    var c := EnterCandidate(n, draw);
    var request := VoteReq(VoteRequest(c.cfg.clusterId, c.term, c.cfg.id, c.lastLogIndex, c.lastLogTerm));
    BroadcastSends(c.cfg.peerOrder, c.peers, request);
    var o := Out(c, [PersistHardState] + Broadcast(c.cfg.peerOrder, c.peers, request));
    CalmNode(n, o.node, o.actions);
    LeaderPours(c, draw);
    PoursThen(n, o, BecomeLeader(c, draw));
  }

  lemma PreCandidatePours(n: Node, draw: nat)
    requires n.role != Observer
    ensures Pours(n, BecomePreCandidate(n, draw))
  {
    hide BecomeCandidate, HasQuorum;
    var p := EnterPreCandidate(n, draw);
    var request := PreVoteReq(PreVoteRequest(p.cfg.clusterId, p.term + 1, p.cfg.id, p.lastLogIndex, p.lastLogTerm));
    BroadcastSends(p.cfg.peerOrder, p.peers, request);
    var o := Out(p, Broadcast(p.cfg.peerOrder, p.peers, request));
    CalmNode(n, o.node, o.actions);
    CandidatePours(p, draw);
    PoursThen(n, o, BecomeCandidate(p, draw));
  }

  lemma TickPours(n: Node, draw: nat)
    ensures Pours(n, HandleTick(n, draw))
  {
    hide BecomePreCandidate, BecomeFollower, CheckQuorumFails, Pours, Broadcast, FetchDue;
    var f := ScheduleFetch(AdvanceClock(n));
    BroadcastSends(n.cfg.peerOrder, n.peers, FetchReq(NextFetch(AdvanceClock(n))));
    CalmNode(n, f.node, f.actions);
    RolePours(f.node, draw);
    PoursThen(n, f, TickRole(f.node, draw));
  }

  lemma RolePours(n: Node, draw: nat)
    ensures Pours(n, TickRole(n, draw))
  {
    hide BecomePreCandidate, BecomeFollower, CheckQuorumFails, Pours;
    var m := Out(CheckQuorum(n), []);
    CalmNode(n, m.node, []);
    CalmNode(n, n, []);
    if CheckQuorumFails(n) {
      FollowerCalm(m.node, n.term, None, draw);
      CalmThen(n, m, BecomeFollower(m.node, n.term, None, draw));
      assert Then(m, BecomeFollower(m.node, n.term, None, draw)) == BecomeFollower(m.node, n.term, None, draw);
      CalmPours(n, TickRole(n, draw));
    } else if n.role != Observer {
      PreCandidatePours(n, draw);
    }
  }

  lemma CalmPours(n: Node, o: Out)
    requires Calm(n, o)
    ensures Pours(n, o)
  {
  }

  lemma VoteRequestPours(n: Node, req: VoteRequest, draw: nat)
    ensures Pours(n, HandleVoteRequest(n, req, draw))
  {
    var o := HandleVoteRequest(n, req, draw);
    CalmNode(n, o.node, o.actions);
  }

  lemma VoteResponsePours(n: Node, voter: NodeId, resp: VoteResponse, draw: nat)
    ensures Pours(n, HandleVoteResponse(n, voter, resp, draw))
  {
    hide BecomeLeader, BecomeFollower, HasQuorum, Pours;
    var o := HandleVoteResponse(n, voter, resp, draw);
    CalmNode(n, n, []);
    if resp.term > n.term {
      FollowerCalm(n, resp.term, None, draw);
      CalmPours(n, BecomeFollower(n, resp.term, None, draw));
    } else if n.role == Candidate {
      var m := Out(n.(votesReceived := n.votesReceived + {voter}), []);
      CalmNode(n, m.node, []);
      LeaderPours(m.node, draw);
      PoursThen(n, m, BecomeLeader(m.node, draw));
      assert Then(m, BecomeLeader(m.node, draw)) == BecomeLeader(m.node, draw);
    }
  }

  lemma PreVoteResponsePours(n: Node, voter: NodeId, resp: PreVoteResponse, draw: nat)
    ensures Pours(n, HandlePreVoteResponse(n, voter, resp, draw))
  {
    hide BecomeCandidate, BecomeFollower, HasQuorum, Pours;
    CalmNode(n, n, []);
    if resp.term > n.term {
      FollowerCalm(n, resp.term, None, draw);
      CalmPours(n, BecomeFollower(n, resp.term, None, draw));
    } else if n.role == PreCandidate {
      var m := Out(n.(preVotesReceived := n.preVotesReceived + {voter}), []);
      CalmNode(n, m.node, []);
      CandidatePours(m.node, draw);
      PoursThen(n, m, BecomeCandidate(m.node, draw));
      assert Then(m, BecomeCandidate(m.node, draw)) == BecomeCandidate(m.node, draw);
    }
  }

  lemma FetchRequestPours(n: Node, req: FetchRequest, draw: nat)
    ensures Pours(n, HandleFetchRequest(n, req, draw))
  {
    hide BecomeFollower, Pours;
    var o := HandleFetchRequest(n, req, draw);
    if req.leaderEpoch > n.term {
      FollowerCalm(n, req.leaderEpoch, None, draw);
      CalmPours(n, BecomeFollower(n, req.leaderEpoch, None, draw));
      CalmNode(n, n, []);
    } else {
      CalmNode(n, o.node, o.actions);
    }
  }

  lemma AckedPours(n: Node, replica: NodeId, confirmed: nat)
    ensures Pours(n, HandleFetchRequestAcked(n, replica, confirmed))
  {
    hide AdvanceAndDrain, Pours;
    CalmNode(n, n, []);
    var m := Out(RecordProgress(n, replica, confirmed), []);
    CalmNode(n, m.node, []);
    AdvancePours(m.node);
    PoursThen(n, m, AdvanceAndDrain(m.node));
    assert Then(m, AdvanceAndDrain(m.node)) == AdvanceAndDrain(m.node);
  }

  lemma ProposePours(n: Node, command: seq<bv8>)
    ensures Pours(n, HandleClientPropose(n, command))
  {
    hide AdvanceAndDrain, Pours;
    CalmNode(n, n, []);
    var e := Entry(n.lastLogIndex + 1, n.term, Command(command));
    var m := Out(n.(lastLogIndex := n.lastLogIndex + 1, lastLogTerm := n.term), [AppendEntries([e])]);
    CalmNode(n, m.node, m.actions);
    AdvancePours(m.node);
    PoursThen(n, m, AdvanceAndDrain(m.node));
  }

  lemma LearnPours(n: Node, highWatermark: nat)
    ensures Pours(n, LearnCommit(n, highWatermark))
  {
    hide DrainApplyPipeline;
    CalmNode(n, n, []);
    var c := Min(highWatermark, n.lastLogIndex);
    if c > n.commitIndex {
      var d := DrainApplyPipeline(n.(commitIndex := c));
      assert [] + d.actions == d.actions;
      assert Poured(n, n, [], c, LearnCommit(n, highWatermark));
    }
  }

  lemma ConsumePours(n: Node, resp: FetchResponse)
    ensures Pours(n, ConsumeAnswer(n, resp))
  {
    hide LearnCommit, WellFormedBatch, Pours;
    var o := ConsumeAnswer(n, resp);
    if resp.snapshotRedirect.Some? || resp.divergingEpoch.Some? {
      CalmNode(n, o.node, o.actions);
    } else if resp.entries == [] {
      LearnPours(n, resp.highWatermark);
    } else {
      CalmNode(n, n, []);
      var last := resp.entries[|resp.entries| - 1];
      var m := Out(n.(lastLogIndex := last.index, lastLogTerm := last.term), [AppendEntries(resp.entries)]);
      CalmNode(n, m.node, m.actions);
      LearnPours(m.node, resp.highWatermark);
      PoursThen(n, m, LearnCommit(m.node, resp.highWatermark));
    }
  }

  lemma RecogniseCalm(n: Node, resp: FetchResponse, draw: nat)
    ensures Calm(n, RecogniseLeader(n, resp, draw))
  {
    hide BecomeFollower, Calm, Onward;
    var a := if resp.leaderEpoch > n.term then BecomeFollower(n, resp.leaderEpoch, Some(resp.leaderId), draw)
             else Out(n, []);
    QuietOnward(n, n);
    CalmNode(n, n, []);
    FollowerCalm(n, resp.leaderEpoch, Some(resp.leaderId), draw);
    assert Calm(n, a);
    var b := if a.node.role == Candidate || a.node.role == PreCandidate
             then BecomeFollower(a.node, a.node.term, Some(resp.leaderId), draw)
             else Out(a.node.(leaderId := Some(resp.leaderId)), []);
    FollowerCalm(a.node, a.node.term, Some(resp.leaderId), draw);
    QuietOnward(a.node, a.node.(leaderId := Some(resp.leaderId)));
    CalmNode(a.node, a.node.(leaderId := Some(resp.leaderId)), []);
    CalmThen(n, a, b);
    var c := Out(b.node.(lastLeaderContact := Some(b.node.logicalTick), timer := ElectionTimer(0, draw)), []);
    QuietOnward(b.node, c.node);
    CalmNode(b.node, c.node, []);
    CalmThen(n, Then(a, b), c);
    assert Then(Then(a, b), c) == RecogniseLeader(n, resp, draw);
  }

  lemma FetchResponsePours(n: Node, resp: FetchResponse, draw: nat)
    ensures Pours(n, HandleFetchResponse(n, resp, draw))
  {
    hide RecogniseLeader, ConsumeAnswer, Pours, DropsAnswer;
    CalmNode(n, n, []);
    var a := RecogniseLeader(n, resp, draw);
    RecogniseCalm(n, resp, draw);
    ConsumePours(a.node, resp);
    PoursThen(n, a, ConsumeAnswer(a.node, resp));
  }

  lemma StepPours(n: Node, input: Input, draw: nat)
    requires !input.SnapshotComplete? && !input.SnapshotInstalled?
    ensures Pours(n, Step(n, input, draw))
  {
    hide Pours, HandleTick, HandleVoteRequest, HandleVoteResponse, HandlePreVoteResponse, HandleFetchRequest,
      HandleFetchResponse, HandleClientPropose, HandleFetchRequestAcked;
    match input
    case Tick => TickPours(n, draw);
    case VoteRequested(req) => VoteRequestPours(n, req, draw);
    case VoteAnswered(voter, resp) => VoteResponsePours(n, voter, resp, draw);
    case PreVoteRequested(req) => CalmNode(n, n, Step(n, input, draw).actions);
    case PreVoteAnswered(voter, resp) => PreVoteResponsePours(n, voter, resp, draw);
    case FetchRequested(req) => FetchRequestPours(n, req, draw);
    case FetchAnswered(resp) => FetchResponsePours(n, resp, draw);
    case ClientPropose(command) => ProposePours(n, command);
    case FetchRequestAcked(replica, offset) => AckedPours(n, replica, offset);
    case FetchSnapshotReceived(metadata, data) => CalmNode(n, n, Step(n, input, draw).actions);
  }

  // ------------------------------------------------------------------
  // Terms, votes and roles over runs
  // ------------------------------------------------------------------

  lemma DrainQuiet(m: Node, c: nat)
    ensures Onward(m, DrainApplyPipeline(m.(commitIndex := c)).node)
  {
    hide Onward;
    QuietOnward(m, DrainApplyPipeline(m.(commitIndex := c)).node);
  }

  lemma PoursOnward(n: Node, o: Out)
    requires Pours(n, o)
    ensures Onward(n, o.node)
  {
    hide Onward, DrainApplyPipeline;
    if !Calm(n, o) {
      var m, pre, c: nat :| Poured(n, m, pre, c, o);
      DrainQuiet(m, c);
      OnwardTransitive(n, m, o.node);
    }
  }

  lemma MoveOnward(n: Node, move: Move)
    ensures Onward(n, Moved(n, move).node)
  {
    hide Pours, Onward;
    if move.Feed? && !move.input.SnapshotComplete? && !move.input.SnapshotInstalled? {
      hide Step;
      StepPours(n, move.input, move.draw);
      PoursOnward(n, Step(n, move.input, move.draw));
    } else {
      QuietOnward(n, Moved(n, move).node);
    }
  }

  lemma QuietOnward(n: Node, n': Node)
    requires n'.cfg == n.cfg && n'.role == n.role && n'.term == n.term && n'.votedFor == n.votedFor
    requires n'.peers == n.peers && n'.logicalTick == n.logicalTick
    ensures Onward(n, n')
  {
  }

  lemma {:induction false} RunOnward(nodes: seq<Node>, moves: seq<Move>, i: nat, j: nat)
    requires Trace(nodes, moves) && i <= j < |nodes|
    ensures Onward(nodes[i], nodes[j])
    decreases j
  {
    hide Onward, Moved;
    if i == j {
      QuietOnward(nodes[i], nodes[i]);
    } else {
      RunOnward(nodes, moves, i, j - 1);
      assert nodes[j - 1 + 1] == Moved(nodes[j - 1], moves[j - 1]).node;
      MoveOnward(nodes[j - 1], moves[j - 1]);
      OnwardTransitive(nodes[i], nodes[j - 1], nodes[j]);
    }
  }

  /** Over every run the term never falls, and a vote once cast in a term stays. */
  lemma VoteOncePerTerm(nodes: seq<Node>, moves: seq<Move>, i: nat, j: nat)
    requires Trace(nodes, moves) && i <= j < |nodes|
    ensures nodes[i].term <= nodes[j].term
    ensures nodes[i].term == nodes[j].term && nodes[i].votedFor.Some? ==> nodes[j].votedFor == nodes[i].votedFor
  {
    hide Moved;
    RunOnward(nodes, moves, i, j);
  }

  /** A leadership that ends is over for its term: no run leads one term twice. */
  lemma LeadsOncePerTerm(nodes: seq<Node>, moves: seq<Move>, i: nat, j: nat, k: nat)
    requires Trace(nodes, moves) && i <= j <= k < |nodes| && nodes[i].role == Leader
    requires nodes[j].role != Leader || nodes[j].term != nodes[i].term
    ensures nodes[k].role != Leader || nodes[k].term != nodes[i].term
  {
    hide Moved;
    RunOnward(nodes, moves, i, j);
    RunOnward(nodes, moves, j, k);
  }

  lemma MoveQuietForObserver(n: Node, move: Move)
    requires n.role == Observer
    ensures forall a :: a in Moved(n, move).actions ==> !Electoral(a)
  {
    hide Onward, Step;
    if move.Feed? {
      if move.input.SnapshotComplete? || move.input.SnapshotInstalled? {
        SnapshotQuiet(n, move.input, move.draw);
      } else {
        StepPours(n, move.input, move.draw);
        PoursQuiet(n, Step(n, move.input, move.draw));
      }
    }
  }

  lemma SnapshotQuiet(n: Node, input: Input, draw: nat)
    requires input.SnapshotComplete? || input.SnapshotInstalled?
    ensures forall a :: a in Step(n, input, draw).actions ==> !Electoral(a)
  {
  }

  lemma PoursQuiet(n: Node, o: Out)
    requires Pours(n, o) && n.role == Observer
    ensures forall a :: a in o.actions ==> !Electoral(a)
  {
    hide Onward;
    if !Calm(n, o) {
      var m, pre, c: nat :| Poured(n, m, pre, c, o);
      var d := DrainApplyPipeline(m.(commitIndex := c));
      assert forall a :: a in o.actions ==> a in pre || a in d.actions;
    }
  }

  /** A node constructed as an observer stays one, never votes and never sends an election message. */
  lemma ObserverForever(nodes: seq<Node>, moves: seq<Move>, cfg: Config, draw: nat, i: nat)
    requires Trace(nodes, moves) && nodes[0] == NewNode(cfg, draw) && cfg.id in cfg.observers && i < |nodes|
    ensures nodes[i].role == Observer && nodes[i].votedFor == None
    ensures i < |moves| ==> forall a :: a in Moved(nodes[i], moves[i]).actions ==> !Electoral(a)
  {
    hide Moved;
    RunOnward(nodes, moves, 0, i);
    if i < |moves| {
      MoveQuietForObserver(nodes[i], moves[i]);
    }
  }
}
