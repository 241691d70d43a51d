/**
 The Check-Quorum window is one tick shorter than it looks: a run in which a
 quorum fetches within the window and the check still ends the reign.
 */
module WindowScenario {
  import opened Base
  import opened Messages
  import opened Quorums
  import opened Engine
  import opened EngineRuns
  import opened CheckQuorum
  import Script

  /** Three voters and a window of two ticks. */
  function Small(): Config {
    Config(1, "", Some([1, 2, 3]), [], [2, 3], 1, 2, true, false, 100)
  }

  function Plan(): seq<Move> {
    [Feed(Input.Tick, 0),
     Feed(PreVoteAnswered(2, PreVoteResponse("", 0, true, None)), 0),
     Feed(VoteAnswered(2, VoteResponse("", 1, true, None)), 0),
     Feed(FetchRequested(FetchRequest("", 1, 2, 1, 0)), 0),
     Feed(Input.Tick, 0),
     Feed(Input.Tick, 0)]
  }

  lemma Quorum()
    ensures VoterIds(Small()) == {1, 2, 3} && !HasQuorum(Small(), {1}) && HasQuorum(Small(), {1} + {2})
  {
    assert {1} + {2} == {1, 2} && {1, 2} * {1, 2, 3} == {1, 2} && {1} * {1, 2, 3} == {1};
  }

  /** Tick, pre-vote and vote make node 1 the leader of term 1. */
  lemma Rises() returns (n1: Node, n2: Node, n3: Node)
    ensures n1 == Moved(NewNode(Small(), 0), Plan()[0]).node && n2 == Moved(n1, Plan()[1]).node
    ensures n3 == Moved(n2, Plan()[2]).node && n2.role == Candidate
    ensures n3.role == Leader && n3.term == 1 && n3.cfg == Small() && n3.peers.Keys == {2, 3}
    ensures n3.checkQuorumElapsed == 0
    ensures n3.lastSnapshotMeta == None
  {
    hide HasQuorum, VoterIds, CommitCandidate, HandleTick, HandlePreVoteResponse, HandleVoteResponse, EnterLeader;
    Quorum();
    n1, n2 := Stands();
    Leads(n2);
    Script.VoteWon(n2, 2, VoteResponse("", 1, true, None), 0);
    n3 := EnterLeader(n2, 0);
  }

  /** What the first two moves leave behind. */
  ghost predicate Standing(n: Node) {
    && n.role == Candidate && n.term == 1 && n.cfg == Small() && n.peers.Keys == {2, 3} && n.votesReceived == {1}
    && (forall p :: p in n.peers ==> n.peers[p].isVoter) && n.lastSnapshotMeta == None && n.commitIndex == 0
  }

  lemma Stands() returns (n1: Node, n2: Node)
    ensures n1 == Moved(NewNode(Small(), 0), Plan()[0]).node && n2 == Moved(n1, Plan()[1]).node && Standing(n2)
  {
    hide HasQuorum, VoterIds, HandleTick, HandlePreVoteResponse;
    Quorum();
    var n0 := NewNode(Small(), 0);
    StartsSmall();
    Script.PreVoteStarts(n0, 0);
    n1 := EnterPreCandidate(ScheduleFetch(AdvanceClock(n0)).node, 0);
    Script.PreVoteWon(n1, 2, PreVoteResponse("", 0, true, None), 0);
    n2 := EnterCandidate(n1.(preVotesReceived := n1.preVotesReceived + {2}), 0);
  }

  lemma Leads(n: Node)
    requires Standing(n)
    ensures var l := EnterLeader(n, 0);
      && CommitCandidate(l).None? && l.role == Leader && l.term == 1 && l.cfg == Small() && l.peers.Keys == {2, 3}
      && l.checkQuorumElapsed == 0 && l.lastSnapshotMeta == None
  {
    hide CommitCandidate;
    var l := EnterLeader(n, 0);
    assert l.peers.Keys == {2, 3};
    NothingToCommit(l);
  }

  lemma StartsSmall()
    ensures var n := NewNode(Small(), 0);
      && n.role == Follower && n.term == 0 && n.peers.Keys == {2, 3} && n.timer == ElectionTimer(0, 0)
      && n.cfg == Small()
      && (forall p :: p in n.peers ==> n.peers[p].isVoter) && n.lastSnapshotMeta == None
  {
    Quorum();
    assert SetOf([]) == {};
  }

  lemma NothingToCommit(l: Node)
    requires l.role == Leader && l.leaderNoOpIndex.Some? && l.cfg == Small() && l.peers.Keys == {2, 3}
    requires l.commitIndex == 0
    requires forall p :: p in l.peers ==> l.peers[p].isVoter && l.peers[p].lastFetchOffset == 0
    ensures CommitCandidate(l).None?
  {
    hide CommitCandidate;
    Quorum();
    Script.NoCommit(l);
  }

  lemma Accepted(n: Node)
    requires n.role == Leader && n.term == 1 && n.cfg == Small() && n.peers.Keys == {2, 3} && n.lastSnapshotMeta == None
    ensures FetchFrom(n, Plan()[3], 2) && Moved(n, Plan()[3]).node.role == Leader
    ensures Moved(n, Plan()[3]).node.term == 1
  {
  }

  /** The whole run. */
  lemma Plays() returns (nodes: seq<Node>)
    ensures NewRun(nodes, Plan(), Small(), 0) && |nodes| == 7
    ensures nodes[2].role == Candidate && nodes[3].role == Leader && nodes[3].term == 1
    ensures nodes[3].checkQuorumElapsed == 0
    ensures FetchFrom(nodes[3], Plan()[3], 2) && nodes[4].role == Leader && nodes[4].term == 1
  {
    hide Moved, NewNode, FetchFrom;
    var n1, n2, n3 := Rises();
    Accepted(n3);
    var n4 := Moved(n3, Plan()[3]).node;
    var n5 := Moved(n4, Plan()[4]).node;
    nodes := [NewNode(Small(), 0), n1, n2, n3, n4, n5, Moved(n5, Plan()[5]).node];
  }

  /**
   With a window of two ticks: voter 2 fetches once within the two ticks of the reign, a
   quorum with the leader, and the second tick ends the reign all the same.
   */
  lemma FetchAgesOut() returns (nodes: seq<Node>, moves: seq<Move>)
    ensures NewRun(nodes, moves, Small(), 0) && |moves| == 6 && ReignSince(nodes, 3, 5) && Ticks(moves[5])
    ensures TickCount(moves, 3, 6) == Small().checkQuorumTicks
    ensures SelfCount(nodes[3]) + |Fetchers(nodes, moves, 3, 6)| >= QuorumSize(VoterIds(Small()))
    ensures nodes[6].role != Leader || nodes[6].term != nodes[5].term
  {
    hide Moved, NewNode, CheckQuorumReachable;
    nodes := Plays();
    moves := Plan();
    RunFacts(nodes, moves, Small(), 0, 3);
    RunFacts(nodes, moves, Small(), 0, 4);
    RunFacts(nodes, moves, Small(), 0, 5);
    Steps(nodes, moves);
    Quorum();
    assert FetchedIn(nodes, moves, 3, 6, 2);
    SubsetSize({2}, Fetchers(nodes, moves, 3, 6));
    assert TickCount(moves, 3, 3) == 0 && TickCount(moves, 3, 4) == 0;
    assert TickCount(moves, 3, 5) == 1 && TickCount(moves, 3, 6) == 2;
  }

  lemma Steps(nodes: seq<Node>, moves: seq<Move>)
    requires NewRun(nodes, moves, Small(), 0) && moves == Plan() && |nodes| == 7
    requires nodes[2].role == Candidate && nodes[3].role == Leader && nodes[3].term == 1
    requires nodes[3].checkQuorumElapsed == 0
    requires nodes[4].role == Leader && nodes[4].term == 1
    ensures ReignSince(nodes, 3, 5) && (nodes[6].role != Leader || nodes[6].term != nodes[5].term)
  {
    hide Moved, NewNode, CheckQuorumReachable, LateFetchers, FetchFrom;
    RunFacts(nodes, moves, Small(), 0, 4);
    RunFacts(nodes, moves, Small(), 0, 3);
    Unbroken(nodes, moves, 3, 4, 3);
    CheckDecides(nodes, moves, Small(), 0, 3, 4);
    Unbroken(nodes, moves, 3, 5, 4);
    RunFacts(nodes, moves, Small(), 0, 5);
    NobodyLate(nodes, moves);
    Quorum();
    CheckDecides(nodes, moves, Small(), 0, 3, 5);
  }

  lemma NobodyLate(nodes: seq<Node>, moves: seq<Move>)
    requires |nodes| == 7 && moves == Plan() && nodes[5].cfg == Small()
    requires nodes[5].logicalTick == nodes[3].logicalTick + 1
    ensures LateFetchers(nodes, moves, 3, 5) == {}
  {
    forall p ensures p !in LateFetchers(nodes, moves, 3, 5) {
      assert !FetchFrom(nodes[4], moves[4], p);
    }
  }
}
