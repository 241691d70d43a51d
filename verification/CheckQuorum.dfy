/**
 Check-Quorum: how long a leader that its voters no longer reach may stay, and
 when the check never ends a leadership.
 */
module CheckQuorum {
  import opened Base
  import opened Messages
  import opened Quorums
  import opened Engine
  import opened EngineQuorum
  import opened EngineRuns
  import EngineBallots

  predicate Ticks(move: Move) {
    move.Feed? && move.input == Input.Tick
  }

  /** The move is a fetch by `p` that the leader accepts. */
  predicate FetchFrom(n: Node, move: Move, p: NodeId) {
    && move.Feed? && move.input.FetchRequested? && n.role == Leader
    && var req := move.input.fetchReq;
    && req.replicaId == p && req.clusterId == n.cfg.clusterId && p != n.cfg.id && IsKnownReplica(n, p)
    && req.leaderEpoch <= n.term && req.fetchOffset != 0
  }

  /** How one move changes the clocks of a leader that stays leader. */
  ghost predicate Reigns(n: Node, move: Move, n': Node) {
    && n'.cfg == n.cfg && n'.peers.Keys == n.peers.Keys
    && n'.logicalTick == n.logicalTick + (if Ticks(move) then 1 else 0)
    && (forall p :: p in n.peers ==>
          n'.peers[p].lastFetchTime == if FetchFrom(n, move, p) then n.logicalTick else n.peers[p].lastFetchTime)
    && (if Ticks(move) && n.cfg.enableCheckQuorum then
          if n.checkQuorumElapsed + 1 >= n.cfg.checkQuorumTicks
          then n'.checkQuorumElapsed == 0 && CheckQuorumReachable(n')
          else n'.checkQuorumElapsed == n.checkQuorumElapsed + 1
        else n'.checkQuorumElapsed == n.checkQuorumElapsed)
  }

  lemma AdvanceReigns(n: Node, m: Node, move: Move)
    requires !Ticks(move) && m.cfg == n.cfg && m.peers.Keys == n.peers.Keys && m.logicalTick == n.logicalTick
    requires m.checkQuorumElapsed == n.checkQuorumElapsed && (forall p :: !FetchFrom(n, move, p))
    requires forall p :: p in n.peers ==> m.peers[p].lastFetchTime == n.peers[p].lastFetchTime
    ensures Reigns(n, move, AdvanceAndDrain(m).node)
  {
    hide CommitCandidate;
  }

  lemma TickReigns(n: Node, draw: nat)
    requires n.role == Leader && HandleTick(n, draw).node.role == Leader
    ensures Reigns(n, Feed(Input.Tick, draw), HandleTick(n, draw).node)
  {
    hide BecomePreCandidate;
  }

  lemma FetchReigns(n: Node, req: FetchRequest, draw: nat)
    requires n.role == Leader && HandleFetchRequest(n, req, draw).node.role == Leader
    ensures Reigns(n, Feed(FetchRequested(req), draw), HandleFetchRequest(n, req, draw).node)
  {
  }

  lemma RejectsAnswers(n: Node, resp: FetchResponse, draw: nat)
    requires n.role == Leader && HandleFetchResponse(n, resp, draw).node.role == Leader
    ensures HandleFetchResponse(n, resp, draw).node == n
  {
    hide WellFormedBatch;
  }

  lemma QuietReigns(n: Node, move: Move, n': Node)
    requires !Ticks(move) && !(move.Feed? && move.input.FetchRequested?)
    requires n'.cfg == n.cfg && n'.peers == n.peers && n'.logicalTick == n.logicalTick
    requires n'.checkQuorumElapsed == n.checkQuorumElapsed
    ensures Reigns(n, move, n')
  {
  }

  lemma OtherFields(n: Node, input: Input, draw: nat)
    requires n.role == Leader && Step(n, input, draw).node.role == Leader
    requires !input.Tick? && !input.FetchRequested? && !input.FetchAnswered? && !input.ClientPropose?
    requires !input.FetchRequestAcked?
    ensures var n' := Step(n, input, draw).node;
      && n'.cfg == n.cfg && n'.peers == n.peers && n'.logicalTick == n.logicalTick
      && n'.checkQuorumElapsed == n.checkQuorumElapsed
  {
    hide CandidateLogIsUpToDate;
  }

  lemma LeaderReigns(n: Node, move: Move)
    requires n.role == Leader && Moved(n, move).node.role == Leader
    ensures Reigns(n, move, Moved(n, move).node)
  {
    hide HandleTick, HandleFetchRequest, HandleFetchResponse, AdvanceAndDrain, BecomeLeader, BecomeCandidate,
      HandleVoteRequest, HandleVoteResponse, HandlePreVoteResponse, Reigns;
    if move.Feed? {
      match move.input
      case Tick => TickReigns(n, move.draw);
      case FetchRequested(req) => FetchReigns(n, req, move.draw);
      case FetchAnswered(resp) =>
        RejectsAnswers(n, resp, move.draw);
        QuietReigns(n, move, n);
      case ClientPropose(command) =>
        AdvanceReigns(n, n.(lastLogIndex := n.lastLogIndex + 1, lastLogTerm := n.term), move);
      case FetchRequestAcked(replica, confirmed) =>
        AdvanceReigns(n, RecordProgress(n, replica, confirmed), move);
        QuietReigns(n, move, n);
      case _ =>
        OtherFields(n, move.input, move.draw);
        QuietReigns(n, move, Moved(n, move).node);
    } else {
      QuietReigns(n, move, Moved(n, move).node);
    }
  }

  // ------------------------------------------------------------------
  // Segments of one leadership
  // ------------------------------------------------------------------

  ghost predicate NewRun(nodes: seq<Node>, moves: seq<Move>, cfg: Config, draw: nat) {
    Trace(nodes, moves) && nodes[0] == NewNode(cfg, draw)
  }

  lemma RunFacts(nodes: seq<Node>, moves: seq<Move>, cfg: Config, draw: nat, k: nat)
    requires NewRun(nodes, moves, cfg, draw) && k < |nodes|
    ensures nodes[k].cfg == cfg && FetchesPast(nodes[k]) && PeersOk(nodes[k])
  {
    hide Moved;
    RunOnward(nodes, moves, 0, k);
  }

  /** Leading in the same term at both ends means leading in between, one clock change at a time. */
  lemma Unbroken(nodes: seq<Node>, moves: seq<Move>, i: nat, j: nat, k: nat)
    requires Trace(nodes, moves) && i <= k < j < |nodes|
    requires nodes[i].role == Leader && nodes[j].role == Leader && nodes[j].term == nodes[i].term
    ensures nodes[k].role == Leader && nodes[k + 1].role == Leader && Reigns(nodes[k], moves[k], nodes[k + 1])
    ensures nodes[k].term == nodes[i].term
  {
    hide Moved, Reigns;
    if nodes[k].role != Leader || nodes[k].term != nodes[i].term {
      LeadsOncePerTerm(nodes, moves, i, k, j);
    }
    if nodes[k + 1].role != Leader || nodes[k + 1].term != nodes[i].term {
      LeadsOncePerTerm(nodes, moves, i, k + 1, j);
    }
    assert nodes[k + 1] == Moved(nodes[k], moves[k]).node;
    LeaderReigns(nodes[k], moves[k]);
  }

  function TickCount(moves: seq<Move>, i: nat, j: nat): nat
    requires i <= j <= |moves|
    decreases j
  {
    if i == j then 0 else TickCount(moves, i, j - 1) + if Ticks(moves[j - 1]) then 1 else 0
  }

  ghost predicate FetchedIn(nodes: seq<Node>, moves: seq<Move>, i: nat, j: nat, p: NodeId)
    requires |nodes| == |moves| + 1 && j <= |moves|
  {
    exists k :: i <= k < j && FetchFrom(nodes[k], moves[k], p)
  }

  /** Voters whose fetches the leader accepted in moves `i` to `j - 1`. */
  ghost function Fetchers(nodes: seq<Node>, moves: seq<Move>, i: nat, j: nat): set<NodeId>
    requires |nodes| == |moves| + 1 && i <= j <= |moves|
  {
    set p | p in VoterIds(nodes[i].cfg) && FetchedIn(nodes, moves, i, j, p)
  }

  /**
    Where the check stands after some ticks without a quorum: no check yet, or the last one in the
    first `w - 1` ticks.
   */
  predicate Waiting(w: nat, e0: nat, t: nat, e: nat) {
    if t == 0 then e == e0 else e < w && (e == e0 + t || 1 <= t - e < w)
  }

  /** A leader not reached by a quorum, up to move `k`. */
  ghost predicate Unreached(nodes: seq<Node>, moves: seq<Move>, i: nat, k: nat)
    requires |nodes| == |moves| + 1 && i <= k <= |moves|
  {
    && nodes[k].logicalTick == nodes[i].logicalTick + TickCount(moves, i, k)
    && nodes[k].peers.Keys == nodes[i].peers.Keys
    && (forall p :: p in nodes[k].peers && nodes[k].peers[p].lastFetchTime > nodes[i].logicalTick ==>
          FetchedIn(nodes, moves, i, k, p))
    && Waiting(nodes[i].cfg.checkQuorumTicks, nodes[i].checkQuorumElapsed, TickCount(moves, i, k),
               nodes[k].checkQuorumElapsed)
  }

  /** Once a full window has passed, a reachable quorum has fetched within the segment. */
  lemma ReachableFetched(nodes: seq<Node>, moves: seq<Move>, i: nat, j: nat, n: Node)
    requires |nodes| == |moves| + 1 && i <= j <= |moves| && CheckQuorumReachable(n)
    requires n.cfg == nodes[i].cfg && n.cfg.voters.Some?
    requires n.logicalTick - nodes[i].logicalTick >= n.cfg.checkQuorumTicks
    requires forall p ::
      p in n.peers && n.peers[p].lastFetchTime > nodes[i].logicalTick
      ==> FetchedIn(nodes, moves, i, j, p)
    ensures SelfCount(n) + |Fetchers(nodes, moves, i, j)| >= QuorumSize(VoterIds(n.cfg))
  {
    hide FetchedIn;
    SubsetSize(FreshPeers(n), Fetchers(nodes, moves, i, j));
  }

  lemma FetchedLonger(nodes: seq<Node>, moves: seq<Move>, i: nat, k: nat, p: NodeId)
    requires |nodes| == |moves| + 1 && k < |moves|
    ensures FetchedIn(nodes, moves, i, k, p) ==> FetchedIn(nodes, moves, i, k + 1, p)
    ensures i <= k && FetchFrom(nodes[k], moves[k], p) ==> FetchedIn(nodes, moves, i, k + 1, p)
  {
  }

  lemma FetchersGrow(nodes: seq<Node>, moves: seq<Move>, i: nat, k: nat, j: nat)
    requires |nodes| == |moves| + 1 && i <= k <= j <= |moves|
    ensures |Fetchers(nodes, moves, i, k)| <= |Fetchers(nodes, moves, i, j)|
  {
    SubsetSize(Fetchers(nodes, moves, i, k), Fetchers(nodes, moves, i, j));
  }

  lemma UnreachedStep(nodes: seq<Node>, moves: seq<Move>, i: nat, k: nat)
    requires |nodes| == |moves| + 1 && i <= k < |moves| && Reigns(nodes[k], moves[k], nodes[k + 1])
    requires Unreached(nodes, moves, i, k) && nodes[k].cfg == nodes[i].cfg
    requires nodes[i].cfg.enableCheckQuorum && nodes[i].cfg.voters.Some?
    requires SelfCount(nodes[i]) + |Fetchers(nodes, moves, i, k + 1)| < QuorumSize(VoterIds(nodes[i].cfg))
    ensures Unreached(nodes, moves, i, k + 1)
  {
    hide FetchedIn, FetchFrom, CheckQuorumReachable;
    var n' := nodes[k + 1];
    forall p | p in n'.peers && n'.peers[p].lastFetchTime > nodes[i].logicalTick
      ensures FetchedIn(nodes, moves, i, k + 1, p)
    {
      FetchedLonger(nodes, moves, i, k, p);
    }
    if CheckQuorumReachable(nodes[k + 1]) && TickCount(moves, i, k + 1) >= nodes[i].cfg.checkQuorumTicks {
      ReachableFetched(nodes, moves, i, k + 1, nodes[k + 1]);
    }
  }

  lemma {:induction false} UnreachedAll(nodes: seq<Node>, moves: seq<Move>, cfg: Config, draw: nat, i: nat, j: nat,
                                        k: nat)
    requires NewRun(nodes, moves, cfg, draw) && i <= k <= j < |nodes|
    requires nodes[i].role == Leader && nodes[j].role == Leader && nodes[j].term == nodes[i].term
    requires cfg.enableCheckQuorum && cfg.voters.Some?
    requires SelfCount(nodes[i]) + |Fetchers(nodes, moves, i, j)| < QuorumSize(VoterIds(cfg))
    ensures Unreached(nodes, moves, i, k)
    decreases k
  {
    hide Moved, Reigns, FetchedIn, NewNode, Waiting;
    RunFacts(nodes, moves, cfg, draw, i);
    if i == k {
      UnreachedStart(nodes, moves, i);
    } else {
      UnreachedAll(nodes, moves, cfg, draw, i, j, k - 1);
      Unbroken(nodes, moves, i, j, k - 1);
      RunFacts(nodes, moves, cfg, draw, k - 1);
      FetchersGrow(nodes, moves, i, k, j);
      UnreachedStep(nodes, moves, i, k - 1);
    }
  }

  lemma UnreachedStart(nodes: seq<Node>, moves: seq<Move>, i: nat)
    requires |nodes| == |moves| + 1 && i <= |moves| && FetchesPast(nodes[i])
    ensures Unreached(nodes, moves, i, i)
  {
  }

  /**
   With window `w`, a leader whose accepted fetches over `2w - 1` ticks come from too few
   voters to form a quorum with it no longer leads its term at their end.
   */
  lemma SilentLeaderStepsDown(nodes: seq<Node>, moves: seq<Move>, cfg: Config, draw: nat, i: nat, j: nat)
    requires NewRun(nodes, moves, cfg, draw) && i <= j < |nodes| && nodes[i].role == Leader
    requires cfg.enableCheckQuorum && cfg.voters.Some? && cfg.checkQuorumTicks >= 1
    requires TickCount(moves, i, j) >= 2 * cfg.checkQuorumTicks - 1
    requires SelfCount(nodes[i]) + |Fetchers(nodes, moves, i, j)| < QuorumSize(VoterIds(cfg))
    ensures nodes[j].role != Leader || nodes[j].term != nodes[i].term
  {
    hide Moved, Reigns, FetchedIn, NewNode;
    RunFacts(nodes, moves, cfg, draw, i);
    if nodes[j].role == Leader && nodes[j].term == nodes[i].term {
      UnreachedAll(nodes, moves, cfg, draw, i, j, j);
    }
  }

  // ------------------------------------------------------------------
  // Late fetches
  // ------------------------------------------------------------------

  /** The leader accepted a fetch by `p` since move `s`, less than a window before the tick at move `k`. */
  ghost predicate FetchedLately(nodes: seq<Node>, moves: seq<Move>, s: nat, k: nat, p: NodeId)
    requires |nodes| == |moves| + 1 && k <= |moves|
  {
    exists m :: s <= m < k && FetchFrom(nodes[m], moves[m], p)
                && nodes[k].logicalTick + 1 - nodes[m].logicalTick < nodes[k].cfg.checkQuorumTicks
  }

  ghost function LateFetchers(nodes: seq<Node>, moves: seq<Move>, s: nat, k: nat): set<NodeId>
    requires |nodes| == |moves| + 1 && k <= |moves|
  {
    set p | p in VoterIds(nodes[k].cfg) && p != nodes[k].cfg.id && FetchedLately(nodes, moves, s, k, p)
  }

  lemma {:induction false} FetchRemembered(nodes: seq<Node>, moves: seq<Move>, cfg: Config, draw: nat,
                                           s: nat, m: nat, k: nat, p: NodeId)
    requires NewRun(nodes, moves, cfg, draw) && s <= m < k < |nodes| && p in VoterIds(cfg) && p != cfg.id
    requires nodes[s].role == Leader && nodes[k].role == Leader && nodes[k].term == nodes[s].term
    requires FetchFrom(nodes[m], moves[m], p)
    ensures p in nodes[k].peers && nodes[k].peers[p].lastFetchTime >= nodes[m].logicalTick
    decreases k
  {
    hide Moved, NewNode;
    RunFacts(nodes, moves, cfg, draw, k - 1);
    Unbroken(nodes, moves, s, k, k - 1);
    if m < k - 1 {
      FetchRemembered(nodes, moves, cfg, draw, s, m, k - 1, p);
      RunOnward(nodes, moves, m, k - 1);
    }
  }

  // ------------------------------------------------------------------
  // The beginning of a reign
  // ------------------------------------------------------------------

  /** A leader that has just taken over: the counter at 0 and every peer stamped with the present tick. */
  ghost predicate JustStamped(n: Node) {
    n.checkQuorumElapsed == 0 && forall p :: p in n.peers ==> n.peers[p].lastFetchTime == n.logicalTick
  }

  lemma LeaderStamped(n: Node, draw: nat)
    ensures JustStamped(BecomeLeader(n, draw).node)
  {
    hide CommitCandidate;
  }

  lemma CandidateStamped(n: Node, draw: nat)
    ensures var n' := BecomeCandidate(n, draw).node; n'.role == Leader ==> JustStamped(n')
  {
    hide BecomeLeader, HasQuorum, Broadcast, JustStamped;
    LeaderStamped(EnterCandidate(n, draw), draw);
  }

  lemma PreCandidateStamped(n: Node, draw: nat)
    ensures var n' := BecomePreCandidate(n, draw).node; n'.role == Leader ==> JustStamped(n')
  {
    hide BecomeCandidate, HasQuorum, Broadcast, JustStamped;
    CandidateStamped(EnterPreCandidate(n, draw), draw);
  }

  lemma TickStamped(n: Node, draw: nat)
    requires n.role != Leader
    ensures var n' := HandleTick(n, draw).node; n'.role == Leader ==> JustStamped(n')
  {
    hide BecomePreCandidate, Broadcast, FetchDue, JustStamped;
    PreCandidateStamped(ScheduleFetch(AdvanceClock(n)).node, draw);
  }

  /** Only votes make a leader. */
  lemma OthersMakeNoLeader(n: Node, input: Input, draw: nat)
    requires n.role != Leader && !input.Tick? && !input.VoteAnswered? && !input.PreVoteAnswered?
    ensures Step(n, input, draw).node.role != Leader
  {
    hide AdvanceAndDrain, WellFormedBatch, CandidateLogIsUpToDate, LearnCommit, RecogniseLeader;
    match input
    case FetchAnswered(resp) =>
      if !DropsAnswer(n, resp) {
        AnswerMakesNoLeader(n, resp, draw);
      }
    case _ =>
  }

  lemma AnswerMakesNoLeader(n: Node, resp: FetchResponse, draw: nat)
    requires n.role != Leader && !DropsAnswer(n, resp)
    ensures HandleFetchResponse(n, resp, draw).node.role != Leader
  {
    hide RecogniseLeader, ConsumeAnswer;
    EngineBallots.RecogniseInert(n, resp, draw);
    EngineBallots.ConsumeTracks(RecogniseLeader(n, resp, draw).node, resp);
  }

  lemma ReignBegins(n: Node, move: Move)
    requires n.role != Leader && Moved(n, move).node.role == Leader
    ensures JustStamped(Moved(n, move).node)
  {
    hide HandleTick, BecomeLeader, BecomeCandidate, BecomeFollower, HasQuorum, JustStamped;
    if move.Feed? {
      match move.input
      case Tick => TickStamped(n, move.draw);
      case VoteAnswered(voter, resp) =>
        FollowerNoLeader(n, resp.term, move.draw);
        LeaderStamped(n.(votesReceived := n.votesReceived + {voter}), move.draw);
      case PreVoteAnswered(voter, resp) =>
        FollowerNoLeader(n, resp.term, move.draw);
        CandidateStamped(n.(preVotesReceived := n.preVotesReceived + {voter}), move.draw);
      case _ =>
        OthersMakeNoLeader(n, move.input, move.draw);
    }
  }

  lemma FollowerNoLeader(n: Node, term: nat, draw: nat)
    ensures BecomeFollower(n, term, None, draw).node.role != Leader
  {
  }

  // ------------------------------------------------------------------
  // The check decides
  // ------------------------------------------------------------------

  /** The reign that lasts at `k` began with move `s - 1`. */
  ghost predicate ReignSince(nodes: seq<Node>, s: nat, k: nat) {
    && 1 <= s <= k < |nodes| && nodes[s - 1].role != Leader && nodes[s].role == Leader
    && nodes[k].role == Leader && nodes[k].term == nodes[s].term
  }

  /** A stamp at `k` is the one of the beginning, or of a fetch accepted since. */
  ghost predicate StampedBy(nodes: seq<Node>, moves: seq<Move>, s: nat, k: nat, p: NodeId)
    requires |nodes| == |moves| + 1 && s <= k <= |moves| && p in nodes[k].peers
  {
    || nodes[k].peers[p].lastFetchTime == nodes[s].logicalTick
    || exists m :: s <= m < k && FetchFrom(nodes[m], moves[m], p)
                   && nodes[m].logicalTick == nodes[k].peers[p].lastFetchTime
  }

  /** Clock, counter and stamps since the beginning of the reign. */
  ghost predicate Clocked(nodes: seq<Node>, moves: seq<Move>, s: nat, k: nat)
    requires |nodes| == |moves| + 1 && s <= k <= |moves|
  {
    && nodes[k].logicalTick == nodes[s].logicalTick + TickCount(moves, s, k)
    && nodes[k].checkQuorumElapsed <= TickCount(moves, s, k)
    && forall p :: p in nodes[k].peers ==> StampedBy(nodes, moves, s, k, p)
  }

  lemma StampedLonger(nodes: seq<Node>, moves: seq<Move>, s: nat, k: nat, p: NodeId)
    requires |nodes| == |moves| + 1 && s <= k < |moves| && Reigns(nodes[k], moves[k], nodes[k + 1])
    requires p in nodes[k].peers && StampedBy(nodes, moves, s, k, p)
    ensures p in nodes[k + 1].peers && StampedBy(nodes, moves, s, k + 1, p)
  {
    hide CheckQuorumReachable;
    if FetchFrom(nodes[k], moves[k], p) {
      assert nodes[k].logicalTick == nodes[k + 1].peers[p].lastFetchTime;
    }
  }

  lemma {:induction false} AlwaysClocked(nodes: seq<Node>, moves: seq<Move>, s: nat, k: nat)
    requires Trace(nodes, moves) && ReignSince(nodes, s, k)
    ensures Clocked(nodes, moves, s, k)
    decreases k
  {
    hide Moved, Reigns, StampedBy, FetchFrom;
    if k == s {
      assert nodes[s - 1 + 1] == Moved(nodes[s - 1], moves[s - 1]).node;
      ReignBegins(nodes[s - 1], moves[s - 1]);
      BeginsClocked(nodes, moves, s);
    } else {
      Unbroken(nodes, moves, s, k, k - 1);
      AlwaysClocked(nodes, moves, s, k - 1);
      ClockedStep(nodes, moves, s, k - 1);
    }
  }

  lemma BeginsClocked(nodes: seq<Node>, moves: seq<Move>, s: nat)
    requires |nodes| == |moves| + 1 && s <= |moves| && JustStamped(nodes[s])
    ensures Clocked(nodes, moves, s, s)
  {
  }

  lemma ClockedStep(nodes: seq<Node>, moves: seq<Move>, s: nat, k: nat)
    requires |nodes| == |moves| + 1 && s <= k < |moves| && Clocked(nodes, moves, s, k)
    requires Reigns(nodes[k], moves[k], nodes[k + 1])
    ensures Clocked(nodes, moves, s, k + 1)
  {
    hide StampedBy, FetchFrom, CheckQuorumReachable;
    var j, n' := k + 1, nodes[k + 1];
    forall p | p in n'.peers ensures StampedBy(nodes, moves, s, j, p) {
      StampedLonger(nodes, moves, s, k, p);
    }
  }

  /** The tick's check is due. */
  predicate Due(n: Node) {
    n.checkQuorumElapsed + 1 >= n.cfg.checkQuorumTicks
  }

  /** When a check is due the first stamps are a window old: the fresh peers are exactly the late fetchers. */
  lemma FreshIsLate(nodes: seq<Node>, moves: seq<Move>, cfg: Config, draw: nat, s: nat, k: nat, n: Node)
    requires NewRun(nodes, moves, cfg, draw) && ReignSince(nodes, s, k) && Due(nodes[k])
    requires n.cfg == cfg && n.logicalTick == nodes[k].logicalTick + 1 && n.peers == nodes[k].peers
    ensures FreshPeers(n) == LateFetchers(nodes, moves, s, k)
  {
    hide Moved, NewNode, FetchFrom;
    RunFacts(nodes, moves, cfg, draw, k);
    AlwaysClocked(nodes, moves, s, k);
    forall p | p in FreshPeers(n) ensures p in LateFetchers(nodes, moves, s, k) {
      assert StampedBy(nodes, moves, s, k, p);
    }
    forall p | p in LateFetchers(nodes, moves, s, k) ensures p in FreshPeers(n) {
      var m: nat :| s <= m < k && FetchFrom(nodes[m], moves[m], p)
                    && nodes[k].logicalTick + 1 - nodes[m].logicalTick < cfg.checkQuorumTicks;
      FetchRemembered(nodes, moves, cfg, draw, s, m, k, p);
    }
  }

  lemma TickDecides(n: Node, draw: nat)
    requires n.role == Leader
    ensures var n', m := HandleTick(n, draw).node, AdvanceClock(n).(checkQuorumElapsed := 0);
      (n'.role == Leader && n'.term == n.term) <==> !(n.cfg.enableCheckQuorum && Due(n) && !CheckQuorumReachable(m))
  {
    hide CheckQuorumReachable, BecomePreCandidate;
  }

  /**
   A tick ends a reign if and only if the check is enabled over a voter set, it is due, and
   the voters that have fetched since the reign began, less than a window ago, are too few
   for a quorum with the leader.
   */
  lemma CheckDecides(nodes: seq<Node>, moves: seq<Move>, cfg: Config, draw: nat, s: nat, k: nat)
    requires NewRun(nodes, moves, cfg, draw) && ReignSince(nodes, s, k) && k < |moves| && Ticks(moves[k])
    ensures (nodes[k + 1].role == Leader && nodes[k + 1].term == nodes[k].term)
       <==> !(cfg.enableCheckQuorum && cfg.voters.Some? && Due(nodes[k])
              && SelfCount(nodes[k]) + |LateFetchers(nodes, moves, s, k)| < QuorumSize(VoterIds(cfg)))
  {
    hide HandleTick, NewNode, LateFetchers, FreshPeers;
    RunFacts(nodes, moves, cfg, draw, k);
    assert nodes[k + 1] == Moved(nodes[k], moves[k]).node;
    TickDecides(nodes[k], moves[k].draw);
    var n := AdvanceClock(nodes[k]).(checkQuorumElapsed := 0);
    if Due(nodes[k]) {
      FreshIsLate(nodes, moves, cfg, draw, s, k, n);
    }
  }

  // ------------------------------------------------------------------
  // A leader that is reached stays
  // ------------------------------------------------------------------

  /** Between any tick of the reign and the `(w - 1)`-th tick after it, a quorum with the leader fetches. */
  ghost predicate Attended(nodes: seq<Node>, moves: seq<Move>, s: nat, j: nat)
    requires |nodes| == |moves| + 1 && j <= |moves|
  {
    forall a, b ::
      s < a <= b < j && Ticks(moves[a - 1]) && Ticks(moves[b])
      && TickCount(moves, a, b) == nodes[b].cfg.checkQuorumTicks - 2
      ==> SelfCount(nodes[b]) + |Fetchers(nodes, moves, a, b)| >= QuorumSize(VoterIds(nodes[b].cfg))
  }

  /** The tick that has `r` ticks after it. */
  lemma {:induction false} TickBefore(moves: seq<Move>, s: nat, k: nat, r: nat) returns (a: nat)
    requires s <= k <= |moves| && r < TickCount(moves, s, k)
    ensures s < a <= k && Ticks(moves[a - 1]) && TickCount(moves, a, k) == r
    decreases k
  {
    if Ticks(moves[k - 1]) {
      if r == 0 {
        a := k;
      } else {
        a := TickBefore(moves, s, k - 1, r - 1);
      }
    } else {
      a := TickBefore(moves, s, k - 1, r);
    }
  }

  lemma {:induction false} TicksPassed(nodes: seq<Node>, moves: seq<Move>, s: nat, a: nat, k: nat)
    requires Trace(nodes, moves) && ReignSince(nodes, s, k) && s <= a <= k
    ensures nodes[k].logicalTick == nodes[a].logicalTick + TickCount(moves, a, k)
    decreases k
  {
    hide Moved, CheckQuorumReachable, FetchFrom;
    if a < k {
      Unbroken(nodes, moves, s, k, k - 1);
      TicksPassed(nodes, moves, s, a, k - 1);
    }
  }

  lemma RecentAreLate(nodes: seq<Node>, moves: seq<Move>, cfg: Config, draw: nat, s: nat, a: nat, k: nat)
    requires NewRun(nodes, moves, cfg, draw) && ReignSince(nodes, s, k) && s <= a <= k
    requires TickCount(moves, a, k) + 2 == cfg.checkQuorumTicks
    ensures |Fetchers(nodes, moves, a, k)| <= |LateFetchers(nodes, moves, s, k)|
  {
    hide Moved, NewNode;
    RunFacts(nodes, moves, cfg, draw, a);
    RunFacts(nodes, moves, cfg, draw, k);
    TicksPassed(nodes, moves, s, a, k);
    forall p | p in Fetchers(nodes, moves, a, k) ensures p in LateFetchers(nodes, moves, s, k) {
      var m: nat :| a <= m < k && FetchFrom(nodes[m], moves[m], p);
      RunFacts(nodes, moves, cfg, draw, m);
      RunOnward(nodes, moves, a, m);
      assert nodes[k].logicalTick + 1 - nodes[m].logicalTick < cfg.checkQuorumTicks;
    }
    SubsetSize(Fetchers(nodes, moves, a, k), LateFetchers(nodes, moves, s, k));
  }

  /** With a window of at least two ticks, no tick of an attended reign ends it. */
  lemma AttendedReignStands(nodes: seq<Node>, moves: seq<Move>, cfg: Config, draw: nat, s: nat, j: nat)
    requires NewRun(nodes, moves, cfg, draw) && 1 <= s <= j <= |moves| && cfg.checkQuorumTicks >= 2
    requires Attended(nodes, moves, s, j)
    ensures forall k :: s <= k < j && ReignSince(nodes, s, k) && Ticks(moves[k]) ==> ReignSince(nodes, s, k + 1)
  {
    hide Moved, NewNode, LateFetchers, Fetchers;
    forall k | s <= k < j && ReignSince(nodes, s, k) && Ticks(moves[k]) ensures ReignSince(nodes, s, k + 1) {
      RunFacts(nodes, moves, cfg, draw, k);
      CheckDecides(nodes, moves, cfg, draw, s, k);
      if Due(nodes[k]) {
        AlwaysClocked(nodes, moves, s, k);
        var a := TickBefore(moves, s, k, cfg.checkQuorumTicks - 2);
        RecentAreLate(nodes, moves, cfg, draw, s, a, k);
      }
    }
  }

  /** With a window of one tick, the first tick ends every reign that needs another voter. */
  lemma WindowOfOne(nodes: seq<Node>, moves: seq<Move>, cfg: Config, draw: nat, s: nat, k: nat)
    requires NewRun(nodes, moves, cfg, draw) && ReignSince(nodes, s, k) && k < |moves| && Ticks(moves[k])
    requires cfg.enableCheckQuorum && cfg.voters.Some? && cfg.checkQuorumTicks == 1
    requires SelfCount(nodes[k]) < QuorumSize(VoterIds(cfg))
    ensures nodes[k + 1].role != Leader || nodes[k + 1].term != nodes[k].term
  {
    hide Moved, NewNode;
    RunFacts(nodes, moves, cfg, draw, k);
    forall p ensures p !in LateFetchers(nodes, moves, s, k) {
      if p in LateFetchers(nodes, moves, s, k) {
        var m: nat :| s <= m < k && nodes[k].logicalTick + 1 - nodes[m].logicalTick < 1
                      && FetchFrom(nodes[m], moves[m], p);
        RunOnward(nodes, moves, m, k);
        assert false;
      }
    }
    assert LateFetchers(nodes, moves, s, k) == {};
    CheckDecides(nodes, moves, cfg, draw, s, k);
  }

  /** An active lease implies that the check would pass. */
  lemma LeaseIsReachable(n: Node)
    requires HasActiveLease(n)
    ensures CheckQuorumReachable(n)
  {
    SubsetSize(LeasePeers(n, n.leaderStartedTick.value), FreshPeers(n));
  }
}
