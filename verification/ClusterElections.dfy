/**
 Elections and commits in every run of the cluster, with late answers and wrong
 divergence points included: one leader per term, and commits of the own term.
 */
module ClusterElections {
  import opened Base
  import opened Messages
  import opened Quorums
  import opened Engine
  import opened EngineRuns
  import opened EngineBallots
  import opened Driver
  import opened Cluster
  import ClusterLeaders

  /** A won election: the leader, the voters behind it, and the log it has kept since. */
  datatype Win = Win(leader: NodeId, electors: set<NodeId>, log: seq<Entry>)

  /** The history of votes, (term, voter) to candidate, and of won elections, by term. */
  datatype Poll = Poll(ballots: map<(nat, NodeId), NodeId>, wins: map<nat, Win>)

  /** In term `t`, `v` voted for `c`. */
  predicate VotedFor(h: Poll, t: nat, v: NodeId, c: NodeId) {
    (t, v) in h.ballots && h.ballots[(t, v)] == c
  }

  // ------------------------------------------------------------------
  // The invariant
  // ------------------------------------------------------------------

  /** The log is as long as the engine thinks, and a leader's part of it is of its own term. */
  ghost predicate Tailed(sv: Server) {
    && sv.node.lastLogIndex == |sv.log| && LeaderSound(sv.node)
    && (sv.node.role == Leader ==>
          && 1 <= sv.node.leaderNoOpIndex.value <= |sv.log|
          && forall k :: sv.node.leaderNoOpIndex.value - 1 <= k < |sv.log| ==> sv.log[k].term == sv.node.term)
  }

  /** The node's vote is on record, and the record of its current term is its vote. */
  ghost predicate VoteOk(n: Node, h: Poll) {
    && (n.votedFor.Some? ==> VotedFor(h, n.term, n.cfg.id, n.votedFor.value))
    && (forall t {:trigger (t, n.cfg.id) in h.ballots} :: (t, n.cfg.id) in h.ballots ==>
          t <= n.term && (t == n.term ==> n.votedFor == Some(h.ballots[(t, n.cfg.id)])))
  }

  ghost predicate StandingOk(sv: Server, h: Poll) {
    var n := sv.node;
    && (n.role == Candidate ==> forall v :: v in n.votesReceived ==> VotedFor(h, n.term, v, n.cfg.id))
    && (n.role == Leader ==> n.term in h.wins && h.wins[n.term].leader == n.cfg.id && h.wins[n.term].log == sv.log)
    && (forall t :: t in h.wins && h.wins[t].leader == n.cfg.id ==> (n.role == Leader && n.term == t) || Past(n, t))
  }

  ghost predicate ServerOk(sv: Server, h: Poll, id: NodeId, voters: seq<NodeId>) {
    && sv.node.cfg.id == id && sv.node.cfg.voters == Some(voters)
    && VoteOk(sv.node, h) && StandingOk(sv, h) && Tailed(sv)
  }

  ghost predicate WinsOk(h: Poll, voters: seq<NodeId>) {
    forall t :: t in h.wins ==>
      && Majority(h.wins[t].electors, SetOf(voters))
      && forall v :: v in h.wins[t].electors ==> VotedFor(h, t, v, h.wins[t].leader)
  }

  /** A granted vote on the wire was cast. */
  ghost predicate GrantOk(h: Poll, p: Packet) {
    p.Sent? && p.message.VoteResp? && p.message.voteResponse.voteGranted ==>
      VotedFor(h, p.message.voteResponse.term, p.src, p.dst)
  }

  ghost predicate Polled(c: Cluster, h: Poll, voters: seq<NodeId>) {
    && WinsOk(h, voters)
    && (forall id :: id in c.servers ==> ServerOk(c.servers[id], h, id, voters))
    && (forall p :: p in c.net ==> GrantOk(h, p))
  }

  /** Votes and wins are never taken back, and a winner's log only grows. */
  ghost predicate Grows(h: Poll, h': Poll) {
    && (forall b :: b in h.ballots ==> b in h'.ballots && h'.ballots[b] == h.ballots[b])
    && (forall t :: t in h.wins ==>
          t in h'.wins && h'.wins[t].leader == h.wins[t].leader && h.wins[t].log <= h'.wins[t].log)
  }

  lemma GrowsTransitive(h: Poll, h': Poll, h'': Poll)
    requires Grows(h, h') && Grows(h', h'')
    ensures Grows(h, h'')
  {
    forall t | t in h.wins ensures h.wins[t].log <= h''.wins[t].log {
      assert h.wins[t].log <= h'.wins[t].log <= h''.wins[t].log;
    }
  }

  // ------------------------------------------------------------------
  // One server's step
  // ------------------------------------------------------------------

  lemma PerformWrites(sv: Server, a: Action)
    requires !IsCut(a)
    ensures Perform(sv, a).node == sv.node
    ensures Perform(sv, a).log == sv.log + if a.AppendEntries? then a.entries else []
  {
  }

  lemma {:induction false} ExecuteWrites(sv: Server, actions: seq<Action>)
    requires forall a :: a in actions ==> !IsCut(a)
    ensures Execute(sv, actions).log == sv.log + Written(actions) && Execute(sv, actions).node == sv.node
    decreases |actions|
  {
    hide Perform, IsCut;
    if actions == [] {
      assert sv.log + [] == sv.log;
    } else {
      var a, rest := actions[0], actions[1..];
      assert a in actions;
      PerformWrites(sv, a);
      ExecuteWrites(Perform(sv, a), rest);
      var first := if a.AppendEntries? then a.entries else [];
      assert (sv.log + first) + Written(rest) == sv.log + (first + Written(rest));
    }
  }

  /** Once something is cut and nothing appended, the engine mirrors the log. */
  lemma {:induction false} ExecuteCuts(sv: Server, actions: seq<Action>)
    requires Written(actions) == [] && (Cut(actions) || sv.node.lastLogIndex == |sv.log|)
    ensures Execute(sv, actions).node.lastLogIndex == |Execute(sv, actions).log|
    decreases |actions|
  {
    if actions != [] {
      assert Cut(actions) && !IsCut(actions[0]) ==> Cut(actions[1..]) by {
        if Cut(actions) && !IsCut(actions[0]) {
          var a :| a in actions && IsCut(a);
          assert a in actions[1..];
        }
      }
      ExecuteCuts(Perform(sv, actions[0]), actions[1..]);
    }
  }

  lemma StepTailed(sv: Server, input: Input, draw: nat)
    requires Tailed(sv) && !input.SnapshotComplete? && !input.SnapshotInstalled?
    ensures var sv' := StepServer(sv, input, draw);
      && Tailed(sv') && (sv'.node.role == Leader ==> sv.log <= sv'.log && InTerm(sv.node, sv'.node))
  {
    hide Step, LeaderSound, InTerm;
    var o := Step(sv.node, input, draw);
    StepRegular(sv.node, input, draw);
    ClusterLeaders.ExecuteMirrors(sv.(node := o.node), o.actions);
    assert !Cut(o.actions) ==> forall a :: a in o.actions ==> !IsCut(a);
    if Cut(o.actions) {
      ExecuteCuts(sv.(node := o.node), o.actions);
      FollowerSound(StepServer(sv, input, draw).node);
    } else {
      ExecuteWrites(sv.(node := o.node), o.actions);
      if o.node.role == Leader {
        WrittenTerms(sv, o, StepServer(sv, input, draw));
      } else {
        FollowerSound(o.node);
      }
    }
  }

  lemma FollowerSound(n: Node)
    requires n.role != Leader
    ensures LeaderSound(n)
  {
  }

  lemma WrittenTerms(sv: Server, o: Out, sv': Server)
    requires Tailed(sv) && Tracks(sv.node, o) && Reigning(sv.node, o) && o.node.role == Leader && !Cut(o.actions)
    requires sv'.node == o.node && sv'.log == sv.log + Written(o.actions)
    ensures Tailed(sv')
  {
    var written := Written(o.actions);
    forall k | o.node.leaderNoOpIndex.value - 1 <= k < |sv'.log| ensures sv'.log[k].term == o.node.term {
      if k >= |sv.log| {
        assert written[k - |sv.log|] in written;
      }
    }
  }

  // ------------------------------------------------------------------
  // Recording a step
  // ------------------------------------------------------------------

  /** What a step needs of the record: a granted vote it is handed was cast for it. */
  predicate InputOk(h: Poll, n: Node, input: Input) {
    input.VoteAnswered? && input.voteResp.voteGranted ==> VotedFor(h, input.voteResp.term, input.voter, n.cfg.id)
  }

  /** The record with the node's present vote in it. */
  function WithVote(h: Poll, n': Node): Poll {
    if n'.votedFor.Some? then h.(ballots := h.ballots[(n'.term, n'.cfg.id) := n'.votedFor.value]) else h
  }

  /** The record with the node's present leadership in it. */
  function WithWin(h: Poll, sv': Server, electors: set<NodeId>): Poll {
    h.(wins := h.wins[sv'.node.term := Win(sv'.node.cfg.id, electors, sv'.log)])
  }

  lemma VoteRecorded(n: Node, n': Node, h: Poll)
    requires VoteOk(n, h) && Onward(n, n')
    ensures Grows(h, WithVote(h, n')) && VoteOk(n', WithVote(h, n'))
  {
  }

  /** A vote that backs the node in the step is on record for it. */
  lemma BackedVoted(sv: Server, input: Input, n': Node, h: Poll, v: NodeId)
    requires StandingOk(sv, h) && VoteOk(sv.node, h) && InputOk(h, sv.node, input) && Onward(sv.node, n')
    requires Backed(sv.node, input, n', v)
    ensures VotedFor(WithVote(h, n'), n'.term, v, n'.cfg.id)
  {
    VoteRecorded(sv.node, n', h);
  }

  /** A quorum behind a new leader means that its term has had none. */
  lemma NewWin(sv: Server, input: Input, n': Node, h: Poll, voters: seq<NodeId>) returns (electors: set<NodeId>)
    requires StandingOk(sv, h) && VoteOk(sv.node, h) && InputOk(h, sv.node, input) && Onward(sv.node, n')
    requires sv.node.cfg.voters == Some(voters) && WinsOk(h, voters)
    requires n'.role == Leader && Elects(sv.node, input, n') && !(sv.node.role == Leader && sv.node.term == n'.term)
    ensures n'.term !in h.wins && Majority(electors, SetOf(voters))
    ensures forall v :: v in electors ==> VotedFor(WithVote(h, n'), n'.term, v, n'.cfg.id)
  {
    hide Onward, Backed, VoteOk, StandingOk;
    electors :| HasQuorum(sv.node.cfg, electors) && AllBacked(sv.node, input, n', electors);
    forall v | v in electors ensures VotedFor(WithVote(h, n'), n'.term, v, n'.cfg.id) {
      BackedVoted(sv, input, n', h, v);
    }
    var t := n'.term;
    if t in h.wins {
      var v := MajoritiesMeet(electors, h.wins[t].electors, SetOf(voters));
      VoteRecorded(sv.node, n', h);
      assert VotedFor(h, t, v, h.wins[t].leader);
      NotTwice(sv, n', h, t);
      assert false;
    }
  }

  lemma NotTwice(sv: Server, n': Node, h: Poll, t: nat)
    requires StandingOk(sv, h) && Onward(sv.node, n') && n'.role == Leader && n'.term == t
    requires !(sv.node.role == Leader && sv.node.term == t)
    ensures t in h.wins ==> h.wins[t].leader != n'.cfg.id
  {
  }

  /** The record after a step, and the stepping server under it. */
  lemma Recorded(sv: Server, input: Input, draw: nat, h: Poll, id: NodeId, voters: seq<NodeId>) returns (h': Poll)
    requires ServerOk(sv, h, id, voters) && InputOk(h, sv.node, input) && WinsOk(h, voters)
    requires !input.SnapshotComplete? && !input.SnapshotInstalled?
    ensures var sv' := StepServer(sv, input, draw);
      && ServerOk(sv', h', id, voters) && WinsOk(h', voters) && Grows(h, h')
      && (sv'.node.role == Leader ==> InTerm(sv.node, sv'.node)) && OnlyBy(h, h', id)
      && VoteOk(sv'.node, h')
  {
    hide Step, Onward, Fair, Tracks, Reigning, Tailed;
    var o, sv' := Step(sv.node, input, draw), StepServer(sv, input, draw);
    MoveOnward(sv.node, Feed(input, draw));
    StepRegular(sv.node, input, draw);
    StepTailed(sv, input, draw);
    ClusterLeaders.ExecuteMirrors(sv.(node := o.node), o.actions);
    h' := RecordedAs(sv, input, o, sv', h, id, voters);
  }

  /** New records are by `id` alone. */
  ghost predicate OnlyBy(h: Poll, h': Poll, id: NodeId) {
    && (forall b :: b in h'.ballots && b !in h.ballots ==> b.1 == id)
    && (forall t :: t in h'.wins && (t !in h.wins || h'.wins[t] != h.wins[t]) ==> h'.wins[t].leader == id)
  }

  /** Earlier wins of the node stay lost or go on. */
  lemma WinsPast(sv: Server, n': Node, h: Poll)
    requires StandingOk(sv, h) && Onward(sv.node, n')
    ensures forall t ::
      t in h.wins && h.wins[t].leader == n'.cfg.id
      ==> (n'.role == Leader && n'.term == t) || Past(n', t)
  {
  }

  /** Recording a leadership touches no ballot. */
  lemma WinWins(h: Poll, sv': Server, electors: set<NodeId>, voters: seq<NodeId>)
    requires WinsOk(h, voters) && Majority(electors, SetOf(voters))
    requires forall v :: v in electors ==> VotedFor(h, sv'.node.term, v, sv'.node.cfg.id)
    ensures WinsOk(WithWin(h, sv', electors), voters)
  {
    var h' := WithWin(h, sv', electors);
    assert forall t: nat, v: NodeId, c: NodeId :: VotedFor(h', t, v, c) <==> VotedFor(h, t, v, c);
  }

  lemma WinGrows(h: Poll, h1: Poll, sv': Server, electors: set<NodeId>)
    requires h1.wins == h.wins && Grows(h, h1) && OnlyBy(h, h1, sv'.node.cfg.id)
    requires var t := sv'.node.term; t in h.wins ==> h.wins[t].leader == sv'.node.cfg.id && h.wins[t].log <= sv'.log
    ensures Grows(h, WithWin(h1, sv', electors)) && OnlyBy(h, WithWin(h1, sv', electors), sv'.node.cfg.id)
  {
  }

  lemma WinStanding(sv: Server, sv': Server, h: Poll, h1: Poll, electors: set<NodeId>)
    requires StandingOk(sv, h) && Onward(sv.node, sv'.node) && h1.wins == h.wins && sv'.node.role == Leader
    ensures StandingOk(sv', WithWin(h1, sv', electors))
  {
    hide Onward, Past;
    WinsPast(sv, sv'.node, h);
  }

  lemma WinRecorded(sv: Server, sv': Server, h: Poll, id: NodeId, voters: seq<NodeId>, electors: set<NodeId>)
    requires ServerOk(sv, h, id, voters) && Onward(sv.node, sv'.node) && WinsOk(h, voters)
    requires Tailed(sv') && sv'.node.role == Leader && Majority(electors, SetOf(voters))
    requires forall v :: v in electors ==> VotedFor(WithVote(h, sv'.node), sv'.node.term, v, id)
    requires var t := sv'.node.term; t in h.wins ==> h.wins[t].leader == id && h.wins[t].log <= sv'.log
    ensures var h' := WithWin(WithVote(h, sv'.node), sv', electors);
      ServerOk(sv', h', id, voters) && WinsOk(h', voters) && Grows(h, h') && OnlyBy(h, h', id)
  {
    hide Tailed, Onward, WinsOk, StandingOk, Grows, OnlyBy, VoteOk, VotedFor;
    var h1 := WithVote(h, sv'.node);
    SameConfig(sv.node, sv'.node);
    VoteRecorded(sv.node, sv'.node, h);
    VoteOnly(h, sv'.node, voters);
    WinWins(h1, sv', electors, voters);
    WinGrows(h, h1, sv', electors);
    WinStanding(sv, sv', h, h1, electors);
    SameBallots(sv'.node, h1, WithWin(h1, sv', electors));
  }

  lemma VoteOnly(h: Poll, n': Node, voters: seq<NodeId>)
    requires WinsOk(h, voters) && Grows(h, WithVote(h, n'))
    ensures OnlyBy(h, WithVote(h, n'), n'.cfg.id) && WinsOk(WithVote(h, n'), voters)
  {
    var h1 := WithVote(h, n');
    assert forall t: nat, v: NodeId, c: NodeId :: VotedFor(h, t, v, c) ==> VotedFor(h1, t, v, c);
  }

  lemma SameBallots(n: Node, h: Poll, h': Poll)
    requires VoteOk(n, h) && h'.ballots == h.ballots
    ensures VoteOk(n, h')
  {
  }

  lemma SameConfig(n: Node, n': Node)
    requires Onward(n, n')
    ensures n'.cfg == n.cfg
  {
  }

  lemma VotesStanding(sv: Server, input: Input, sv': Server, h: Poll, id: NodeId, voters: seq<NodeId>)
    requires ServerOk(sv, h, id, voters) && InputOk(h, sv.node, input) && WinsOk(h, voters)
    requires Onward(sv.node, sv'.node) && Tailed(sv') && sv'.node.role != Leader
    requires sv'.node.role == Candidate ==> AllBacked(sv.node, input, sv'.node, sv'.node.votesReceived)
    ensures var h' := WithVote(h, sv'.node);
      ServerOk(sv', h', id, voters) && WinsOk(h', voters) && Grows(h, h') && OnlyBy(h, h', id)
  {
    hide Tailed, Onward, Past, Backed, VoteOk;
    var n' := sv'.node;
    VoteRecorded(sv.node, n', h);
    WinsPast(sv, n', h);
    SameConfig(sv.node, n');
    if n'.role == Candidate {
      forall v | v in n'.votesReceived ensures VotedFor(WithVote(h, n'), n'.term, v, id) {
        BackedVoted(sv, input, n', h, v);
      }
    }
  }

  lemma OnwardMirror(n: Node, m: Node, n': Node)
    requires Onward(n, m) && n' == SetLastLog(m, n'.lastLogIndex, n'.lastLogTerm)
    ensures Onward(n, n')
  {
  }

  lemma BackedMirror(n: Node, input: Input, m: Node, n': Node, votes: set<NodeId>)
    requires AllBacked(n, input, m, votes) && n'.term == m.term && n'.votedFor == m.votedFor
    ensures AllBacked(n, input, n', votes)
  {
  }

  lemma RecordedAs(sv: Server, input: Input, o: Out, sv': Server, h: Poll, id: NodeId, voters: seq<NodeId>)
    returns (h': Poll)
    requires ServerOk(sv, h, id, voters) && InputOk(h, sv.node, input) && WinsOk(h, voters)
    requires Onward(sv.node, o.node) && Fair(sv.node, input, o) && Tailed(sv')
    requires sv'.node == SetLastLog(o.node, sv'.node.lastLogIndex, sv'.node.lastLogTerm)
    requires sv'.node.role == Leader ==> sv.log <= sv'.log
    ensures ServerOk(sv', h', id, voters) && WinsOk(h', voters) && Grows(h, h') && OnlyBy(h, h', id)
  {
    hide Elects, AllBacked, Tailed, Onward, Backed, VoteOk, Past;
    OnwardMirror(sv.node, o.node, sv'.node);
    SameConfig(sv.node, o.node);
    var n' := sv'.node;
    if n'.role != Leader {
      if n'.role == Candidate {
        BackedMirror(sv.node, input, o.node, n', n'.votesReceived);
      }
      VotesStanding(sv, input, sv', h, id, voters);
      h' := WithVote(h, n');
    } else {
      var electors;
      if sv.node.role == Leader && n'.term == sv.node.term {
        electors := h.wins[n'.term].electors;
        VoteRecorded(sv.node, n', h);
      } else {
        electors := NewWin(sv, input, o.node, h, voters);
        assert WithVote(h, o.node) == WithVote(h, n');
      }
      WinRecorded(sv, sv', h, id, voters, electors);
      h' := WithWin(WithVote(h, n'), sv', electors);
    }
  }

  // ------------------------------------------------------------------
  // One event
  // ------------------------------------------------------------------

  lemma OtherOk(sv: Server, h: Poll, h': Poll, id: NodeId, other: NodeId, voters: seq<NodeId>)
    requires ServerOk(sv, h, other, voters) && Grows(h, h') && OnlyBy(h, h', id) && other != id
    ensures ServerOk(sv, h', other, voters)
  {
    hide Tailed, Past;
    assert forall t {:trigger (t, other) in h'.ballots} :: (t, other) in h'.ballots ==> (t, other) in h.ballots;
  }

  /** Truthful actions put only cast votes on the wire. */
  lemma SentOk(n': Node, h': Poll, id: NodeId, actions: seq<Action>)
    requires VoteOk(n', h') && n'.cfg.id == id && (forall a :: a in actions ==> Truthful(n', a))
    ensures forall p :: p in Outbox(id, actions) ==> GrantOk(h', p)
  {
  }

  /** A step of one server, with packets that are answers or sent by its actions. */
  lemma MovePolled(c: Cluster, h: Poll, voters: seq<NodeId>, id: NodeId, input: Input, draw: nat, more: set<Packet>)
    returns (h': Poll)
    requires Polled(c, h, voters) && id in c.servers && InputOk(h, c.servers[id].node, input)
    requires !input.SnapshotComplete? && !input.SnapshotInstalled?
    requires forall p :: p in more ==> p.Answer? || p in Outbox(id, Step(c.servers[id].node, input, draw).actions)
    ensures var sv' := StepServer(c.servers[id], input, draw);
      && Polled(c.(servers := c.servers[id := sv'], net := c.net + more), h', voters) && Grows(h, h')
      && (sv'.node.role == Leader ==> InTerm(c.servers[id].node, sv'.node))
  {
    hide ServerOk, StepServer, Step, WinsOk;
    var sv, sv' := c.servers[id], StepServer(c.servers[id], input, draw);
    assert ServerOk(sv, h, id, voters);
    h' := Recorded(sv, input, draw, h, id, voters);
    StepSends(sv, input, draw, h', id, voters);
    forall other | other in c.servers && other != id ensures ServerOk(c.servers[other], h', other, voters) {
      OtherOk(c.servers[other], h, h', id, other, voters);
    }
  }

  lemma StepSends(sv: Server, input: Input, draw: nat, h': Poll, id: NodeId, voters: seq<NodeId>)
    requires ServerOk(StepServer(sv, input, draw), h', id, voters)
    requires !input.SnapshotComplete? && !input.SnapshotInstalled?
    ensures forall p :: p in Outbox(id, Step(sv.node, input, draw).actions) ==> GrantOk(h', p)
  {
    hide Step, Outbox, GrantOk, Tailed, StandingOk, VoteOk;
    var o := Step(sv.node, input, draw);
    StepRegular(sv.node, input, draw);
    ClusterLeaders.ExecuteMirrors(sv.(node := o.node), o.actions);
    SentOk(StepServer(sv, input, draw).node, h', id, o.actions);
  }

  lemma StepPolled(c: Cluster, h: Poll, voters: seq<NodeId>, id: NodeId, input: Input, draw: nat) returns (h': Poll)
    requires Polled(c, h, voters) && id in c.servers && InputOk(h, c.servers[id].node, input)
    requires !input.SnapshotComplete? && !input.SnapshotInstalled?
    ensures var c' := StepCluster(c, id, input, draw);
      && Polled(c', h', voters) && Grows(h, h')
      && (c'.servers[id].node.role == Leader ==> InTerm(c.servers[id].node, c'.servers[id].node))
  {
    hide Polled, StepServer, Step;
    h' := MovePolled(c, h, voters, id, input, draw, Outbox(id, Step(c.servers[id].node, input, draw).actions));
  }

  lemma ServePolled(c: Cluster, h: Poll, voters: seq<NodeId>, id: NodeId, req: FetchRequest, draw: nat, batch: nat,
                    anchor: Option<DivergingEpoch>) returns (h': Poll)
    requires Polled(c, h, voters) && id in c.servers
    ensures var c' := ServeCluster(c, id, req, draw, batch, anchor);
      && Polled(c', h', voters) && Grows(h, h')
      && (c'.servers[id].node.role == Leader ==> InTerm(c.servers[id].node, c'.servers[id].node))
  {
    hide Polled, StepServer, HandleFetchRequest, AnswerFor;
    var sv, o := c.servers[id], HandleFetchRequest(c.servers[id].node, req, draw);
    if |o.actions| == 1 && o.actions[0].ServeFetch? {
      var r := AnswerFor(sv.log, o.actions[0], batch, anchor);
      var sv1 := StepServer(sv, FetchRequested(req), draw);
      ServedServer(sv, req, draw);
      var more := {Answer(req.replicaId, req, r, sv.log)};
      h' := MovePolled(c, h, voters, id, FetchRequested(req), draw, more);
      if !r.divergingEpoch.Some? && req.fetchOffset != 0 {
        var c1 := c.(servers := c.servers[id := sv1], net := c.net + more);
        var h1, input := h', FetchRequestAcked(req.replicaId, req.fetchOffset - 1);
        h' := MovePolled(c1, h1, voters, id, input, draw, {});
        GrowsTransitive(h, h1, h');
        assert c1.servers[id := StepServer(sv1, input, draw)] == c.servers[id := StepServer(sv1, input, draw)];
        assert c1.net + {} == c1.net;
      }
    } else {
      h' := StepPolled(c, h, voters, id, FetchRequested(req), draw);
    }
  }

  /** Serving touches no commit index, and handing the answer to the driver changes no server. */
  lemma ServedServer(sv: Server, req: FetchRequest, draw: nat)
    requires var o := HandleFetchRequest(sv.node, req, draw); |o.actions| == 1 && o.actions[0].ServeFetch?
    ensures var o := HandleFetchRequest(sv.node, req, draw);
      StepServer(sv, FetchRequested(req), draw) == sv.(node := o.node) && o.node.commitIndex == sv.node.commitIndex
  {
    var o := HandleFetchRequest(sv.node, req, draw);
    ExecuteHarmless(sv.(node := o.node), o.actions);
  }

  lemma RestartPolled(c: Cluster, h: Poll, voters: seq<NodeId>, id: NodeId, commit: nat, draw: nat)
    requires Polled(c, h, voters) && id in c.servers
    ensures Polled(c.(servers := c.servers[id := RestartServer(c.servers[id], commit, draw)]), h, voters)
  {
    hide WinsOk;
    assert ServerOk(c.servers[id], h, id, voters);
  }

  /** A leader's commit index moved, if it did, within its term. */
  ghost predicate StaysInTerm(c: Cluster, c': Cluster) {
    forall id :: id in c.servers ==>
      id in c'.servers
      && (c'.servers[id].node.role == Leader ==> InTerm(c.servers[id].node, c'.servers[id].node))
  }

  lemma InTermReflexive(n: Node)
    ensures InTerm(n, n)
  {
  }

  lemma VoteDelivered(c: Cluster, h: Poll, voters: seq<NodeId>, p: Packet)
    requires Polled(c, h, voters) && p in c.net && p.Sent? && p.message.VoteResp? && p.dst in c.servers
    ensures InputOk(h, c.servers[p.dst].node, VoteAnswered(p.src, p.message.voteResponse))
  {
    assert GrantOk(h, p) && ServerOk(c.servers[p.dst], h, p.dst, voters);
  }

  lemma HappenPolled(c: Cluster, e: Event, h: Poll, voters: seq<NodeId>) returns (h': Poll)
    requires Polled(c, h, voters) && Possible(c, e)
    ensures Polled(Happen(c, e), h', voters) && Grows(h, h') && StaysInTerm(c, Happen(c, e))
  {
    hide Polled, Grows, StepServer, InTerm, InputOk;
    forall n: Node ensures InTerm(n, n) {
      InTermReflexive(n);
    }
    match e {
      case Tick(id, draw) =>
        h' := StepPolledAt(c, h, voters, id, Input.Tick, draw);
      case Propose(id, command) =>
        h' := StepPolledAt(c, h, voters, id, ClientPropose(command), 0);
      case DeliverVoteRequest(p, draw) =>
        h' := StepPolledAt(c, h, voters, p.dst, VoteRequested(p.message.voteRequest), draw);
      case DeliverVote(p, draw) =>
        VoteDelivered(c, h, voters, p);
        h' := StepPolled(c, h, voters, p.dst, VoteAnswered(p.src, p.message.voteResponse), draw);
      case DeliverFetch(p, draw, batch, anchor) =>
        h' := ServePolled(c, h, voters, p.dst, p.message.fetchRequest, draw, batch, anchor);
        ServeRest(c, p.dst, p.message.fetchRequest, draw, batch, anchor);
      case DeliverAnswer(p, draw) =>
        h' := StepPolledAt(c, h, voters, p.dst, FetchAnswered(p.response), draw);
      case Noise(id, input, draw) =>
        h' := StepPolledAt(c, h, voters, id, input, draw);
      case Restart(id, commit, draw) =>
        RestartPolled(c, h, voters, id, commit, draw);
        GrowsReflexive(h);
        h' := h;
    }
  }

  lemma GrowsReflexive(h: Poll)
    ensures Grows(h, h)
  {
  }

  lemma ServeRest(c: Cluster, id: NodeId, req: FetchRequest, draw: nat, batch: nat, anchor: Option<DivergingEpoch>)
    requires id in c.servers
    ensures forall other :: other in c.servers ==>
      && other in ServeCluster(c, id, req, draw, batch, anchor).servers
      && (other != id ==> ServeCluster(c, id, req, draw, batch, anchor).servers[other] == c.servers[other])
  {
    forall other | other in c.servers
      ensures other in ServeCluster(c, id, req, draw, batch, anchor).servers
      ensures other != id ==> ServeCluster(c, id, req, draw, batch, anchor).servers[other] == c.servers[other]
    {
      ClusterLeaders.ServeOthers(c, id, req, draw, batch, anchor, other);
    }
  }

  /** A step on an input that is no granted vote. */
  lemma StepPolledAt(c: Cluster, h: Poll, voters: seq<NodeId>, id: NodeId, input: Input, draw: nat) returns (h': Poll)
    requires Polled(c, h, voters) && id in c.servers && !(input.VoteAnswered? && input.voteResp.voteGranted)
    requires !input.SnapshotComplete? && !input.SnapshotInstalled?
    ensures var c' := StepCluster(c, id, input, draw);
      && Polled(c', h', voters) && Grows(h, h')
      && (c'.servers[id].node.role == Leader ==> InTerm(c.servers[id].node, c'.servers[id].node))
  {
    hide Polled, StepCluster;
    h' := StepPolled(c, h, voters, id, input, draw);
  }

  // ------------------------------------------------------------------
  // Over runs
  // ------------------------------------------------------------------

  lemma InitialPolled(c: Cluster, clusterId: string, voters: seq<NodeId>)
    requires Initial(c, clusterId, voters)
    ensures Polled(c, Poll(map[], map[]), voters)
  {
  }

  /** The polls of a run, one for each moment. */
  ghost predicate Counted(states: seq<Cluster>, polls: seq<Poll>, voters: seq<NodeId>) {
    && |polls| == |states|
    && (forall i :: 0 <= i < |states| ==> Polled(states[i], polls[i], voters))
    && (forall i, j :: 0 <= i <= j < |states| ==> Grows(polls[i], polls[j]))
  }

  lemma {:induction false} RunCounted(states: seq<Cluster>, events: seq<Event>, clusterId: string, voters: seq<NodeId>)
    returns (polls: seq<Poll>)
    requires AnyRun(states, events) && Initial(states[0], clusterId, voters)
    ensures Counted(states, polls, voters)
    decreases |events|
  {
    hide Polled, Grows, Happen, Possible, Initial, StaysInTerm;
    if events == [] {
      InitialPolled(states[0], clusterId, voters);
      polls := [Poll(map[], map[])];
      GrowsReflexive(polls[0]);
    } else {
      var n := |events| - 1;
      polls := RunCounted(states[..n + 1], events[..n], clusterId, voters);
      var last := HappenPolled(states[n], events[n], polls[n], voters);
      forall i | 0 <= i <= n ensures Grows(polls[i], last) {
        GrowsTransitive(polls[i], polls[n], last);
      }
      GrowsReflexive(last);
      polls := polls + [last];
    }
  }

  lemma LeaderWon(c: Cluster, h: Poll, voters: seq<NodeId>, id: NodeId, t: nat)
    requires Polled(c, h, voters) && Leads(c, id, t)
    ensures t in h.wins && h.wins[t].leader == id && h.wins[t].log == c.servers[id].log
    ensures Tailed(c.servers[id])
  {
    hide Tailed;
    assert ServerOk(c.servers[id], h, id, voters);
  }

  /**
   In every run, at any two moments, two leaders of one term are the same node, and the
   earlier log is a prefix of the later one. Nothing is assumed about fetch answers.
   */
  lemma ElectionSafety(states: seq<Cluster>, events: seq<Event>, clusterId: string, voters: seq<NodeId>,
                       i: nat, j: nat, a: NodeId, b: NodeId, t: nat)
    requires AnyRun(states, events) && Initial(states[0], clusterId, voters) && i <= j < |states|
    requires Leads(states[i], a, t) && Leads(states[j], b, t)
    ensures a == b
    ensures states[i].servers[a].log <= states[j].servers[b].log
  {
    hide Polled, AnyRun, Initial, Tailed;
    var polls := RunCounted(states, events, clusterId, voters);
    LeaderWon(states[i], polls[i], voters, a, t);
    LeaderWon(states[j], polls[j], voters, b, t);
    assert Grows(polls[i], polls[j]);
  }

  /**
   In every run, whenever an event moves a leader's commit index, the entry there is of the
   leader's own term.
   */
  lemma CommitsOwnTerm(states: seq<Cluster>, events: seq<Event>, clusterId: string, voters: seq<NodeId>,
                       i: nat, id: NodeId, t: nat)
    requires AnyRun(states, events) && Initial(states[0], clusterId, voters) && i < |events|
    requires id in states[i].servers && Leads(states[i + 1], id, t)
    requires states[i + 1].servers[id].node.commitIndex != states[i].servers[id].node.commitIndex
    ensures var sv := states[i + 1].servers[id];
      1 <= sv.node.commitIndex <= |sv.log| && sv.log[sv.node.commitIndex - 1].term == t
  {
    hide Polled, Initial, Happen, Possible, LeaderSound;
    var polls := RunCounted(states, events, clusterId, voters);
    assert states[i + 1] == Happen(states[i], events[i]);
    var next := HappenPolled(states[i], events[i], polls[i], voters);
    LeaderWon(states[i + 1], next, voters, id, t);
  }
}
