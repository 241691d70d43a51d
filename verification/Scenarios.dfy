/**
 Two whole runs of the small cluster, from fresh engines and with nothing forged,
 in which one inadmissible answer is enough: a divergence for an epoch the leader
 has never seen, and an answer that outlives the log it was asked for.
 */
module Scenarios {
  import opened Base
  import opened Messages
  import opened OrderStatistics
  import opened Engine
  import opened Driver
  import opened Cluster
  import opened Script
  import opened Exchanges

  // ------------------------------------------------------------------
  // The start
  // ------------------------------------------------------------------

  function Start(id: NodeId, draw: nat): Server {
    Server(NewNode(Setup(id), draw), [], [])
  }

  /** Four fresh servers with the given first election timeouts. */
  function Opening(d1: nat, d2: nat, d3: nat): Cluster {
    Cluster(map[1 := Start(1, d1), 2 := Start(2, d2), 3 := Start(3, d3), 4 := Start(4, 0)], {})
  }

  function FreshFace(id: NodeId, draw: nat): Face {
    Face(if id == 4 then Observer else Follower, 0, None, None, false, [], None, ZeroOffsets(id), 0, [],
         ElectionTimer(0, draw))
  }

  lemma StartFace(id: NodeId, draw: nat)
    requires 1 <= id <= 4
    ensures Tidy(Start(id, draw), id) && FaceOf(Start(id, draw)) == FreshFace(id, draw)
  {
    Voters(id);
    assert SetOf([4]) == {4};
    assert {1, 2, 3} + {4} == {1, 2, 3, 4};
    assert OffsetMap(InitialPeers(Setup(id))) == ZeroOffsets(id);
  }

  lemma Opens(d1: nat, d2: nat, d3: nat)
    ensures var c := Opening(d1, d2, d3);
      && Scene(c) && Initial(c, "", [1, 2, 3])
      && Of(c, 1) == FreshFace(1, d1) && Of(c, 2) == FreshFace(2, d2) && Of(c, 3) == FreshFace(3, d3)
      && Of(c, 4) == FreshFace(4, 0)
  {
    hide NewNode, Tidy, FaceOf, Start, Initial, FreshFace;
    StartFace(1, d1);
    StartFace(2, d2);
    StartFace(3, d3);
    StartFace(4, 0);
    OpensInitial(d1, d2, d3);
  }

  lemma StartConfig(id: NodeId, draw: nat)
    ensures Start(id, draw).node.cfg == Setup(id)
    ensures Start(id, draw) == Server(NewNode(Start(id, draw).node.cfg, draw), [], [])
  {
  }

  lemma OpensInitial(d1: nat, d2: nat, d3: nat)
    ensures Initial(Opening(d1, d2, d3), "", [1, 2, 3])
  {
    hide Start, NewNode, Configured, Setup;
    var c := Opening(d1, d2, d3);
    OpensConfigured(d1, d2, d3);
    StartConfig(1, d1);
    StartConfig(2, d2);
    StartConfig(3, d3);
    StartConfig(4, 0);
    var draws := map[1 := d1, 2 := d2, 3 := d3, 4 := 0];
    forall id | id in c.servers
      ensures c.servers[id] == Server(NewNode(c.servers[id].node.cfg, draws[id]), [], [])
    {
      assert id == 1 || id == 2 || id == 3 || id == 4;
    }
  }

  lemma ListedVoters()
    ensures SetOf([1, 2, 3]) == {1, 2, 3}
  {
  }

  lemma OpensConfigured(d1: nat, d2: nat, d3: nat)
    ensures Configured(Opening(d1, d2, d3).servers, "", [1, 2, 3])
  {
    hide Start, Distinct, SetOf, Order;
    StartConfig(1, d1);
    StartConfig(2, d2);
    StartConfig(3, d3);
    StartConfig(4, 0);
    Voters(1);
    ListedVoters();
  }

  /** A no-op of term `t` at index `i`. */
  function N(i: nat, t: nat): Entry {
    Entry(i, t, NoOp)
  }

  /** A voter that has only ever voted. */
  ghost predicate Idle(f: Face, t: nat) {
    f.role == Follower && f.term == t && f.log == [] && !f.contacted
  }

  /** A leader no voter has acknowledged anything to. */
  ghost predicate Leading(f: Face, id: NodeId, t: nat, log: seq<Entry>) {
    && f.role == Leader && f.term == t && f.log == log && f.noOp.Some? && f.commit == 0
    && f.offsets.Keys == {1, 2, 3, 4} - {id} && forall v :: IsVoter(v) && v != id ==> f.offsets[v] == 0
  }

  lemma Crowned(f: Face, id: NodeId)
    requires IsVoter(id) && f.commit == 0
    ensures var g := LeaderFace(CandidateFace(f, id), id);
      Leading(g, id, f.term + 1, f.log + [N(|f.log| + 1, f.term + 1)])
  {
  }

  lemma Small()
    ensures LastTerm([]) == 0 && GetRange([N(1, 1)], 1, BATCH) == [N(1, 1)] && WellFormedBatch([N(1, 1)], 1)
    ensures !Diverges([N(1, 1)], 0, 0) && [] + [N(1, 1)] == [N(1, 1)] && AsUpToDate([], [])
  {
  }

  // ------------------------------------------------------------------
  // An epoch the leader has never seen
  // ------------------------------------------------------------------

  /** 2 led term 1 and wrote its no-op; 1 leads term 2 with its own; 2 has just learned of term 2. */
  ghost predicate TwoLeaders(c: Cluster) {
    && Scene(c)
    && var f, g, h := Of(c, 1), Of(c, 2), Of(c, 3);
    && f.role == Leader && f.term == 2 && f.log == [N(1, 2)] && f.noOp == Some(1) && f.offsets == ZeroOffsets(1)
    && f.commit == 0 && f.applied == []
    && g.role == Follower && g.term == 2 && g.log == [N(1, 1)] && g.leaderId == None && g.timer == ElectionTimer(0, 5)
    && g.commit == 0 && g.applied == []
    && h.role == Follower && h.term == 2 && h.log == [] && !h.contacted && h.leaderId == None && h.commit == 0
  }

  /** 2 leads term 1, and 1 has voted for it. */
  lemma FirstLeader() returns (c': Cluster)
    ensures Reaches(Opening(0, 0, 5), c') && Scene(c') && Leading(Of(c', 2), 2, 1, [N(1, 1)]) && Of(c', 2).applied == []
    ensures var f := FreshFace(1, 0); Of(c', 1) == Demoted(f, 1, Some(2), 0)
    ensures Idle(Of(c', 3), 1) && Of(c', 3).leaderId == None && Of(c', 3).commit == 0
  {
    hide Reaches, Tidy, FaceOf, Scene, Leading, AsUpToDate;
    Small();
    Opens(0, 0, 5);
    var c0 := Opening(0, 0, 5);
    SceneKeys(c0);
    var f := Of(c0, 2);
    var c1 := Election(c0, 2, 3, 5);
    SceneKeys(c1);
    Crowned(f, 2);
    c' := Demotion(c1, 1, f, 2, 0);
    SceneKeys(c');
    ReachesThen(c0, c1, c');
  }

  lemma TwoLeadersArise() returns (c': Cluster)
    ensures Reaches(Opening(0, 0, 5), c') && TwoLeaders(c')
  {
    hide Reaches, Tidy, FaceOf, Scene, Opening;
    var c := FirstLeader();
    SceneKeys(c);
    var f := Of(c, 1);
    var c1 := Election(c, 1, 3, 5);
    SceneKeys(c1);
    c' := Demotion(c1, 2, f, 1, 5);
    SceneKeys(c');
    ReachesThen(Opening(0, 0, 5), c, c1);
    ReachesThen(Opening(0, 0, 5), c1, c');
  }

  /** 1 has committed and applied its no-op on the strength of 2's claim; 2 still holds its own. */
  ghost predicate FalselyCommitted(c: Cluster) {
    && Scene(c)
    && var f, g, h := Of(c, 1), Of(c, 2), Of(c, 3);
    && f.applied == [N(1, 2)]
    && g.role == Follower && g.term == 2 && g.log == [N(1, 1)] && g.timer == ElectionTimer(0, 0)
    && g.commit == 0 && g.applied == []
    && h.role == Follower && h.term == 2 && h.log == [] && !h.contacted && h.leaderId == None && h.commit == 0
  }

  lemma NeverSeen()
    ensures Diverges([N(1, 2)], 1, 1) && Divergence([N(1, 2)], 1, 1) == DivergingEpoch(2, 1)
    ensures !Diverges([N(1, 2)], 1, 2)
  {
  }

  lemma ClaimCommits(c: Cluster) returns (c': Cluster)
    requires TwoLeaders(c)
    ensures Reaches(c, c') && FalselyCommitted(c')
  {
    hide Reaches, Tidy, FaceOf, Scene, Diverges, Divergence;
    NeverSeen();
    SceneKeys(c);
    var f, g := Of(c, 1), Of(c, 2);
    var c1 := Fetching(c, 2);
    SceneKeys(c1);
    var c2 := ServeDiverging(c1, 1, Fetch(g, 2));
    SceneKeys(c2);
    var resp := Reply(f, 1, Fetch(g, 2));
    var c3 := TakeDivergence(c2, 2, Fetch(g, 2), resp, f.log, 0);
    SceneKeys(c3);
    assert g.log[..1] == g.log;
    c' := ServeCommitting(c3, 1, RefetchOf(resp, 2));
    SceneKeys(c');
    ReachesThen(c, c1, c2);
    ReachesThen(c, c2, c3);
    ReachesThen(c, c3, c');
  }

  /** 2 leads term 3 with its own entry, and 3 holds nothing yet. */
  ghost predicate Usurped(c: Cluster) {
    && Scene(c)
    && var f, g, h := Of(c, 1), Of(c, 2), Of(c, 3);
    && f.applied == [N(1, 2)]
    && g.role == Leader && g.term == 3 && g.log == [N(1, 1), N(2, 3)] && g.noOp == Some(2)
    && g.offsets == ZeroOffsets(2)
    && g.commit == 0 && g.applied == []
    && h.role == Follower && h.term == 3 && h.log == [] && h.leaderId == None && h.commit == 0
    && h.timer == ElectionTimer(0, 5)
  }

  lemma OldEntryLeads(c: Cluster) returns (c': Cluster)
    requires FalselyCommitted(c)
    ensures Reaches(c, c') && Usurped(c')
  {
    hide Reaches, Tidy, FaceOf, Scene;
    SceneKeys(c);
    c' := Election(c, 2, 3, 5);
    SceneKeys(c');
  }

  lemma WholeLog()
    ensures var log := [N(1, 1), N(2, 3)];
      && GetRange(log, 1, BATCH) == log && WellFormedBatch(log, 1) && [] + log == log && LastTerm(log) == 3
      && !Diverges(log, 0, 0) && !Diverges(log, 2, 3)
  {
  }

  lemma OldEntryCommits(c: Cluster) returns (c': Cluster)
    requires Usurped(c)
    ensures Reaches(c, c') && Scene(c') && Of(c', 1).applied == [N(1, 2)] && Of(c', 2).applied == [N(1, 1), N(2, 3)]
  {
    hide Reaches, Tidy, FaceOf, Scene, Diverges, GetRange, WellFormedBatch, LastTerm;
    WholeLog();
    SceneKeys(c);
    var g, h := Of(c, 2), Of(c, 3);
    assert LastTerm(h.log) == 0 by {
      EmptyTerm();
    }
    var c1 := Copying(c, 3, 2, 5);
    SceneKeys(c1);
    var h' := Of(c1, 3);
    var c2 := Fetching(c1, 3);
    SceneKeys(c2);
    c' := ServeCommitting(c2, 2, Fetch(h', 3));
    SceneKeys(c');
    ReachesThen(c, c1, c2);
    ReachesThen(c, c2, c');
  }

  lemma EmptyTerm()
    ensures LastTerm([]) == 0
  {
  }

  lemma ConflictingCommits() returns (c': Cluster)
    ensures Reaches(Opening(0, 0, 5), c') && {1, 2} <= c'.servers.Keys
    ensures c'.servers[1].applied == [N(1, 2)] && c'.servers[2].applied == [N(1, 1), N(2, 3)]
  {
    hide Reaches, Opening, Tidy, TwoLeaders, FalselyCommitted, Usurped;
    var c0 := Opening(0, 0, 5);
    var c1 := TwoLeadersArise();
    var c2 := ClaimCommits(c1);
    var c3 := OldEntryLeads(c2);
    c' := OldEntryCommits(c3);
    ReachesThen(c0, c1, c2);
    ReachesThen(c0, c2, c3);
    ReachesThen(c0, c3, c');
  }

  lemma RunTo(c: Cluster, c': Cluster) returns (states: seq<Cluster>, events: seq<Event>)
    requires Reaches(c, c')
    ensures GenuineRun(states, events) && states[0] == c && states[|events|] == c'
  {
    states, events :| GenuineRun(states, events) && states[0] == c && states[|events|] == c';
  }

  /**
   A divergence for an epoch the leader has never seen: a run from fresh engines, with
   nothing forged, after which nodes 1 and 2 have applied different entries at index 1.
   */
  lemma UnknownEpochBreaksSafety() returns (states: seq<Cluster>, events: seq<Event>)
    ensures GenuineRun(states, events) && Initial(states[0], "", [1, 2, 3])
    ensures var c := states[|events|];
      && 1 in c.servers && 2 in c.servers && c.servers[1].applied != [] && c.servers[2].applied != []
      && c.servers[1].applied[0] != c.servers[2].applied[0]
  {
    hide GenuineRun, Initial, Opening, Scene, Of, Reaches;
    Opens(0, 0, 5);
    var c := ConflictingCommits();
    states, events := RunTo(Opening(0, 0, 5), c);
  }

  // ------------------------------------------------------------------
  // An answer that outlives the log it was asked for
  // ------------------------------------------------------------------

  /** A client's entry of term `t` at index `i`. */
  function P(i: nat, t: nat): Entry {
    Entry(i, t, Command([]))
  }

  /** 4's first fetch, sent to every voter while it knew no leader. */
  function FirstFetch(): FetchRequest {
    FetchRequest("", 0, 4, 1, 0)
  }

  /** 4's fetch with two entries of term 1, sent to 1 and not delivered for a long time. */
  function LateFetch(): FetchRequest {
    FetchRequest("", 1, 4, 3, 1)
  }

  ghost predicate Pending(c: Cluster) {
    Sent(4, 3, FetchReq(FirstFetch())) in c.net && Sent(4, 1, FetchReq(LateFetch())) in c.net
  }

  ghost predicate Watching(f: Face, t: nat, leader: NodeId, log: seq<Entry>) {
    f.role == Observer && f.term == t && f.leaderId == Some(leader) && f.log == log && f.commit == 0
  }

  lemma LeadingAlone(f: Face, id: NodeId, t: nat, log: seq<Entry>, x: NodeId, k: nat)
    requires Leading(f, id, t, log) && IsVoter(id) && x in f.offsets && (k == 0 || x == 4)
    ensures Alone(f, id) && Alone(Recorded(f, x, k), id) && Leading(Recorded(f, x, k), id, t, log)
  {
  }

  /** 1 leads term 1 and 3 has its no-op. */
  ghost predicate Begun(c: Cluster) {
    && Scene(c) && Leading(Of(c, 1), 1, 1, [N(1, 1)]) && Idle(Of(c, 2), 1) && Of(c, 4) == FreshFace(4, 0)
    && var h := Of(c, 3);
    && h.role == Follower && h.term == 1 && h.log == [N(1, 1)] && h.timer == ElectionTimer(0, 0) && h.commit == 0
  }

  lemma Opened() returns (c': Cluster)
    ensures Reaches(Opening(0, 0, 5), c') && Scene(c') && Leading(Of(c', 1), 1, 1, [N(1, 1)])
    ensures Idle(Of(c', 2), 1) && Of(c', 3) == FreshFace(3, 5) && Of(c', 4) == FreshFace(4, 0)
  {
    hide Reaches, Tidy, FaceOf, Scene, Leading, AsUpToDate;
    Opens(0, 0, 5);
    Small();
    var c0 := Opening(0, 0, 5);
    SceneKeys(c0);
    c' := Election(c0, 1, 2, 5);
    SceneKeys(c');
    Crowned(Of(c0, 1), 1);
  }

  lemma Beginning() returns (c': Cluster)
    ensures Reaches(Opening(0, 0, 5), c') && Begun(c')
  {
    hide Reaches, Tidy, FaceOf, Scene, Diverges, GetRange, WellFormedBatch, LastTerm, Alone, Opening;
    Small();
    var c := Opened();
    SceneKeys(c);
    LeadingAlone(Of(c, 1), 1, 1, [N(1, 1)], 3, 0);
    c' := Copying(c, 3, 1, 0);
    SceneKeys(c');
    ReachesThen(Opening(0, 0, 5), c, c');
  }

  /** 4 has two entries of term 1 and has asked for more. */
  ghost predicate Loaded(c: Cluster) {
    && Scene(c) && Pending(c) && Leading(Of(c, 1), 1, 1, [N(1, 1), P(2, 1)]) && Idle(Of(c, 2), 1)
    && Watching(Of(c, 4), 1, 1, [N(1, 1), P(2, 1)])
    && var h := Of(c, 3);
    && h.role == Follower && h.term == 1 && h.log == [N(1, 1)] && h.timer == ElectionTimer(0, 0) && h.commit == 0
  }

  lemma Pair()
    ensures var log := [N(1, 1), P(2, 1)];
      && GetRange(log, 1, BATCH) == log && WellFormedBatch(log, 1) && !Diverges(log, 0, 0) && [] + log == log
      && LastTerm(log) == 1 && LastTerm([]) == 0 && [N(1, 1)] + [P(2, 1)] == log
  {
  }

  /** 1 has taken a client's command. */
  ghost predicate Proposed(c: Cluster) {
    && Scene(c) && Leading(Of(c, 1), 1, 1, [N(1, 1), P(2, 1)]) && Idle(Of(c, 2), 1) && Of(c, 4) == FreshFace(4, 0)
    && var h := Of(c, 3);
    && h.role == Follower && h.term == 1 && h.log == [N(1, 1)] && h.timer == ElectionTimer(0, 0) && h.commit == 0
  }

  lemma Proposing(c: Cluster) returns (c': Cluster)
    requires Begun(c)
    ensures Reaches(c, c') && Proposed(c')
  {
    hide Reaches, Tidy, FaceOf, Scene, LastTerm, Alone, FreshFace;
    Pair();
    SceneKeys(c);
    LeadingAlone(Of(c, 1), 1, 1, [N(1, 1)], 4, 0);
    c' := Proposal(c, 1);
    SceneKeys(c');
  }

  /** 4 has copied 1's log; its first fetch is still on its way to 3. */
  ghost predicate Copied(c: Cluster) {
    && Scene(c) && Sent(4, 3, FetchReq(FirstFetch())) in c.net
    && Leading(Of(c, 1), 1, 1, [N(1, 1), P(2, 1)]) && Idle(Of(c, 2), 1)
    && Watching(Of(c, 4), 1, 1, [N(1, 1), P(2, 1)])
    && var h := Of(c, 3);
    && h.role == Follower && h.term == 1 && h.log == [N(1, 1)] && h.timer == ElectionTimer(0, 0) && h.commit == 0
  }

  lemma Duplicating(c: Cluster) returns (c': Cluster)
    requires Proposed(c)
    ensures Reaches(c, c') && Copied(c')
  {
    hide Reaches, Tidy, FaceOf, Scene, Diverges, GetRange, WellFormedBatch, LastTerm, Alone;
    Pair();
    SceneKeys(c);
    LeadingAlone(Of(c, 1), 1, 1, [N(1, 1), P(2, 1)], 4, 0);
    c' := Copying(c, 4, 1, 5);
    SceneKeys(c');
  }

  lemma Loading(c: Cluster) returns (c': Cluster)
    requires Copied(c)
    ensures Reaches(c, c') && Loaded(c')
  {
    hide Reaches, Tidy, FaceOf, Scene, LastTerm, Leading, Idle;
    Pair();
    SceneKeys(c);
    c' := Fetching(c, 4);
    SceneKeys(c');
  }

  /** 3 leads term 2 with its own second entry, and 4 knows it. */
  ghost predicate Turned(c: Cluster) {
    && Scene(c) && Pending(c) && Leading(Of(c, 1), 1, 1, [N(1, 1), P(2, 1)]) && Idle(Of(c, 2), 2)
    && Leading(Of(c, 3), 3, 2, [N(1, 1), N(2, 2)]) && Watching(Of(c, 4), 2, 3, [N(1, 1), P(2, 1)])
    && Sent(3, 1, VoteReq(VoteRequest("", 2, 3, 1, 1))) in c.net
  }

  lemma Other()
    ensures var log := [N(1, 1), N(2, 2)];
      && GetRange(log, 1, BATCH) == log && !WellFormedBatch(log, 3) && !Diverges(log, 0, 0)
      && [N(1, 1)] + [N(2, 2)] == log
      && LastTerm([N(1, 1)]) == 1 && AsUpToDate([N(1, 1)], [])
  {
  }

  lemma Turning(c: Cluster) returns (c': Cluster)
    requires Loaded(c)
    ensures Reaches(c, c') && Turned(c')
  {
    hide Reaches, Tidy, FaceOf, Scene, Diverges, GetRange, WellFormedBatch, LastTerm, Alone, AsUpToDate;
    Other();
    SceneKeys(c);
    var h := Of(c, 3);
    var c1 := Election(c, 3, 2, 5);
    SceneKeys(c1);
    Crowned(h, 3);
    var g := Of(c1, 3);
    assert Leading(g, 3, 2, [N(1, 1), N(2, 2)]);
    LeadingAlone(g, 3, 2, [N(1, 1), N(2, 2)], 4, 0);
    c' := Greeting(c1, 4, 3, FirstFetch(), 5);
    SceneKeys(c');
    ReachesThen(c, c1, c');
  }

  /** 4 has given up its second entry of term 1 for 3's of term 2. */
  ghost predicate Replaced(c: Cluster) {
    && Scene(c) && Pending(c) && Leading(Of(c, 1), 1, 1, [N(1, 1), P(2, 1)]) && Idle(Of(c, 2), 2)
    && Of(c, 4).role == Observer && Of(c, 4).term == 2 && Of(c, 4).log == [N(1, 1), N(2, 2)] && Of(c, 4).commit == 0
    && Sent(3, 1, VoteReq(VoteRequest("", 2, 3, 1, 1))) in c.net
  }

  lemma Parting()
    ensures var log := [N(1, 1), N(2, 2)];
      && Diverges(log, 2, 1) && Divergence(log, 2, 1) == DivergingEpoch(1, 1) && !Diverges(log, 1, 1)
      && GetRange(log, 2, BATCH) == [N(2, 2)] && WellFormedBatch([N(2, 2)], 2) && [N(1, 1)] + [N(2, 2)] == log
      && LastTerm([N(1, 1), P(2, 1)]) == 1 && [N(1, 1), P(2, 1)][..1] == [N(1, 1)]
  {
    var log := [N(1, 1), N(2, 2)];
    assert log[0].term == 1;
    assert log[1..] == [N(2, 2)] && log[1..][1..] == [];
    assert log[1..][0] == N(2, 2) && EpochAfter([], 1) == None;
    assert EpochAfter(log[1..], 1) == Some(2);
    assert EpochAfter(log, 1) == Some(2);
    assert EpochStart(log[1..], 2) == 2;
    assert EpochStart(log, 2) == 2;
  }

  lemma Replacing(c: Cluster) returns (c': Cluster)
    requires Turned(c)
    ensures Reaches(c, c') && Replaced(c')
  {
    hide Reaches, Tidy, FaceOf, Scene, Diverges, Divergence, GetRange, WellFormedBatch, LastTerm, Alone;
    Parting();
    SceneKeys(c);
    var g, o := Of(c, 3), Of(c, 4);
    var c1 := Fetching(c, 4);
    SceneKeys(c1);
    var req := Fetch(o, 4);
    var c2 := ServeDiverging(c1, 3, req);
    SceneKeys(c2);
    var c3 := TakeDivergence(c2, 4, req, Reply(g, 3, req), g.log, 5);
    SceneKeys(c3);
    c' := Refilling(c3, RefetchOf(Reply(g, 3, req), 4));
    ReachesThen(c, c1, c2);
    ReachesThen(c, c2, c3);
    ReachesThen(c, c3, c');
  }

  lemma Refilling(c: Cluster, req: FetchRequest) returns (c': Cluster)
    requires Scene(c) && Pending(c) && Leading(Of(c, 1), 1, 1, [N(1, 1), P(2, 1)]) && Idle(Of(c, 2), 2)
    requires Leading(Of(c, 3), 3, 2, [N(1, 1), N(2, 2)]) && Watching(Of(c, 4), 2, 3, [N(1, 1)])
    requires Sent(3, 1, VoteReq(VoteRequest("", 2, 3, 1, 1))) in c.net
    requires req == FetchRequest("", 2, 4, 2, 1) && Sent(4, 3, FetchReq(req)) in c.net
    ensures Reaches(c, c') && Replaced(c')
  {
    hide Reaches, Tidy, FaceOf, Scene, Diverges, Divergence, GetRange, WellFormedBatch, LastTerm, Alone;
    Parting();
    SceneKeys(c);
    var g := Of(c, 3);
    LeadingAlone(g, 3, 2, [N(1, 1), N(2, 2)], 4, 1);
    c' := Answering(c, 4, 3, req, 5);
    SceneKeys(c');
  }

  /** 1 leads again, in term 3, with its own second entry. */
  ghost predicate Returned(c: Cluster) {
    && Scene(c) && Pending(c) && Leading(Of(c, 1), 1, 3, [N(1, 1), P(2, 1), N(3, 3)])
    && Of(c, 4).role == Observer && Of(c, 4).term == 2 && Of(c, 4).log == [N(1, 1), N(2, 2)] && Of(c, 4).commit == 0
  }

  lemma Longer()
    ensures !AsUpToDate([N(1, 1)], [N(1, 1), P(2, 1)]) && AsUpToDate([N(1, 1), P(2, 1)], [])
    ensures [N(1, 1), P(2, 1)] + [N(3, 3)] == [N(1, 1), P(2, 1), N(3, 3)] && LastTerm([N(1, 1)]) == 1
  {
  }

  lemma Returning(c: Cluster) returns (c': Cluster)
    requires Replaced(c)
    ensures Reaches(c, c') && Returned(c')
  {
    hide Reaches, Tidy, FaceOf, Scene, LastTerm, AsUpToDate;
    Longer();
    SceneKeys(c);
    var stood := FreshFace(3, 0).(term := 1, log := [N(1, 1)]);
    var c1 := Demotion(c, 1, stood, 3, 0);
    SceneKeys(c1);
    c' := Election(c1, 1, 2, 5);
    SceneKeys(c');
    Crowned(Of(c1, 1), 1);
    ReachesThen(c, c1, c');
  }

  lemma Tail()
    ensures var log := [N(1, 1), P(2, 1), N(3, 3)];
      !Diverges(log, 2, 1) && GetRange(log, 3, BATCH) == [N(3, 3)] && WellFormedBatch([N(3, 3)], 3)
  {
  }

  /** The old fetch is answered by the new leader, and the answer is taken. */
  lemma AnsweredLate(c: Cluster) returns (c': Cluster)
    requires Returned(c)
    ensures Reaches(c, c') && Scene(c')
    ensures Of(c', 1).log == [N(1, 1), P(2, 1), N(3, 3)] && Of(c', 4).log == [N(1, 1), N(2, 2), N(3, 3)]
  {
    hide Reaches, Tidy, FaceOf, Scene, Diverges, GetRange, WellFormedBatch, Alone;
    Tail();
    SceneKeys(c);
    var f := Of(c, 1);
    LeadingAlone(f, 1, 3, [N(1, 1), P(2, 1), N(3, 3)], 4, 2);
    c' := Answering(c, 4, 1, LateFetch(), 5);
    SceneKeys(c');
    assert [N(1, 1), N(2, 2)] + [N(3, 3)] == [N(1, 1), N(2, 2), N(3, 3)];
  }

  lemma MismatchedLogs() returns (c': Cluster)
    ensures Reaches(Opening(0, 0, 5), c') && 1 in c'.servers && 4 in c'.servers
    ensures c'.servers[1].log == [N(1, 1), P(2, 1), N(3, 3)] && c'.servers[4].log == [N(1, 1), N(2, 2), N(3, 3)]
  {
    hide Reaches, Opening, Tidy, Begun, Proposed, Copied, Loaded, Turned, Replaced, Returned;
    var c0 := Opening(0, 0, 5);
    var c1 := Beginning();
    var proposed := Proposing(c1);
    var copied := Duplicating(proposed);
    var c2 := Loading(copied);
    var c3 := Turning(c2);
    ReachesThen(c0, c1, proposed);
    ReachesThen(c0, proposed, copied);
    ReachesThen(c0, copied, c2);
    ReachesThen(c0, c2, c3);
    var c4 := Replacing(c3);
    var c5 := Returning(c4);
    c' := AnsweredLate(c5);
    ReachesThen(c0, c3, c4);
    ReachesThen(c0, c4, c5);
    ReachesThen(c0, c5, c');
  }

  /**
   An answer that outlives the log it was asked for: a run from fresh engines, with nothing
   forged, after which the logs of 1 and 4 have the same term at index 3 and differ at index 2.
   */
  lemma LateAnswerBreaksMatching() returns (states: seq<Cluster>, events: seq<Event>)
    ensures GenuineRun(states, events) && Initial(states[0], "", [1, 2, 3])
    ensures var c := states[|events|];
      && 1 in c.servers && 4 in c.servers && |c.servers[1].log| == |c.servers[4].log| == 3
      && c.servers[1].log[2].term == c.servers[4].log[2].term
      && !Agree(c.servers[1].log, c.servers[4].log, 3)
  {
    hide GenuineRun, Initial, Opening, Scene, Of, Reaches;
    Opens(0, 0, 5);
    var c := MismatchedLogs();
    states, events := RunTo(Opening(0, 0, 5), c);
    var a, b := c.servers[1].log, c.servers[4].log;
    assert a[..3][1] == a[1] && b[..3][1] == b[1] && a[1].term != b[1].term;
  }
}
