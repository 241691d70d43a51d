/**
 The exchanges of messages in the small cluster, each as a stretch of a genuine
 run and described by what it does to the faces of the servers.
 */
module Exchanges {
  import opened Base
  import opened Messages
  import opened Engine
  import opened Driver
  import opened Cluster
  import opened Script

  ghost predicate Scene(c: Cluster) {
    c.servers.Keys == {1, 2, 3, 4} && forall id :: id in c.servers ==> Tidy(c.servers[id], id)
  }

  /** The face of server `id`. */
  function Of(c: Cluster, id: NodeId): Face
    requires id in c.servers
  {
    FaceOf(c.servers[id])
  }

  /** From `c` a genuine run leads to `c'`, in which server `id` has face `f` and the others are as before. */
  ghost predicate Turns(c: Cluster, c': Cluster, id: NodeId, f: Face) {
    && Scene(c) && Scene(c') && Reaches(c, c') && c.net <= c'.net && id in c.servers
    && Of(c', id) == f
    && forall x :: x in c.servers && x != id ==> c'.servers[x] == c.servers[x]
  }

  /** An event that is a step of one server. */
  lemma Happens(c: Cluster, e: Event, id: NodeId, input: Input, draw: nat)
    requires Scene(c) && Possible(c, e) && Genuine(c, e) && id in c.servers
    requires Happen(c, e) == StepCluster(c, id, input, draw)
    requires Tidy(StepServer(c.servers[id], input, draw), id)
    ensures Turns(c, Happen(c, e), id, FaceOf(StepServer(c.servers[id], input, draw)))
    ensures Happen(c, e).servers[id] == StepServer(c.servers[id], input, draw)
    ensures forall a :: a in Step(c.servers[id].node, input, draw).actions && a.SendMessage? ==>
      Sent(id, a.to, a.message) in Happen(c, e).net
  {
    hide Genuine, Tidy, FaceOf, StepServer, Step, Reaches;
    ReachesStep(c, e);
    assert Happen(c, e).servers.Keys == c.servers.Keys;
  }

  // ------------------------------------------------------------------
  // Elections
  // ------------------------------------------------------------------

  /** The candidate, its helper, and what makes the helper vote for it. */
  ghost predicate Electable(c: Cluster, id: NodeId, h: NodeId) {
    && Scene(c) && IsVoter(id) && IsVoter(h) && id != h
    && var f, g := Of(c, id), Of(c, h);
    && f.role == Follower && f.timer.elapsed + 1 >= f.timer.timeout
    && g.role == Follower && !g.contacted && g.term <= f.term && AsUpToDate(f.log, g.log)
  }

  function Standing(f: Face): Face {
    f.(role := PreCandidate, leaderId := None, contacted := false, noOp := None, timer := ElectionTimer(0, 0))
  }

  /** Tick and pre-vote: the node asks, the helper grants. */
  lemma PreVote(c: Cluster, id: NodeId, h: NodeId) returns (c': Cluster)
    requires Electable(c, id, h)
    ensures Turns(c, c', id, Standing(Of(c, id))) && c'.servers[id].node.preVotesReceived == {id}
    ensures Sent(h, id, PreVoteGrant(c.servers[h])) in c'.net
  {
    hide Tidy, StepServer, Step, Genuine, Reaches, Possible;
    var sv := c.servers[id];
    TickStands(sv, id, 0);
    var e1 := Event.Tick(id, 0);
    TickGenuine(c, id, 0);
    Happens(c, e1, id, Input.Tick, 0);
    var c1 := Happen(c, e1);
    var input := PreVoteRequested(PreVoteFor(sv, id).preVoteRequest);
    var e2 := Noise(h, input, 0);
    GrantsPre(c1.servers[h], h, sv, id, 0);
    PreVoteGenuine(c1, id, h, PreVoteFor(sv, id).preVoteRequest);
    Happens(c1, e2, h, input, 0);
    c' := Happen(c1, e2);
    ReachesThen(c, c1, c');
  }

  lemma TickGenuine(c: Cluster, id: NodeId, draw: nat)
    requires id in c.servers
    ensures Possible(c, Event.Tick(id, draw)) && Genuine(c, Event.Tick(id, draw))
    ensures Happen(c, Event.Tick(id, draw)) == StepCluster(c, id, Input.Tick, draw)
  {
    hide StepCluster;
  }

  lemma PreVoteGenuine(c: Cluster, src: NodeId, id: NodeId, req: PreVoteRequest)
    requires id in c.servers && Sent(src, id, PreVoteReq(req)) in c.net
    ensures var e := Noise(id, PreVoteRequested(req), 0);
      Possible(c, e) && Genuine(c, e) && Happen(c, e) == StepCluster(c, id, PreVoteRequested(req), 0)
  {
    hide StepCluster;
  }

  function CandidateFace(f: Face, id: NodeId): Face {
    f.(role := Candidate, term := f.term + 1, votedFor := Some(id), leaderId := None, contacted := false, noOp := None,
       timer := ElectionTimer(0, 0))
  }

  /** The vote request of a candidate that stood with face `f`. */
  function Ballot(f: Face, id: NodeId): Message {
    VoteReq(VoteRequest("", f.term + 1, id, |f.log|, LastTerm(f.log)))
  }

  ghost predicate Asked(c: Cluster, f: Face, id: NodeId) {
    forall x :: IsVoter(x) && x != id ==> Sent(id, x, Ballot(f, id)) in c.net
  }

  /** The granted pre-vote arrives: the node stands and asks every other voter. */
  lemma Candidacy(c: Cluster, id: NodeId, h: NodeId, resp: PreVoteResponse) returns (c': Cluster)
    requires Scene(c) && IsVoter(id) && IsVoter(h) && h != id && Sent(h, id, PreVoteResp(resp)) in c.net
    requires Of(c, id).role == PreCandidate && c.servers[id].node.preVotesReceived == {id}
    requires resp.clusterId == "" && resp.term <= Of(c, id).term && resp.voteGranted
    ensures Turns(c, c', id, CandidateFace(Of(c, id), id)) && c'.servers[id].node.votesReceived == {id}
    ensures Asked(c', Of(c, id), id)
  {
    hide Tidy, StepServer, Step, Genuine, Reaches, Possible;
    Stands(c.servers[id], id, h, resp, 0);
    PreVotedGenuine(c, h, id, resp);
    var e := Noise(id, PreVoteAnswered(h, resp), 0);
    Happens(c, e, id, PreVoteAnswered(h, resp), 0);
    c' := Happen(c, e);
  }

  lemma PreVotedGenuine(c: Cluster, src: NodeId, id: NodeId, resp: PreVoteResponse)
    requires id in c.servers && Sent(src, id, PreVoteResp(resp)) in c.net
    ensures var e := Noise(id, PreVoteAnswered(src, resp), 0);
      Possible(c, e) && Genuine(c, e) && Happen(c, e) == StepCluster(c, id, PreVoteAnswered(src, resp), 0)
  {
    hide StepCluster;
  }

  function Demoted(f: Face, t: nat, vote: Option<NodeId>, draw: nat): Face {
    f.(role := Follower, term := t, votedFor := vote, leaderId := None, contacted := false,
       timer := ElectionTimer(0, draw))
  }

  /** A vote request of a higher term reaches a voter, which follows the term and votes if it may. */
  lemma Demotion(c: Cluster, x: NodeId, f: Face, id: NodeId, draw: nat) returns (c': Cluster)
    requires Scene(c) && IsVoter(x) && IsVoter(id) && Sent(id, x, Ballot(f, id)) in c.net && f.term >= Of(c, x).term
    ensures var granted := AsUpToDate(f.log, Of(c, x).log);
      && Turns(c, c', x, Demoted(Of(c, x), f.term + 1, if granted then Some(id) else None, draw))
      && (granted ==> Sent(x, id, VoteGrant(f.term + 1)) in c'.net)
  {
    hide Tidy, StepServer, Step, Genuine, Reaches, Possible, CandidateLogIsUpToDate, AsUpToDate;
    var req := Ballot(f, id).voteRequest;
    FollowsTerm(c.servers[x], x, req, draw);
    VoteRequestGenuine(c, id, x, req, draw);
    var e := DeliverVoteRequest(Sent(id, x, VoteReq(req)), draw);
    SameJudgement(c.servers[x], x, f.log);
    Happens(c, e, x, VoteRequested(req), draw);
    c' := Happen(c, e);
  }

  lemma SameJudgement(sv: Server, id: NodeId, log: seq<Entry>)
    requires Tidy(sv, id)
    ensures CandidateLogIsUpToDate(sv.node, |log|, LastTerm(log)) == AsUpToDate(log, sv.log)
  {
  }

  lemma VoteRequestGenuine(c: Cluster, src: NodeId, id: NodeId, req: VoteRequest, draw: nat)
    requires id in c.servers && Sent(src, id, VoteReq(req)) in c.net
    ensures var e := DeliverVoteRequest(Sent(src, id, VoteReq(req)), draw);
      Possible(c, e) && Genuine(c, e) && Happen(c, e) == StepCluster(c, id, VoteRequested(req), draw)
  {
    hide StepCluster;
  }

  function LeaderFace(f: Face, id: NodeId): Face {
    f.(role := Leader, leaderId := Some(id), contacted := true, log := f.log + [NoOpAfter(f.log, f.term)],
       noOp := Some(|f.log| + 1), offsets := ZeroOffsets(id), timer := ElectionTimer(0, 0))
  }

  /** The granted vote arrives: the candidate leads. */
  lemma Coronation(c: Cluster, id: NodeId, h: NodeId) returns (c': Cluster)
    requires Scene(c) && IsVoter(id) && IsVoter(h) && h != id && Sent(h, id, VoteGrant(Of(c, id).term)) in c.net
    requires Of(c, id).role == Candidate && c.servers[id].node.votesReceived == {id}
    ensures Turns(c, c', id, LeaderFace(Of(c, id), id))
  {
    hide Tidy, StepServer, Step, Genuine, Reaches, Possible;
    Wins(c.servers[id], id, h, 0);
    var resp := VoteGrant(Of(c, id).term).voteResponse;
    VoteGenuine(c, h, id, resp);
    var e := DeliverVote(Sent(h, id, VoteResp(resp)), 0);
    Happens(c, e, id, VoteAnswered(h, resp), 0);
    c' := Happen(c, e);
  }

  lemma VoteGenuine(c: Cluster, src: NodeId, id: NodeId, resp: VoteResponse)
    requires id in c.servers && Sent(src, id, VoteResp(resp)) in c.net
    ensures var e := DeliverVote(Sent(src, id, VoteResp(resp)), 0);
      Possible(c, e) && Genuine(c, e) && Happen(c, e) == StepCluster(c, id, VoteAnswered(src, resp), 0)
  {
    hide StepCluster;
  }

  /** `c'` follows `c` with the two named faces changed. */
  ghost predicate TurnsTwo(c: Cluster, c': Cluster, a: NodeId, f: Face, b: NodeId, g: Face) {
    && Scene(c) && Scene(c') && Reaches(c, c') && c.net <= c'.net && a in c.servers && b in c.servers
    && Of(c', a) == f && Of(c', b) == g
    && forall x :: x in c.servers && x != a && x != b ==> c'.servers[x] == c.servers[x]
  }

  /** Pre-vote and candidacy. */
  lemma Candidature(c: Cluster, id: NodeId, h: NodeId) returns (c': Cluster)
    requires Electable(c, id, h)
    ensures Turns(c, c', id, CandidateFace(Of(c, id), id)) && c'.servers[id].node.votesReceived == {id}
    ensures Asked(c', Of(c, id), id)
  {
    hide Reaches, Tidy, FaceOf, Scene, Standing, CandidateFace, Ballot, AsUpToDate;
    SceneKeys(c);
    FacesCollapse(Of(c, id), id);
    var c1 := PreVote(c, id, h);
    SceneKeys(c1);
    Granted(c, h);
    c' := Candidacy(c1, id, h, PreVoteGrant(c.servers[h]).preVoteResponse);
    ReachesThen(c, c1, c');
  }

  /** A whole election: pre-vote, candidacy and vote with one helper. */
  lemma Election(c: Cluster, id: NodeId, h: NodeId, draw: nat) returns (c': Cluster)
    requires Electable(c, id, h)
    ensures var f, g := Of(c, id), Of(c, h);
      && TurnsTwo(c, c', id, LeaderFace(CandidateFace(f, id), id), h, Demoted(g, f.term + 1, Some(id), draw))
      && Asked(c', f, id)
  {
    hide Reaches, Tidy, FaceOf, Scene, Standing, CandidateFace, LeaderFace, Demoted, Ballot, AsUpToDate;
    SceneKeys(c);
    var f := Of(c, id);
    FacesCollapse(f, id);
    var c1 := Candidature(c, id, h);
    SceneKeys(c1);
    var c2 := Demotion(c1, h, f, id, draw);
    SceneKeys(c2);
    c' := Coronation(c2, id, h);
    ReachesThen(c, c1, c2);
    ReachesThen(c, c2, c');
  }

  /** Standing for election overwrites what the pre-vote changed. */
  lemma FacesCollapse(f: Face, id: NodeId)
    ensures CandidateFace(Standing(f), id) == CandidateFace(f, id) && Ballot(Standing(f), id) == Ballot(f, id)
    ensures Standing(f).role == PreCandidate && Standing(f).term == f.term
    ensures CandidateFace(f, id).role == Candidate && CandidateFace(f, id).term == f.term + 1
  {
  }

  lemma SceneKeys(c: Cluster)
    requires Scene(c)
    ensures c.servers.Keys == {1, 2, 3, 4}
  {
  }

  lemma Granted(c: Cluster, h: NodeId)
    requires h in c.servers
    ensures PreVoteGrant(c.servers[h]).preVoteResponse.term == Of(c, h).term
  {
  }

  // ------------------------------------------------------------------
  // Fetching
  // ------------------------------------------------------------------

  function Fetch(f: Face, id: NodeId): FetchRequest {
    FetchRequest("", f.term, id, |f.log| + 1, LastTerm(f.log))
  }

  function Ticked(f: Face): Face {
    f.(timer := f.timer.(elapsed := f.timer.elapsed + 1))
  }

  /** A tick sends a fetch to the known leader, or to every other voter. */
  lemma Fetching(c: Cluster, id: NodeId) returns (c': Cluster)
    requires Scene(c) && id in c.servers && (Of(c, id).role == Follower || Of(c, id).role == Observer)
    requires Of(c, id).role == Follower ==> Of(c, id).timer.elapsed + 1 < Of(c, id).timer.timeout
    ensures Turns(c, c', id, Ticked(Of(c, id)))
    ensures var f := Of(c, id);
      if f.leaderId.Some? then Sent(id, f.leaderId.value, FetchReq(Fetch(f, id))) in c'.net
      else forall x :: IsVoter(x) && x != id ==> Sent(id, x, FetchReq(Fetch(f, id))) in c'.net
  {
    hide Tidy, StepServer, Step, Genuine, Reaches, Possible;
    TickFetches(c.servers[id], id, 0);
    TickGenuine(c, id, 0);
    Happens(c, Event.Tick(id, 0), id, Input.Tick, 0);
    c' := Happen(c, Event.Tick(id, 0));
  }

  // ------------------------------------------------------------------
  // Serving
  // ------------------------------------------------------------------

  /** Leader `l` serves this fetch, and it is on the wire. */
  ghost predicate Servable(c: Cluster, l: NodeId, req: FetchRequest) {
    && Scene(c) && IsVoter(l) && Of(c, l).role == Leader && Of(c, l).noOp.Some?
    && req.clusterId == "" && req.replicaId in {1, 2, 3, 4} - {l} && req.leaderEpoch <= Of(c, l).term
    && req.fetchOffset >= 1
    && Sent(req.replicaId, l, FetchReq(req)) in c.net
  }

  /** The driver's answer of a leader with face `f`. */
  function Reply(f: Face, l: NodeId, req: FetchRequest): FetchResponse
    requires req.fetchOffset >= 1
  {
    var d := Diverges(f.log, req.fetchOffset - 1, req.lastFetchedEpoch);
    FetchResponse("", f.term, l, f.commit, if d then [] else GetRange(f.log, req.fetchOffset, BATCH),
                  if d then Some(Divergence(f.log, req.fetchOffset - 1, req.lastFetchedEpoch)) else None, None, true)
  }

  lemma FetchGenuine(c: Cluster, l: NodeId, req: FetchRequest)
    requires l in c.servers && Sent(req.replicaId, l, FetchReq(req)) in c.net
    ensures var e := DeliverFetch(Sent(req.replicaId, l, FetchReq(req)), 0, BATCH, None);
      Possible(c, e) && Genuine(c, e) && Happen(c, e) == ServeCluster(c, l, req, 0, BATCH, None)
  {
    hide ServeCluster;
  }

  /** The leader after serving: stamped, and unless the claim diverges with its acknowledgement fed back. */
  function Serving(sv: Server, req: FetchRequest): Server
    requires req.fetchOffset >= 1
  {
    var sv1 := sv.(node := StampFetch(sv.node, req.replicaId));
    if Diverges(sv.log, req.fetchOffset - 1, req.lastFetchedEpoch) then sv1
    else StepServer(sv1, FetchRequestAcked(req.replicaId, req.fetchOffset - 1), 0)
  }

  lemma ServeShape(c: Cluster, l: NodeId, req: FetchRequest)
    requires Servable(c, l, req)
    ensures var c' := ServeCluster(c, l, req, 0, BATCH, None);
      && c'.servers == c.servers[l := Serving(c.servers[l], req)]
      && c'.net == c.net + {Answer(req.replicaId, req, Reply(Of(c, l), l, req), c.servers[l].log)}
  {
    hide StepServer, HandleFetchRequest, Divergence, HasEpoch, GetRange, Tidy;
    var sv := c.servers[l];
    PeersOf(sv, l);
    Stamps(sv, l, req, 0);
  }

  lemma PeersOf(sv: Server, id: NodeId)
    requires Tidy(sv, id)
    ensures sv.node.peers.Keys == {1, 2, 3, 4} - {id}
  {
  }

  lemma Served(c: Cluster, l: NodeId, req: FetchRequest) returns (c': Cluster)
    requires Servable(c, l, req) && Tidy(Serving(c.servers[l], req), l)
    ensures Turns(c, c', l, FaceOf(Serving(c.servers[l], req)))
    ensures Answer(req.replicaId, req, Reply(Of(c, l), l, req), Of(c, l).log) in c'.net
  {
    hide Serving, Tidy, Genuine, Reaches, Reply, FaceOf, Possible;
    FetchGenuine(c, l, req);
    var e := DeliverFetch(Sent(req.replicaId, l, FetchReq(req)), 0, BATCH, None);
    ServeShape(c, l, req);
    c' := Happen(c, e);
    ReachesStep(c, e);
    LogOf(c, l);
  }

  lemma LogOf(c: Cluster, id: NodeId)
    requires id in c.servers
    ensures Of(c, id).log == c.servers[id].log
  {
  }

  function Contacted(f: Face): Face {
    f.(contacted := true)
  }

  lemma ServeDiverging(c: Cluster, l: NodeId, req: FetchRequest) returns (c': Cluster)
    requires Servable(c, l, req) && Diverges(Of(c, l).log, req.fetchOffset - 1, req.lastFetchedEpoch)
    ensures Turns(c, c', l, Contacted(Of(c, l)))
    ensures Answer(req.replicaId, req, Reply(Of(c, l), l, req), Of(c, l).log) in c'.net
  {
    hide Tidy, Reaches, Reply, Diverges;
    PeersOf(c.servers[l], l);
    Stamps(c.servers[l], l, req, 0);
    c' := Served(c, l, req);
  }

  /** The face with the replica's record raised. */
  function Recorded(f: Face, replica: NodeId, k: nat): Face
    requires replica in f.offsets
  {
    f.(contacted := true, offsets := f.offsets[replica := Max(f.offsets[replica], Min(k, |f.log|))])
  }

  /** No other voter is recorded past the commit index. */
  ghost predicate Alone(f: Face, l: NodeId) {
    forall v :: IsVoter(v) && v != l ==> v in f.offsets && f.offsets[v] <= f.commit
  }

  lemma OffsetsShown(sv: Server, id: NodeId)
    requires Tidy(sv, id)
    ensures FaceOf(sv).offsets.Keys == {1, 2, 3, 4} - {id} == sv.node.peers.Keys
    ensures forall p :: p in sv.node.peers ==> FaceOf(sv).offsets[p] == sv.node.peers[p].lastFetchOffset
  {
  }

  /** Feeding the acknowledgement back, seen on the face. */
  lemma AckShown(sv: Server, id: NodeId, replica: NodeId, k: nat)
    requires Tidy(sv, id) && IsVoter(id) && sv.node.role == Leader && sv.node.leaderNoOpIndex.Some?
    requires FaceOf(sv).contacted && replica in sv.node.peers && replica in FaceOf(sv).offsets
    requires Alone(Recorded(FaceOf(sv), replica, k), id)
    ensures var sv' := StepServer(sv, FetchRequestAcked(replica, k), 0);
      Tidy(sv', id) && FaceOf(sv') == Recorded(FaceOf(sv), replica, k)
  {
    hide Tidy, StepServer, OffsetMap;
    OffsetsShown(sv, id);
    forall v | IsVoter(v) && v != id
      ensures (if v == replica then Raised(sv, replica, k) else sv.node.peers[v].lastFetchOffset) <= sv.node.commitIndex
    {
      assert v in Recorded(FaceOf(sv), replica, k).offsets;
    }
    AckRecords(sv, id, replica, k, 0);
  }

  lemma ServeRecording(c: Cluster, l: NodeId, req: FetchRequest) returns (c': Cluster)
    requires Servable(c, l, req) && !Diverges(Of(c, l).log, req.fetchOffset - 1, req.lastFetchedEpoch)
    requires req.replicaId in Of(c, l).offsets && Alone(Recorded(Of(c, l), req.replicaId, req.fetchOffset - 1), l)
    ensures Turns(c, c', l, Recorded(Of(c, l), req.replicaId, req.fetchOffset - 1))
    ensures Answer(req.replicaId, req, Reply(Of(c, l), l, req), Of(c, l).log) in c'.net
  {
    hide Tidy, Reaches, Reply, Diverges, StepServer, OffsetMap, Alone;
    var sv := c.servers[l];
    PeersOf(sv, l);
    Stamps(sv, l, req, 0);
    var sv1 := sv.(node := StampFetch(sv.node, req.replicaId));
    PeersOf(sv1, l);
    AckShown(sv1, l, req.replicaId, req.fetchOffset - 1);
    c' := Served(c, l, req);
  }

  lemma ServeCommitting(c: Cluster, l: NodeId, req: FetchRequest) returns (c': Cluster)
    requires Servable(c, l, req) && !Diverges(Of(c, l).log, req.fetchOffset - 1, req.lastFetchedEpoch)
    requires Of(c, l).offsets.Keys == {1, 2, 3, 4} - {l} && IsVoter(req.replicaId)
    requires var f := Of(c, l);
      && req.fetchOffset - 1 == |f.log| && f.commit == 0 && f.applied == [] && f.noOp.value <= |f.log|
      && 1 <= |f.log| < 100
      && forall p :: p in f.offsets ==> f.offsets[p] <= |f.log|
    ensures var f := Of(c, l);
      Turns(c, c', l, Recorded(f, req.replicaId, |f.log|).(commit := |f.log|, applied := f.log))
    ensures Answer(req.replicaId, req, Reply(Of(c, l), l, req), Of(c, l).log) in c'.net
  {
    hide Tidy, Reaches, Reply, Diverges, StepServer, OffsetMap;
    var sv, f := c.servers[l], Of(c, l);
    PeersOf(sv, l);
    Stamps(sv, l, req, 0);
    var sv1 := sv.(node := StampFetch(sv.node, req.replicaId));
    PeersOf(sv1, l);
    OffsetsShown(sv1, l);
    TidyBasics(sv1, l);
    AckCommits(sv1, l, req.replicaId, 0);
    assert Max(f.offsets[req.replicaId], Min(|f.log|, |f.log|)) == |f.log|;
    c' := Served(c, l, req);
  }

  // ------------------------------------------------------------------
  // Consuming
  // ------------------------------------------------------------------

  /** The answer `resp` is on the wire for `id`, which takes it as its leader's. */
  ghost predicate Arrives(c: Cluster, id: NodeId, req: FetchRequest, resp: FetchResponse, base: seq<Entry>) {
    && Scene(c) && id in c.servers && Answer(id, req, resp, base) in c.net
    && var f := Of(c, id);
    && (f.role == Follower || f.role == Observer)
    && resp.clusterId == "" && resp.isLeader && IsVoter(resp.leaderId) && resp.snapshotRedirect == None
    && resp.leaderEpoch >= f.term && resp.highWatermark <= f.commit
    && (resp.leaderEpoch == f.term ==> f.leaderId == None || f.leaderId == Some(resp.leaderId))
  }

  lemma AnswerGenuine(c: Cluster, id: NodeId, req: FetchRequest, resp: FetchResponse, base: seq<Entry>, draw: nat)
    requires id in c.servers && Answer(id, req, resp, base) in c.net
    ensures var e := DeliverAnswer(Answer(id, req, resp, base), draw);
      Possible(c, e) && Genuine(c, e) && Happen(c, e) == StepCluster(c, id, FetchAnswered(resp), draw)
  {
    hide StepCluster;
  }

  /** The batch does not continue the log. */
  lemma DropBatch(c: Cluster, id: NodeId, req: FetchRequest, resp: FetchResponse, base: seq<Entry>, draw: nat)
    returns (c': Cluster)
    requires Arrives(c, id, req, resp, base) && resp.divergingEpoch == None && resp.entries != []
    requires !WellFormedBatch(resp.entries, |Of(c, id).log| + 1)
    ensures Turns(c, c', id, Followed(Of(c, id), resp, draw))
  {
    hide Tidy, StepServer, Step, Genuine, Reaches, Possible, Followed, WellFormedBatch;
    DropsBatch(c.servers[id], id, resp, draw);
    AnswerGenuine(c, id, req, resp, base, draw);
    var e := DeliverAnswer(Answer(id, req, resp, base), draw);
    Happens(c, e, id, FetchAnswered(resp), draw);
    c' := Happen(c, e);
  }

  lemma TakeEntries(c: Cluster, id: NodeId, req: FetchRequest, resp: FetchResponse, base: seq<Entry>, draw: nat)
    returns (c': Cluster)
    requires Arrives(c, id, req, resp, base) && resp.divergingEpoch == None
    requires WellFormedBatch(resp.entries, |Of(c, id).log| + 1)
    ensures Turns(c, c', id, Followed(Of(c, id), resp, draw).(log := Of(c, id).log + resp.entries))
  {
    hide Tidy, StepServer, Step, Genuine, Reaches, Possible, Followed, WellFormedBatch;
    TakesEntries(c.servers[id], id, resp, draw);
    AnswerGenuine(c, id, req, resp, base, draw);
    var e := DeliverAnswer(Answer(id, req, resp, base), draw);
    Happens(c, e, id, FetchAnswered(resp), draw);
    c' := Happen(c, e);
  }

  lemma TakeDivergence(c: Cluster, id: NodeId, req: FetchRequest, resp: FetchResponse, base: seq<Entry>, draw: nat)
    returns (c': Cluster)
    requires Arrives(c, id, req, resp, base) && resp.divergingEpoch.Some?
    requires resp.divergingEpoch.value.endOffset <= |Of(c, id).log|
    ensures var f := Of(c, id);
      Turns(c, c', id, Followed(f, resp, draw).(log := f.log[..resp.divergingEpoch.value.endOffset]))
    ensures Sent(id, resp.leaderId, FetchReq(RefetchOf(resp, id))) in c'.net
  {
    hide Tidy, StepServer, Step, Genuine, Reaches, Possible, Followed;
    TakesDivergence(c.servers[id], id, resp, draw);
    AnswerGenuine(c, id, req, resp, base, draw);
    var e := DeliverAnswer(Answer(id, req, resp, base), draw);
    Happens(c, e, id, FetchAnswered(resp), draw);
    c' := Happen(c, e);
  }

  /** A client's command. */
  lemma Proposal(c: Cluster, l: NodeId) returns (c': Cluster)
    requires Scene(c) && IsVoter(l) && Of(c, l).role == Leader && Of(c, l).noOp.Some?
    requires Alone(Of(c, l), l)
    ensures var f := Of(c, l); Turns(c, c', l, f.(log := f.log + [Entry(|f.log| + 1, f.term, Command([]))]))
  {
    hide Tidy, StepServer, Step, Genuine, Reaches, Possible, OffsetMap;
    OffsetsShown(c.servers[l], l);
    Proposes(c.servers[l], l, []);
    ProposeGenuine(c, l);
    Happens(c, Propose(l, []), l, ClientPropose([]), 0);
    c' := Happen(c, Propose(l, []));
  }

  lemma ProposeGenuine(c: Cluster, l: NodeId)
    requires l in c.servers
    ensures Possible(c, Propose(l, [])) && Genuine(c, Propose(l, []))
    ensures Happen(c, Propose(l, [])) == StepCluster(c, l, ClientPropose([]), 0)
  {
    hide StepCluster;
  }

  // ------------------------------------------------------------------
  // A whole fetch
  // ------------------------------------------------------------------

  /** Leader `l` serves `req` of server `id`, whose claim it has, and `id` takes its answers. */
  ghost predicate Answers(c: Cluster, id: NodeId, l: NodeId, req: FetchRequest) {
    && Servable(c, l, req) && req.replicaId == id && id in c.servers && id != l
    && var f, g := Of(c, id), Of(c, l);
    && (f.role == Follower || f.role == Observer) && f.term <= g.term && g.commit <= f.commit
    && (f.term == g.term ==> f.leaderId == None || f.leaderId == Some(l))
    && !Diverges(g.log, req.fetchOffset - 1, req.lastFetchedEpoch)
    && id in g.offsets && Alone(Recorded(g, id, req.fetchOffset - 1), l)
  }

  /** Serve and consume: the entries continue the follower's log. */
  lemma Answering(c: Cluster, id: NodeId, l: NodeId, req: FetchRequest, draw: nat) returns (c': Cluster)
    requires Answers(c, id, l, req)
    requires WellFormedBatch(GetRange(Of(c, l).log, req.fetchOffset, BATCH), |Of(c, id).log| + 1)
    ensures var f, g := Of(c, id), Of(c, l);
      var entries := GetRange(g.log, req.fetchOffset, BATCH);
      TurnsTwo(c, c', id, Followed(f, Reply(g, l, req), draw).(log := f.log + entries),
               l, Recorded(g, id, req.fetchOffset - 1))
  {
    hide Reaches, Tidy, FaceOf, Scene, Diverges, GetRange, WellFormedBatch, Alone, Recorded, Followed;
    SceneKeys(c);
    var g := Of(c, l);
    var c1 := ServeRecording(c, l, req);
    SceneKeys(c1);
    c' := TakeEntries(c1, id, req, Reply(g, l, req), g.log, draw);
    ReachesThen(c, c1, c');
  }

  /** Serve and consume: the entries do not continue the follower's log, which only learns of the leader. */
  lemma Greeting(c: Cluster, id: NodeId, l: NodeId, req: FetchRequest, draw: nat) returns (c': Cluster)
    requires Answers(c, id, l, req)
    requires var entries := GetRange(Of(c, l).log, req.fetchOffset, BATCH);
      entries != [] && !WellFormedBatch(entries, |Of(c, id).log| + 1)
    ensures var f, g := Of(c, id), Of(c, l);
      TurnsTwo(c, c', id, Followed(f, Reply(g, l, req), draw), l, Recorded(g, id, req.fetchOffset - 1))
  {
    hide Reaches, Tidy, FaceOf, Scene, Diverges, GetRange, WellFormedBatch, Alone, Recorded, Followed;
    SceneKeys(c);
    var g := Of(c, l);
    var c1 := ServeRecording(c, l, req);
    SceneKeys(c1);
    c' := DropBatch(c1, id, req, Reply(g, l, req), g.log, draw);
    ReachesThen(c, c1, c');
  }

  /** Server `id` is ready to copy a batch from leader `l`. */
  ghost predicate Copyable(c: Cluster, id: NodeId, l: NodeId) {
    && Scene(c) && id in c.servers && IsVoter(l) && id != l
    && var f, g := Of(c, id), Of(c, l);
    && (f.role == Follower || f.role == Observer) && (f.role == Follower ==> f.timer.elapsed + 1 < f.timer.timeout)
    && (f.leaderId == None || f.leaderId == Some(l)) && f.term <= g.term && g.commit <= f.commit
    && g.role == Leader && g.noOp.Some? && !Diverges(g.log, |f.log|, LastTerm(f.log))
    && id in g.offsets && Alone(Recorded(g, id, |f.log|), l)
    && WellFormedBatch(GetRange(g.log, |f.log| + 1, BATCH), |f.log| + 1)
  }

  /** Tick, serve and consume: the follower's log grows by a batch of the leader's. */
  lemma Copying(c: Cluster, id: NodeId, l: NodeId, draw: nat) returns (c': Cluster)
    requires Copyable(c, id, l)
    ensures var f, g := Of(c, id), Of(c, l);
      var entries := GetRange(g.log, |f.log| + 1, BATCH);
      && TurnsTwo(c, c', id, Followed(f, Reply(g, l, Fetch(f, id)), draw).(log := f.log + entries),
                  l, Recorded(g, id, |f.log|))
      && (f.leaderId == None ==> forall x :: IsVoter(x) && x != id ==> Sent(id, x, FetchReq(Fetch(f, id))) in c'.net)
  {
    hide Reaches, Tidy, FaceOf, Scene, Diverges, GetRange, WellFormedBatch, LastTerm, Alone, Recorded;
    SceneKeys(c);
    var c1 := Fetching(c, id);
    SceneKeys(c1);
    c' := Answering(c1, id, l, Fetch(Of(c, id), id), draw);
    ReachesThen(c, c1, c');
  }
}
