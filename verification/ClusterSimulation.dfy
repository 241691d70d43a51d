/** Every event of the cluster is matched by protocol steps. */
module ClusterSimulation {
  import opened Base
  import opened Messages
  import opened OrderStatistics
  import opened Engine
  import opened EngineQuorum
  import opened Driver
  import opened Cluster
  import P = Protocol
  import ProtocolHistory
  import ProtocolSteps
  import opened Simulation
  import opened FetchSimulation

  ghost predicate PacketOk(s: P.System, p: Packet) {
    match p
    case Sent(src, dst, message) => MessageOk(s, src, dst, message)
    case Answer(_, request, response, base) => AnswerOk(s, request, response, base)
  }

  /** The protocol state `s` describes the cluster `c`. */
  ghost predicate Related(c: Cluster, s: P.System) {
    && P.Inv(s) && s.members.Keys == c.servers.Keys
    && (forall id ::
          id in c.servers
          ==> Mirrors(c.servers[id], s.members[id]) && ConfigOk(c.servers[id].node.cfg, id, s.voters))
    && (forall p :: p in c.net ==> PacketOk(s, p))
  }

  lemma PacketStays(s: P.System, s': P.System, p: Packet)
    requires ProtocolHistory.Later(s, s') && PacketOk(s, p)
    ensures PacketOk(s', p)
  {
    match p
    case Sent(src, dst, message) => MessageStays(s, s', src, dst, message);
    case Answer(_, request, response, base) => AnswerStays(s, s', request, response, base);
  }

  /** Replacing one simulated server and adding good packets. */
  lemma ServerRelated(c: Cluster, s: P.System, s': P.System, id: NodeId, sv': Server, more: set<Packet>)
    requires Related(c, s) && id in c.servers && Sim(s, s', id, c.servers[id], sv')
    requires forall p :: p in more ==> PacketOk(s', p)
    ensures Related(c.(servers := c.servers[id := sv'], net := c.net + more), s')
  {
    hide P.Inv, Mirrors, PacketOk;
    forall p | p in c.net ensures PacketOk(s', p) {
      PacketStays(s, s', p);
    }
  }

  lemma OutboxOk(s: P.System, id: NodeId, actions: seq<Action>)
    requires ActionsOk(s, id, actions)
    ensures forall p :: p in Outbox(id, actions) ==> PacketOk(s, p)
  {
  }

  /** A simulated engine step is a simulated cluster step. */
  lemma StepRelated(c: Cluster, s: P.System, s': P.System, id: NodeId, input: Input, draw: nat)
    requires Related(c, s) && id in c.servers
    requires var o := Step(c.servers[id].node, input, draw);
      Sim(s, s', id, c.servers[id], Execute(c.servers[id].(node := o.node), o.actions)) && ActionsOk(s', id, o.actions)
    ensures Related(StepCluster(c, id, input, draw), s') && ProtocolHistory.Later(s, s')
  {
    hide P.Inv, Mirrors, PacketOk, Step, ProtocolHistory.Later;
    var sv, o := c.servers[id], Step(c.servers[id].node, input, draw);
    OutboxOk(s', id, o.actions);
    ServerRelated(c, s, s', id, StepServer(sv, input, draw), Outbox(id, o.actions));
  }

  lemma ReadyAt(c: Cluster, s: P.System, id: NodeId)
    requires Related(c, s) && id in c.servers
    ensures Ready(s, id, c.servers[id])
  {
  }

  lemma TickRelated(c: Cluster, s: P.System, id: NodeId, draw: nat) returns (s': P.System)
    requires Related(c, s) && id in c.servers
    ensures Related(StepCluster(c, id, Input.Tick, draw), s') && ProtocolHistory.Later(s, s')
  {
    hide P.Inv, Mirrors, PacketOk, ProtocolHistory.Later, HandleTick, StepCluster;
    ReadyAt(c, s, id);
    s' := TickSim(s, id, c.servers[id], draw);
    StepRelated(c, s, s', id, Input.Tick, draw);
  }

  lemma ProposeRelated(c: Cluster, s: P.System, id: NodeId, command: seq<bv8>) returns (s': P.System)
    requires Related(c, s) && id in c.servers
    ensures Related(StepCluster(c, id, ClientPropose(command), 0), s') && ProtocolHistory.Later(s, s')
  {
    hide P.Inv, Mirrors, PacketOk, ProtocolHistory.Later, StepCluster, HandleClientPropose;
    ReadyAt(c, s, id);
    s' := ProposeSim(s, id, c.servers[id], command);
    StepRelated(c, s, s', id, ClientPropose(command), 0);
  }

  lemma VoteRequestRelated(c: Cluster, s: P.System, id: NodeId, req: VoteRequest, draw: nat) returns (s': P.System)
    requires Related(c, s) && id in c.servers && MessageOk(s, req.candidateId, id, VoteReq(req))
    ensures Related(StepCluster(c, id, VoteRequested(req), draw), s') && ProtocolHistory.Later(s, s')
  {
    hide P.Inv, Mirrors, PacketOk, ProtocolHistory.Later, StepCluster, HandleVoteRequest;
    ReadyAt(c, s, id);
    s' := VoteRequestSim(s, id, c.servers[id], req, draw);
    StepRelated(c, s, s', id, VoteRequested(req), draw);
  }

  lemma VoteRelated(c: Cluster, s: P.System, id: NodeId, voter: NodeId, resp: VoteResponse, draw: nat)
    returns (s': P.System)
    requires Related(c, s) && id in c.servers && MessageOk(s, voter, id, VoteResp(resp))
    ensures Related(StepCluster(c, id, VoteAnswered(voter, resp), draw), s') && ProtocolHistory.Later(s, s')
  {
    hide P.Inv, Mirrors, PacketOk, ProtocolHistory.Later, StepCluster, HandleVoteResponse;
    ReadyAt(c, s, id);
    s' := VoteResponseSim(s, id, c.servers[id], voter, resp, draw);
    StepRelated(c, s, s', id, VoteAnswered(voter, resp), draw);
  }

  lemma PreVoteRelated(c: Cluster, s: P.System, id: NodeId, voter: NodeId, resp: PreVoteResponse, draw: nat)
    returns (s': P.System)
    requires Related(c, s) && id in c.servers
    ensures Related(StepCluster(c, id, PreVoteAnswered(voter, resp), draw), s') && ProtocolHistory.Later(s, s')
  {
    hide P.Inv, Mirrors, PacketOk, ProtocolHistory.Later, StepCluster, HandlePreVoteResponse;
    ReadyAt(c, s, id);
    s' := PreVoteResponseSim(s, id, c.servers[id], voter, resp, draw);
    StepRelated(c, s, s', id, PreVoteAnswered(voter, resp), draw);
  }

  lemma PreVoteRequestSim(s: P.System, id: NodeId, sv: Server, req: PreVoteRequest)
    requires Ready(s, id, sv)
    ensures var o := HandlePreVoteRequest(sv.node, req);
      Sim(s, s, id, sv, Execute(sv.(node := o.node), o.actions)) && ActionsOk(s, id, o.actions)
  {
    hide P.Inv, Mirrors, ProtocolHistory.Later;
    var o := HandlePreVoteRequest(sv.node, req);
    ExecuteHarmless(sv, o.actions);
    SimReflexive(s, id, sv);
  }

  lemma PreVoteRequestRelated(c: Cluster, s: P.System, id: NodeId, req: PreVoteRequest, draw: nat)
    requires Related(c, s) && id in c.servers
    ensures Related(StepCluster(c, id, PreVoteRequested(req), draw), s)
  {
    hide P.Inv, Mirrors, PacketOk, ProtocolHistory.Later, StepCluster, HandlePreVoteRequest;
    ReadyAt(c, s, id);
    PreVoteRequestSim(s, id, c.servers[id], req);
    StepRelated(c, s, s, id, PreVoteRequested(req), draw);
  }

  lemma AnswerRelated(c: Cluster, s: P.System, id: NodeId, req: FetchRequest, resp: FetchResponse, base: seq<Entry>,
                      draw: nat) returns (s': P.System)
    requires Related(c, s) && id in c.servers && AnswerOk(s, req, resp, base)
    requires !DropsAnswer(c.servers[id].node, resp) ==> Answerable(c.servers[id].log, resp, base)
    ensures Related(StepCluster(c, id, FetchAnswered(resp), draw), s') && ProtocolHistory.Later(s, s')
  {
    hide P.Inv, Mirrors, PacketOk, ProtocolHistory.Later, StepCluster, HandleFetchResponse, AnswerOk, Answerable,
      DropsAnswer;
    ReadyAt(c, s, id);
    s' := FetchResponseSim(s, id, c.servers[id], req, resp, base, draw);
    StepRelated(c, s, s', id, FetchAnswered(resp), draw);
  }

  // ------------------------------------------------------------------
  // Serving
  // ------------------------------------------------------------------

  /** A fetch request that is not served at most raises the term. */
  lemma FetchIgnoredRelated(c: Cluster, s: P.System, id: NodeId, req: FetchRequest, draw: nat) returns (s': P.System)
    requires Related(c, s) && id in c.servers
    requires var o := HandleFetchRequest(c.servers[id].node, req, draw);
      !(|o.actions| == 1 && o.actions[0].ServeFetch?)
    ensures Related(StepCluster(c, id, FetchRequested(req), draw), s') && ProtocolHistory.Later(s, s')
  {
    hide P.Inv, PacketOk, ProtocolHistory.Later, StepCluster, Mirrors;
    ReadyAt(c, s, id);
    var sv, n := c.servers[id], c.servers[id].node;
    var o := HandleFetchRequest(n, req, draw);
    NoSnapshot(sv, s.members[id]);
    if o.node == n && o.actions == [] {
      SimReflexive(s, id, sv);
      s' := s;
    } else {
      assert o == BecomeFollower(n, req.leaderEpoch, None, draw);
      ExecuteHarmless(sv.(node := o.node), o.actions);
      s' := FollowerSim(s, id, sv, req.leaderEpoch, None, draw);
    }
    StepRelated(c, s, s', id, FetchRequested(req), draw);
  }

  lemma ServeRelated(c: Cluster, s: P.System, id: NodeId, req: FetchRequest, draw: nat, batch: nat,
                     anchor: Option<DivergingEpoch>) returns (s': P.System)
    requires Related(c, s) && id in c.servers && ClaimOk(s, req)
    ensures Related(ServeCluster(c, id, req, draw, batch, anchor), s') && ProtocolHistory.Later(s, s')
  {
    hide P.Inv, Mirrors, PacketOk, ProtocolHistory.Later, StepCluster, StepServer, HandleFetchRequest, AnswerFor,
      AnswerOk;
    ReadyAt(c, s, id);
    var sv := c.servers[id];
    var o := HandleFetchRequest(sv.node, req, draw);
    if |o.actions| == 1 && o.actions[0].ServeFetch? {
      NoSnapshot(sv, s.members[id]);
      ServeShape(sv.node, req, draw);
      s' := ServedRelated(c, s, id, req, o.actions[0], draw, batch, anchor);
    } else {
      s' := FetchIgnoredRelated(c, s, id, req, draw);
    }
  }

  lemma NoSnapshot(sv: Server, m: P.Member)
    requires Mirrors(sv, m)
    ensures sv.node.lastSnapshotMeta == None
  {
  }

  /** The server after answering: stamped, and with the claim recorded unless it diverges. */
  function Served(sv: Server, req: FetchRequest, diverges: bool, draw: nat): Server {
    var sv1 := sv.(node := StampFetch(sv.node, req.replicaId));
    if diverges || req.fetchOffset == 0 then sv1
    else StepServer(sv1, FetchRequestAcked(req.replicaId, req.fetchOffset - 1), draw)
  }

  lemma ServedRelated(c: Cluster, s: P.System, id: NodeId, req: FetchRequest, a: Action, draw: nat, batch: nat,
                      anchor: Option<DivergingEpoch>) returns (s': P.System)
    requires Related(c, s) && id in c.servers && ClaimOk(s, req) && a.ServeFetch?
    requires var n := c.servers[id].node;
      && n.role == Leader && req.leaderEpoch <= n.term && req.fetchOffset >= 1
      && a.leaderEpoch == n.term && a.highWatermark == n.commitIndex
      && a.fetchOffset == req.fetchOffset && a.lastFetchedEpoch == req.lastFetchedEpoch
    ensures var sv := c.servers[id];
      var r := AnswerFor(sv.log, a, batch, anchor);
      && Related(c.(servers := c.servers[id := Served(sv, req, r.divergingEpoch.Some?, draw)],
                    net := c.net + {Answer(req.replicaId, req, r, sv.log)}), s')
      && ProtocolHistory.Later(s, s')
  {
    hide P.Inv, Mirrors, ProtocolHistory.Later, StepServer, AnswerFor, AnswerOk;
    ReadyAt(c, s, id);
    var sv := c.servers[id];
    var r := AnswerFor(sv.log, a, batch, anchor);
    AnswerForOk(s, id, sv, req, a, batch, anchor);
    AnswerForShape(sv.log, a, batch, anchor);
    if r.divergingEpoch.Some? {
      StampSame(sv.node, req.replicaId);
      SameSim(s, id, sv, StampFetch(sv.node, req.replicaId));
      s' := s;
    } else {
      s' := ServeSim(s, id, sv, req, draw);
      AnswerStays(s, s', req, r, sv.log);
    }
    ServerRelated(c, s, s', id, Served(sv, req, r.divergingEpoch.Some?, draw), {Answer(req.replicaId, req, r, sv.log)});
  }

  // ------------------------------------------------------------------
  // Restart
  // ------------------------------------------------------------------

  lemma RestartMirrors(sv: Server, m: P.Member, commit: nat, draw: nat)
    requires Mirrors(sv, m) && commit <= sv.node.commitIndex
    ensures Mirrors(RestartServer(sv, commit, draw), m.(standing := P.Follower, votes := {}, commit := commit))
  {
  }

  lemma RestartSim(s: P.System, id: NodeId, sv: Server, commit: nat, draw: nat) returns (s': P.System)
    requires Ready(s, id, sv) && commit <= sv.node.commitIndex
    ensures Sim(s, s', id, sv, RestartServer(sv, commit, draw))
  {
    hide P.Inv, ProtocolHistory.Later, PeersOk, Distinct;
    ProtocolSteps.CrashInv(s, id, commit);
    s' := P.Crash(s, id, commit);
    RestartMirrors(sv, s.members[id], commit, draw);
  }

  lemma RestartRelated(c: Cluster, s: P.System, id: NodeId, commit: nat, draw: nat) returns (s': P.System)
    requires Related(c, s) && id in c.servers && commit <= c.servers[id].node.commitIndex
    ensures Related(c.(servers := c.servers[id := RestartServer(c.servers[id], commit, draw)]), s')
    ensures ProtocolHistory.Later(s, s')
  {
    hide P.Inv, PacketOk, ProtocolHistory.Later, Mirrors, RestartServer;
    ReadyAt(c, s, id);
    s' := RestartSim(s, id, c.servers[id], commit, draw);
    ServerRelated(c, s, s', id, RestartServer(c.servers[id], commit, draw), {});
    assert c.net + {} == c.net;
  }

  // ------------------------------------------------------------------
  // Any event
  // ------------------------------------------------------------------

  lemma LaterSame(s: P.System)
    ensures ProtocolHistory.Later(s, s)
  {
  }

  lemma NoiseRelated(c: Cluster, s: P.System, id: NodeId, input: Input, draw: nat) returns (s': P.System)
    requires Related(c, s) && id in c.servers && IsNoise(input)
    ensures Related(StepCluster(c, id, input, draw), s') && ProtocolHistory.Later(s, s')
  {
    hide Related, ProtocolHistory.Later, StepCluster, Step;
    match input {
      case PreVoteRequested(req) =>
        PreVoteRequestRelated(c, s, id, req, draw);
        LaterSame(s);
        s' := s;
      case PreVoteAnswered(voter, resp) => s' := PreVoteRelated(c, s, id, voter, resp, draw);
      case VoteAnswered(voter, resp) => s' := VoteRelated(c, s, id, voter, resp, draw);
      case FetchAnswered(resp) =>
        s' := AnswerRelated(c, s, id, FetchRequest("", 0, 0, 0, 0), resp, [], draw);
    }
  }

  lemma PacketKnown(c: Cluster, s: P.System, p: Packet)
    requires Related(c, s) && p in c.net
    ensures PacketOk(s, p)
  {
  }

  /** The cluster stays described by the protocol through every admissible event. */
  lemma HappenRelated(c: Cluster, e: Event, s: P.System) returns (s': P.System)
    requires Related(c, s) && Admissible(c, e)
    ensures Related(Happen(c, e), s') && ProtocolHistory.Later(s, s')
  {
    hide Related, ProtocolHistory.Later, StepCluster, ServeCluster, Answerable, AnswerOk, RestartServer,
      DropsAnswer;
    match e {
      case Tick(id, draw) => s' := TickRelated(c, s, id, draw);
      case Propose(id, command) => s' := ProposeRelated(c, s, id, command);
      case DeliverVoteRequest(p, draw) =>
        PacketKnown(c, s, p);
        s' := VoteRequestRelated(c, s, p.dst, p.message.voteRequest, draw);
      case DeliverVote(p, draw) =>
        PacketKnown(c, s, p);
        s' := VoteRelated(c, s, p.dst, p.src, p.message.voteResponse, draw);
      case DeliverFetch(p, draw, batch, anchor) =>
        PacketKnown(c, s, p);
        s' := ServeRelated(c, s, p.dst, p.message.fetchRequest, draw, batch, anchor);
      case DeliverAnswer(p, draw) =>
        PacketKnown(c, s, p);
        s' := AnswerRelated(c, s, p.dst, p.request, p.response, p.base, draw);
      case Noise(id, input, draw) => s' := NoiseRelated(c, s, id, input, draw);
      case Restart(id, commit, draw) => s' := RestartRelated(c, s, id, commit, draw);
    }
  }

  // ------------------------------------------------------------------
  // The start
  // ------------------------------------------------------------------

  /** The protocol state of a fresh cluster. */
  ghost function Genesis(servers: map<NodeId, Server>, voters: set<NodeId>): P.System {
    P.System(voters, map id | id in servers :: P.Member(0, None, P.Follower, {}, [], 0, map[]),
             map[], map[], map[], map[])
  }

  lemma GenesisInv(servers: map<NodeId, Server>, voters: set<NodeId>)
    requires voters <= servers.Keys
    ensures P.Inv(Genesis(servers, voters))
  {
  }

  lemma FreshMirrors(cfg: Config, draw: nat)
    ensures Mirrors(Server(NewNode(cfg, draw), [], []), P.Member(0, None, P.Follower, {}, [], 0, map[]))
  {
  }

  lemma InitialRelated(c: Cluster, clusterId: string, voters: seq<NodeId>)
    requires Initial(c, clusterId, voters)
    ensures Related(c, Genesis(c.servers, SetOf(voters)))
  {
    hide P.Inv, Mirrors;
    GenesisInv(c.servers, SetOf(voters));
    forall id | id in c.servers
      ensures Mirrors(c.servers[id], P.Member(0, None, P.Follower, {}, [], 0, map[]))
    {
      var draw: nat :| c.servers[id] == Server(NewNode(c.servers[id].node.cfg, draw), [], []);
      FreshMirrors(c.servers[id].node.cfg, draw);
    }
  }
}
