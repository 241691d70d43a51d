/**
 A cluster of servers over a network that may lose, duplicate, delay and reorder
 packets: a packet, once sent, stays available for delivery for ever.
 */
module Cluster {
  import opened Base
  import opened Messages
  import opened OrderStatistics
  import opened Engine
  import opened Driver

  /** `Answer` keeps the request it answers and, for reference only, the log it was answered from. */
  datatype Packet =
    | Sent(src: NodeId, dst: NodeId, message: Message)
    | Answer(dst: NodeId, request: FetchRequest, response: FetchResponse, base: seq<Entry>)

  datatype Cluster = Cluster(servers: map<NodeId, Server>, net: set<Packet>)

  /**
   `Deliver*` hand a packet to its destination. `batch` bounds the entries of an answer.
   `anchor`, when given, replaces the divergence the driver reports for an epoch it has never seen.
   `Noise` is any input without bearing on safety: pre-vote traffic, denials, answers of non-leaders.
   */
  datatype Event =
    | Tick(id: NodeId, draw: nat)
    | Propose(id: NodeId, command: seq<bv8>)
    | DeliverVoteRequest(packet: Packet, draw: nat)
    | DeliverVote(packet: Packet, draw: nat)
    | DeliverFetch(packet: Packet, draw: nat, batch: nat, anchor: Option<DivergingEpoch>)
    | DeliverAnswer(packet: Packet, draw: nat)
    | Noise(id: NodeId, input: Input, draw: nat)
    | Restart(id: NodeId, commit: nat, draw: nat)

  predicate IsNoise(input: Input) {
    || input.PreVoteRequested? || input.PreVoteAnswered?
    || (input.VoteAnswered? && !input.voteResp.voteGranted)
    || (input.FetchAnswered? && !input.fetchResp.isLeader)
  }

  /** Packets the driver of `id` puts on the wire for these actions. */
  function Outbox(id: NodeId, actions: seq<Action>): set<Packet> {
    set a | a in actions && a.SendMessage? :: Sent(id, a.to, a.message)
  }

  /** One engine step with its actions executed. */
  function StepServer(sv: Server, input: Input, draw: nat): Server {
    var o := Step(sv.node, input, draw);
    Execute(sv.(node := o.node), o.actions)
  }

  function StepCluster(c: Cluster, id: NodeId, input: Input, draw: nat): Cluster
    requires id in c.servers
  {
    var sv := c.servers[id];
    c.(servers := c.servers[id := StepServer(sv, input, draw)],
       net := c.net + Outbox(id, Step(sv.node, input, draw).actions))
  }

  /** The answer put on the wire for a served fetch. */
  function AnswerFor(log: seq<Entry>, a: Action, batch: nat, anchor: Option<DivergingEpoch>): FetchResponse
    requires a.ServeFetch?
  {
    var r := MaterializeFetchResponse(log, a, batch);
    if r.divergingEpoch.Some? && anchor.Some? && !HasEpoch(log, a.lastFetchedEpoch)
    then r.(divergingEpoch := anchor) else r
  }

  /** Answer a fetch and, unless it diverges, feed the acknowledgement back into the engine. */
  function ServeCluster(c: Cluster, id: NodeId, req: FetchRequest, draw: nat, batch: nat,
                        anchor: Option<DivergingEpoch>): Cluster
    requires id in c.servers
  {
    var sv := c.servers[id];
    var o := Step(sv.node, FetchRequested(req), draw);
    if |o.actions| == 1 && o.actions[0].ServeFetch? then
      var r := AnswerFor(sv.log, o.actions[0], batch, anchor);
      var sv1 := sv.(node := o.node);
      c.(servers := c.servers[id := if r.divergingEpoch.Some? || req.fetchOffset == 0 then sv1
                                    else StepServer(sv1, FetchRequestAcked(req.replicaId, req.fetchOffset - 1), draw)],
         net := c.net + {Answer(req.replicaId, req, r, sv.log)})
    else StepCluster(c, id, FetchRequested(req), draw)
  }

  /** Restart from durable state: term, vote and log survive; the commit index is recovered up to `commit`. */
  function RestartServer(sv: Server, commit: nat, draw: nat): Server {
    var n := NewNode(sv.node.cfg, draw);
    Server(n.(term := sv.node.term, votedFor := sv.node.votedFor, commitIndex := commit,
              lastLogIndex := |sv.log|, lastLogTerm := LastTerm(sv.log)),
           sv.log, [])
  }

  predicate Deliverable(c: Cluster, p: Packet) {
    p in c.net && p.dst in c.servers
  }

  /** The event can happen at all. */
  predicate Possible(c: Cluster, e: Event) {
    match e
    case Tick(id, _) => id in c.servers
    case Propose(id, _) => id in c.servers
    case DeliverVoteRequest(p, _) => Deliverable(c, p) && p.Sent? && p.message.VoteReq?
    case DeliverVote(p, _) => Deliverable(c, p) && p.Sent? && p.message.VoteResp?
    case DeliverFetch(p, _, _, _) => Deliverable(c, p) && p.Sent? && p.message.FetchReq?
    case DeliverAnswer(p, _) => Deliverable(c, p) && p.Answer?
    case Noise(id, input, _) => id in c.servers && IsNoise(input)
    case Restart(id, commit, _) => id in c.servers && commit <= c.servers[id].node.commitIndex
  }

  function Happen(c: Cluster, e: Event): Cluster
    requires Possible(c, e)
  {
    match e
    case Tick(id, draw) => StepCluster(c, id, Input.Tick, draw)
    case Propose(id, command) => StepCluster(c, id, ClientPropose(command), 0)
    case DeliverVoteRequest(p, draw) => StepCluster(c, p.dst, VoteRequested(p.message.voteRequest), draw)
    case DeliverVote(p, draw) => StepCluster(c, p.dst, VoteAnswered(p.src, p.message.voteResponse), draw)
    case DeliverFetch(p, draw, batch, anchor) => ServeCluster(c, p.dst, p.message.fetchRequest, draw, batch, anchor)
    case DeliverAnswer(p, draw) => StepCluster(c, p.dst, FetchAnswered(p.response), draw)
    case Noise(id, input, draw) => StepCluster(c, id, input, draw)
    case Restart(id, commit, draw) => c.(servers := c.servers[id := RestartServer(c.servers[id], commit, draw)])
  }

  /** The divergence names the end of the longest common prefix of follower and leader logs. */
  ghost predicate NamesCommonPrefix(d: DivergingEpoch, log: seq<Entry>, base: seq<Entry>) {
    && Agree(log, base, d.endOffset) && TermAt(log, d.endOffset) == d.epoch
    && forall k: nat :: Agree(log, base, k) ==> k <= d.endOffset
  }

  /**
   What makes an answer safe for a follower whose log is `log`. A divergence: it names the
   real common prefix, and if that drops anything the log has no entry of the answer's term
   yet. No entries:
   what it announces as committed is the follower's own. Entries that continue the log: the
   leader's log has the follower's last entry. Other entries are dropped by the engine.
   */
  ghost predicate Answerable(log: seq<Entry>, resp: FetchResponse, base: seq<Entry>) {
    if resp.divergingEpoch.Some?
    then
      && NamesCommonPrefix(resp.divergingEpoch.value, log, base)
      && (LastTerm(log) < resp.leaderEpoch || resp.divergingEpoch.value.endOffset == |log|)
    else if resp.entries == [] then Agree(log, base, Min(resp.highWatermark, |log|))
    else WellFormedBatch(resp.entries, |log| + 1) ==> !Diverges(base, |log|, LastTerm(log))
  }

  /** The assumption under which the cluster is safe, on the one event it concerns: an answer that is not ignored. */
  ghost predicate Admissible(c: Cluster, e: Event) {
    Possible(c, e) &&
    (e.DeliverAnswer? && !DropsAnswer(c.servers[e.packet.dst].node, e.packet.response) ==>
       Answerable(c.servers[e.packet.dst].log, e.packet.response, e.packet.base))
  }

  /** All servers share one cluster id and one voter list without repetitions, and every voter is a server. */
  ghost predicate Configured(servers: map<NodeId, Server>, clusterId: string, voters: seq<NodeId>) {
    && Distinct(voters) && voters != [] && SetOf(voters) <= servers.Keys
    && forall id :: id in servers ==>
         && servers[id].node.cfg.id == id && servers[id].node.cfg.clusterId == clusterId
         && servers[id].node.cfg.voters == Some(voters)
  }

  ghost predicate Initial(c: Cluster, clusterId: string, voters: seq<NodeId>) {
    && Configured(c.servers, clusterId, voters) && c.net == {}
    && forall id :: id in c.servers ==>
         exists draw :: c.servers[id] == Server(NewNode(c.servers[id].node.cfg, draw), [], [])
  }

  /** Node `id` leads term `t`. */
  ghost predicate Leads(c: Cluster, id: NodeId, t: nat) {
    id in c.servers && c.servers[id].node.role == Leader && c.servers[id].node.term == t
  }

  /** A run under the engines' and the network's own rules alone, from any state. */
  ghost predicate AnyRun(states: seq<Cluster>, events: seq<Event>) {
    |states| == |events| + 1
    && forall i :: 0 <= i < |events| ==> Possible(states[i], events[i]) && states[i + 1] == Happen(states[i], events[i])
  }
}
