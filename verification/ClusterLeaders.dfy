/**
 Leaderships in a cluster under no assumption about the answers it delivers: none
 is taken up twice by one node.
 */
module ClusterLeaders {
  import opened Base
  import opened Messages
  import opened Engine
  import opened EngineRuns
  import opened Driver
  import opened Cluster

  /** Executing actions changes nothing of the engine but its mirror of the log tail. */
  lemma {:induction false} ExecuteMirrors(sv: Server, actions: seq<Action>)
    ensures var n' := Execute(sv, actions).node;
      n' == SetLastLog(sv.node, n'.lastLogIndex, n'.lastLogTerm)
    decreases |actions|
  {
    if actions != [] {
      ExecuteMirrors(Perform(sv, actions[0]), actions[1..]);
    }
  }

  // ------------------------------------------------------------------
  // At most one leadership per node and term
  // ------------------------------------------------------------------

  /** A leadership goes on or is over for its term. */
  ghost predicate Led(n: Node, n': Node) {
    && (forall t: nat :: Past(n, t) ==> Past(n', t))
    && (n.role == Leader ==> (n'.role == Leader && n'.term == n.term) || Past(n', n.term))
  }

  lemma StepLed(sv: Server, input: Input, draw: nat)
    ensures Led(sv.node, StepServer(sv, input, draw).node)
  {
    hide Step;
    var o := Step(sv.node, input, draw);
    MoveOnward(sv.node, Feed(input, draw));
    ExecuteMirrors(sv.(node := o.node), o.actions);
  }

  lemma NodeStepLed(n: Node, input: Input, draw: nat)
    ensures Led(n, Step(n, input, draw).node)
  {
    hide Step;
    MoveOnward(n, Feed(input, draw));
  }

  lemma LedTransitive(n: Node, n': Node, n'': Node)
    requires Led(n, n') && Led(n', n'')
    ensures Led(n, n'')
  {
  }

  lemma ServeLed(c: Cluster, id: NodeId, req: FetchRequest, draw: nat, batch: nat, anchor: Option<DivergingEpoch>)
    requires id in c.servers
    ensures Led(c.servers[id].node, ServeCluster(c, id, req, draw, batch, anchor).servers[id].node)
  {
    hide Step, Led, AnswerFor, StepServer;
    var sv := c.servers[id];
    var sv1 := sv.(node := Step(sv.node, FetchRequested(req), draw).node);
    NodeStepLed(sv.node, FetchRequested(req), draw);
    StepLed(sv, FetchRequested(req), draw);
    if req.fetchOffset > 0 {
      StepLed(sv1, FetchRequestAcked(req.replicaId, req.fetchOffset - 1), draw);
      LedTransitive(sv.node, sv1.node,
                    StepServer(sv1, FetchRequestAcked(req.replicaId, req.fetchOffset - 1), draw).node);
    }
  }

  lemma HappenLed(c: Cluster, e: Event, id: NodeId)
    requires Possible(c, e) && id in c.servers
    ensures id in Happen(c, e).servers && Led(c.servers[id].node, Happen(c, e).servers[id].node)
  {
    hide StepServer, ServeCluster;
    LedReflexive(c.servers[id].node);
    match e
    case Tick(i, draw) => StepLed(c.servers[i], Input.Tick, draw);
    case Propose(i, command) => StepLed(c.servers[i], ClientPropose(command), 0);
    case DeliverVoteRequest(p, draw) => StepLed(c.servers[p.dst], VoteRequested(p.message.voteRequest), draw);
    case DeliverVote(p, draw) => StepLed(c.servers[p.dst], VoteAnswered(p.src, p.message.voteResponse), draw);
    case DeliverFetch(p, draw, batch, anchor) =>
      ServeLed(c, p.dst, p.message.fetchRequest, draw, batch, anchor);
      ServeOthers(c, p.dst, p.message.fetchRequest, draw, batch, anchor, id);
    case DeliverAnswer(p, draw) => StepLed(c.servers[p.dst], FetchAnswered(p.response), draw);
    case Noise(i, input, draw) => StepLed(c.servers[i], input, draw);
    case Restart(i, commit, draw) =>
  }

  lemma LedReflexive(n: Node)
    ensures Led(n, n)
  {
  }

  lemma ServeOthers(c: Cluster, id: NodeId, req: FetchRequest, draw: nat, batch: nat, anchor: Option<DivergingEpoch>,
                    other: NodeId)
    requires id in c.servers && other in c.servers
    ensures other in ServeCluster(c, id, req, draw, batch, anchor).servers
    ensures other != id ==> ServeCluster(c, id, req, draw, batch, anchor).servers[other] == c.servers[other]
  {
    hide Step, StepServer, AnswerFor;
  }

  lemma {:induction false} RunLed(states: seq<Cluster>, events: seq<Event>, i: nat, j: nat, id: NodeId)
    requires AnyRun(states, events) && i <= j < |states| && id in states[i].servers
    ensures id in states[j].servers && Led(states[i].servers[id].node, states[j].servers[id].node)
    decreases j
  {
    hide Possible, Happen, Led;
    if i == j {
      LedReflexive(states[i].servers[id].node);
    } else {
      RunLed(states, events, i, j - 1, id);
      assert states[j - 1 + 1] == Happen(states[j - 1], events[j - 1]);
      HappenLed(states[j - 1], events[j - 1], id);
      LedTransitive(states[i].servers[id].node, states[j - 1].servers[id].node, states[j].servers[id].node);
    }
  }

  /** A node that led a term and no longer does never leads it again, restarts included. */
  lemma LeadsOnce(states: seq<Cluster>, events: seq<Event>, i: nat, j: nat, k: nat, id: NodeId, t: nat)
    requires AnyRun(states, events) && i <= j <= k < |states|
    requires Leads(states[i], id, t) && !Leads(states[j], id, t)
    ensures !Leads(states[k], id, t)
  {
    hide Possible, Happen;
    RunLed(states, events, i, j, id);
    RunLed(states, events, j, k, id);
  }
}
