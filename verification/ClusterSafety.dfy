/**
 Safety of every run of the cluster with admissible answers: log matching, leader
 completeness and state machine safety, across all nodes and all moments.
 */
module ClusterSafety {
  import opened Base
  import opened Quorums
  import opened Engine
  import opened Cluster
  import P = Protocol
  import ProtocolHistory
  import ProtocolSafety
  import ProtocolSteps
  import opened Simulation
  import opened ClusterSimulation

  /** A run: a fresh cluster and the states after each of a sequence of admissible events. */
  ghost predicate Run(states: seq<Cluster>, events: seq<Event>, clusterId: string, voters: seq<NodeId>) {
    && |states| == |events| + 1 && Initial(states[0], clusterId, voters)
    && forall i ::
         0 <= i < |events|
         ==> Admissible(states[i], events[i]) && states[i + 1] == Happen(states[i], events[i])
  }

  /** The run is described, moment by moment, by a growing protocol history. */
  ghost predicate Described(states: seq<Cluster>, history: seq<P.System>) {
    && |history| == |states|
    && (forall i :: 0 <= i < |states| ==> Related(states[i], history[i]))
    && (forall i, j :: 0 <= i <= j < |states| ==> ProtocolHistory.Later(history[i], history[j]))
  }

  lemma {:induction false} RunDescribed(states: seq<Cluster>, events: seq<Event>, clusterId: string,
                                        voters: seq<NodeId>)
    returns (history: seq<P.System>)
    requires Run(states, events, clusterId, voters)
    ensures Described(states, history)
    decreases |events|
  {
    hide Related, ProtocolHistory.Later, Happen, Admissible, Initial;
    if events == [] {
      InitialRelated(states[0], clusterId, voters);
      history := [Genesis(states[0].servers, SetOf(voters))];
      LaterSame(history[0]);
    } else {
      var n := |events| - 1;
      var shorter := states[..n + 1];
      history := RunDescribed(shorter, events[..n], clusterId, voters);
      var last := HappenRelated(states[n], events[n], history[n]);
      forall i | 0 <= i <= n ensures ProtocolHistory.Later(history[i], last) {
        ProtocolHistory.LaterTransitive(history[i], history[n], last);
      }
      LaterSame(last);
      history := history + [last];
    }
  }

  lemma LeaderOfReign(c: Cluster, s: P.System, id: NodeId, t: nat)
    requires Related(c, s) && Leads(c, id, t)
    ensures t in s.reigns && s.reigns[t].leader == id && s.reigns[t].log == c.servers[id].log
  {
    hide P.Inv;
    LeaderFacts(s, id);
  }

  // ------------------------------------------------------------------
  // Log matching
  // ------------------------------------------------------------------

  lemma ServerGrounded(c: Cluster, s: P.System, id: NodeId)
    requires Related(c, s) && id in c.servers
    ensures P.Grounded(s, c.servers[id].log) && c.servers[id].log == s.members[id].log
    ensures P.Settled(s, c.servers[id].node.term, c.servers[id].log, c.servers[id].node.commitIndex)
  {
    assert P.Grounded(s, s.members[id].log);
  }

  /** The same term at the same index, on any two nodes at any two moments, means the same log up to there. */
  lemma LogMatching(states: seq<Cluster>, events: seq<Event>, clusterId: string, voters: seq<NodeId>,
                    i: nat, j: nat, a: NodeId, b: NodeId, k: nat)
    requires Run(states, events, clusterId, voters) && i <= j < |states|
    requires a in states[i].servers && b in states[j].servers
    requires 1 <= k <= |states[i].servers[a].log| && k <= |states[j].servers[b].log|
    requires states[i].servers[a].log[k - 1].term == states[j].servers[b].log[k - 1].term
    ensures Agree(states[i].servers[a].log, states[j].servers[b].log, k)
  {
    hide Related, Run, ProtocolHistory.Later;
    var history := RunDescribed(states, events, clusterId, voters);
    var x, y := states[i].servers[a].log, states[j].servers[b].log;
    ServerGrounded(states[i], history[i], a);
    ServerGrounded(states[j], history[j], b);
    LaterGrows(history[i], history[j]);
    P.GroundedStays(history[i], history[j], x);
    var t := x[k - 1].term;
    assert Agree(x, history[j].reigns[t].log, k) && Agree(y, history[j].reigns[t].log, k);
  }

  lemma LaterGrows(s: P.System, s': P.System)
    requires ProtocolHistory.Later(s, s')
    ensures P.ReignsGrow(s, s')
  {
  }

  // ------------------------------------------------------------------
  // Leader completeness and state machine safety
  // ------------------------------------------------------------------

  lemma SettledLater(states: seq<Cluster>, history: seq<P.System>, i: nat, j: nat, a: NodeId)
    requires Described(states, history) && i <= j < |states| && a in states[i].servers
    ensures var sv := states[i].servers[a];
      P.Settled(history[j], sv.node.term, sv.log, sv.node.commitIndex) && sv.node.commitIndex <= |sv.log|
  {
    hide Related, ProtocolHistory.Later;
    var sv := states[i].servers[a];
    ServerGrounded(states[i], history[i], a);
    ProtocolSafety.SettledStays(history[i], history[j], sv.node.term, sv.node.term, sv.log, sv.node.commitIndex);
    ProtocolSteps.SettledLength(history[j], sv.node.term, sv.log, sv.node.commitIndex);
  }

  lemma KeepsReigns(c: Cluster, s: P.System)
    requires Related(c, s)
    ensures P.ReignsKeep(s)
  {
  }

  /** Whatever a node has committed in some term is in the log of every leader of that or a later term from then on. */
  lemma LeaderCompleteness(states: seq<Cluster>, events: seq<Event>, clusterId: string, voters: seq<NodeId>,
                           i: nat, j: nat, a: NodeId, l: NodeId, t: nat)
    requires Run(states, events, clusterId, voters) && i <= j < |states|
    requires a in states[i].servers && Leads(states[j], l, t) && t >= states[i].servers[a].node.term
    ensures Agree(states[i].servers[a].log, states[j].servers[l].log, states[i].servers[a].node.commitIndex)
  {
    hide Related, Run, ProtocolHistory.Later, P.ReignsKeep;
    var history := RunDescribed(states, events, clusterId, voters);
    var sv := states[i].servers[a];
    SettledLater(states, history, i, j, a);
    LeaderOfReign(states[j], history[j], l, t);
    LaterSame(history[j]);
    ProtocolSafety.SettledStays(history[j], history[j], sv.node.term, t, sv.log, sv.node.commitIndex);
    KeepsReigns(states[j], history[j]);
    ProtocolSafety.SettledInReign(history[j], t, sv.log, sv.node.commitIndex);
  }

  /** Two settled prefixes never disagree. */
  lemma SettledAgreeing(s: P.System, t: nat, x: seq<Entry>, c: nat, u: nat, y: seq<Entry>, d: nat)
    requires P.ReignsKeep(s) && P.Settled(s, t, x, c) && P.Settled(s, u, y, d) && c <= d
    ensures Agree(x, y, c)
  {
    hide Quorums.Majority, P.Holders, P.Keepers;
    if c > 0 {
      var t1: nat, k1: nat :| t1 <= t && P.Covers(s, t1, k1, x, c);
      var t2: nat, k2: nat :| t2 <= u && P.Covers(s, t2, k2, y, d);
      var r1, r2 := s.reigns[t1].log, s.reigns[t2].log;
      ProtocolSafety.ChosenOpen(s, t1, k1);
      ProtocolSafety.ChosenOpen(s, t2, k2);
      AgreeShorter(y, r2, d, c);
      if t1 < t2 {
        AgreeShorter(r2, r1, k1, c);
      } else if t2 < t1 {
        AgreeShorter(r1, r2, k2, c);
      }
    }
  }

  lemma CommittedAgree(states: seq<Cluster>, events: seq<Event>, clusterId: string, voters: seq<NodeId>,
                       i: nat, j: nat, a: NodeId, b: NodeId)
    requires Run(states, events, clusterId, voters) && i < |states| && j < |states|
    requires a in states[i].servers && b in states[j].servers
    requires states[i].servers[a].node.commitIndex <= states[j].servers[b].node.commitIndex
    ensures Agree(states[i].servers[a].log, states[j].servers[b].log, states[i].servers[a].node.commitIndex)
  {
    hide Related, Run, ProtocolHistory.Later, P.ReignsKeep, P.Settled;
    var history := RunDescribed(states, events, clusterId, voters);
    var m := if i <= j then j else i;
    var x, y := states[i].servers[a], states[j].servers[b];
    SettledLater(states, history, i, m, a);
    SettledLater(states, history, j, m, b);
    KeepsReigns(states[m], history[m]);
    SettledAgreeing(history[m], x.node.term, x.log, x.node.commitIndex, y.node.term, y.log, y.node.commitIndex);
  }

  lemma AppliedPrefix(c: Cluster, s: P.System, id: NodeId)
    requires Related(c, s) && id in c.servers
    ensures var sv := c.servers[id];
      sv.node.lastApplied <= sv.node.commitIndex <= |sv.log| && sv.applied == sv.log[..sv.node.lastApplied]
  {
  }

  /** No two nodes, at any two moments, have applied different entries at one index. */
  lemma StateMachineSafety(states: seq<Cluster>, events: seq<Event>, clusterId: string, voters: seq<NodeId>,
                           i: nat, j: nat, a: NodeId, b: NodeId, k: nat)
    requires Run(states, events, clusterId, voters) && i < |states| && j < |states|
    requires a in states[i].servers && b in states[j].servers
    requires k < |states[i].servers[a].applied| && k < |states[j].servers[b].applied|
    ensures states[i].servers[a].applied[k] == states[j].servers[b].applied[k]
  {
    hide Related, Run;
    var history := RunDescribed(states, events, clusterId, voters);
    var x, y := states[i].servers[a], states[j].servers[b];
    AppliedPrefix(states[i], history[i], a);
    AppliedPrefix(states[j], history[j], b);
    if x.node.commitIndex <= y.node.commitIndex {
      CommittedAgree(states, events, clusterId, voters, i, j, a, b);
      AgreeAt(x.log, y.log, x.node.commitIndex, k);
    } else {
      CommittedAgree(states, events, clusterId, voters, j, i, b, a);
      AgreeAt(y.log, x.log, y.node.commitIndex, k);
    }
  }
}
