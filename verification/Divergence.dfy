/**
 Where two logs part: the leader's answer to a diverging follower names the end
 of the common prefix exactly when the leader has seen the follower's last epoch.
 */
module Divergence {
  import opened Base
  import opened Messages
  import opened Engine
  import opened Driver
  import opened Cluster
  import P = Protocol
  import ProtocolHistory
  import ProtocolSteps
  import opened Simulation
  import opened FetchSimulation
  import opened ClusterSimulation
  import opened ClusterSafety

  // ------------------------------------------------------------------
  // The epoch checkpoint
  // ------------------------------------------------------------------

  lemma {:induction false} EpochStartFinds(log: seq<Entry>, epoch: nat) returns (i: nat)
    requires HasEpoch(log, epoch)
    ensures i < |log| && log[i].term == epoch && EpochStart(log, epoch) == log[i].index
    ensures forall j :: 0 <= j < i ==> log[j].term != epoch
  {
    if log[0].term == epoch {
      i := 0;
    } else {
      var k :| 0 <= k < |log| && log[k].term == epoch;
      assert log[1..][k - 1] == log[k];
      var r := EpochStartFinds(log[1..], epoch);
      i := r + 1;
      assert log[i] == log[1..][r];
      forall j | 0 <= j < i ensures log[j].term != epoch {
        if j > 0 {
          assert log[j] == log[1..][j - 1];
        }
      }
    }
  }

  /** The next epoch is the least term in the log above the given one. */
  lemma {:induction false} EpochAfterFinds(log: seq<Entry>, epoch: nat)
    ensures var next := EpochAfter(log, epoch);
      && (next.None? ==> forall i :: 0 <= i < |log| ==> log[i].term <= epoch)
      && (next.Some? ==> HasEpoch(log, next.value) && next.value > epoch)
      && (next.Some? ==> forall i :: 0 <= i < |log| && log[i].term > epoch ==> log[i].term >= next.value)
  {
    if log != [] {
      EpochAfterFinds(log[1..], epoch);
      var rest, next := EpochAfter(log[1..], epoch), EpochAfter(log, epoch);
      if next.Some? && next == rest {
        var k :| 0 <= k < |log[1..]| && log[1..][k].term == next.value;
        assert log[k + 1].term == next.value;
      }
      forall i | 0 <= i < |log|
        ensures next.None? ==> log[i].term <= epoch
        ensures next.Some? && log[i].term > epoch ==> log[i].term >= next.value
      {
        if i > 0 {
          assert log[i] == log[1..][i - 1];
        }
      }
    }
  }

  /** In a log whose terms rise, the lookup gives the last index of the epoch. */
  lemma EpochEnd(log: seq<Entry>, epoch: nat) returns (x: nat)
    requires TermsRise(log) && Indexed(log) && HasEpoch(log, epoch)
    ensures EndOffsetForEpoch(log, epoch) == Some(x) && 1 <= x <= |log|
    ensures log[x - 1].term == epoch && (x < |log| ==> log[x].term > epoch)
  {
    EpochAfterFinds(log, epoch);
    var h :| 0 <= h < |log| && log[h].term == epoch;
    var next := EpochAfter(log, epoch);
    if next.None? {
      x := |log|;
      assert log[h].term <= log[x - 1].term;
    } else {
      var i := EpochStartFinds(log, next.value);
      assert log[i].index == i + 1;
      x := i;
      assert h < i;
      assert log[h].term <= log[i - 1].term <= log[i].term;
      assert log[i - 1].term <= epoch;
    }
  }

  // ------------------------------------------------------------------
  // The divergence point
  // ------------------------------------------------------------------

  lemma GroundedRises(s: P.System, log: seq<Entry>)
    requires P.Grounded(s, log) && P.ReignsOk(s) && P.BidsOk(s)
    ensures TermsRise(log)
  {
    hide P.Grounded, P.ReignsOk, P.BidsOk;
    forall i, j | 0 <= i < j < |log| ensures log[i].term <= log[j].term {
      P.GroundedPrefix(s, log, j + 1);
      ProtocolSteps.GroundedTerms(s, log[..j + 1], i);
    }
  }

  /** Two grounded logs with the same term at `k` and at `x` agree up to the smaller index. */
  lemma GroundedAgree(s: P.System, a: seq<Entry>, k: nat, b: seq<Entry>, x: nat)
    requires P.Grounded(s, a) && P.Grounded(s, b) && 1 <= k <= |a| && 1 <= x <= |b|
    requires a[k - 1].term == b[x - 1].term
    ensures Agree(a, b, Min(k, x))
  {
    var r := s.reigns[a[k - 1].term].log;
    assert Agree(a, r, k) && Agree(b, r, x);
    AgreeShorter(a, r, k, Min(k, x));
    AgreeShorter(b, r, x, Min(k, x));
  }

  lemma AgreeLast(log: seq<Entry>, base: seq<Entry>)
    requires log != [] && Agree(log, base, |log|)
    ensures !Diverges(base, |log|, LastTerm(log))
  {
    AgreeAt(log, base, |log|, |log| - 1);
  }

  /** The last index of the shared epoch is the longest common prefix. */
  lemma LongestAgree(log: seq<Entry>, base: seq<Entry>, x: nat)
    requires TermsRise(log) && log != [] && Agree(log, base, x) && 1 <= x < |log|
    requires x < |base| ==> base[x].term > LastTerm(log)
    ensures forall y: nat :: Agree(log, base, y) ==> y <= x
  {
    forall y: nat | Agree(log, base, y) ensures y <= x {
      if y > x {
        AgreeAt(log, base, y, x);
        assert false;
      }
    }
  }

  /** The epoch is known: the lookup is the longest common prefix, and fetching from there is accepted. */
  lemma KnownEpoch(s: P.System, log: seq<Entry>, base: seq<Entry>)
    requires P.Grounded(s, log) && P.Grounded(s, base) && P.ReignsOk(s) && P.BidsOk(s) && Indexed(base)
    requires Diverges(base, |log|, LastTerm(log)) && HasEpoch(base, LastTerm(log))
    ensures var d := Divergence(base, |log|, LastTerm(log));
      && NamesCommonPrefix(d, log, base) && Agree(log, base, d.endOffset)
      && !Diverges(base, d.endOffset, d.epoch) && d.endOffset < |log|
  {
    hide P.Grounded, P.ReignsOk, P.BidsOk, HasEpoch, EndOffsetForEpoch, Indexed, Agree;
    var k := |log|;
    GroundedRises(s, base);
    GroundedRises(s, log);
    var x := EpochEnd(base, LastTerm(log));
    GroundedAgree(s, log, k, base, x);
    assert x < k by {
      if x >= k {
        AgreeLast(log, base);
        assert false;
      }
    }
    AgreeAt(log, base, x, x - 1);
    LongestAgree(log, base, x);
  }

  /** The epoch is unknown: the answer names the leader's tip, which a follower it may serve never shares. */
  lemma UnknownEpoch(s: P.System, log: seq<Entry>, base: seq<Entry>)
    requires P.Grounded(s, log) && P.Grounded(s, base) && P.ReignsOk(s) && P.BidsOk(s)
    requires Diverges(base, |log|, LastTerm(log)) && !HasEpoch(base, LastTerm(log))
    requires |base| >= 1 && LastTerm(log) <= LastTerm(base)
    ensures var d := Divergence(base, |log|, LastTerm(log));
      !NamesCommonPrefix(d, log, base) && !Agree(log, base, d.endOffset) && !Diverges(base, d.endOffset, d.epoch)
  {
    hide P.Grounded, P.ReignsOk, P.BidsOk, HasEpoch;
    var k, d := |log|, Divergence(base, |log|, LastTerm(log));
    GroundedRises(s, base);
    assert d == DivergingEpoch(LastTerm(base), |base|);
    GroundedRises(s, log);
    AgreeTip(log, base);
  }

  lemma AgreeTip(log: seq<Entry>, base: seq<Entry>)
    requires base != [] && TermsRise(log)
    ensures Agree(log, base, |base|) ==>
      LastTerm(base) <= LastTerm(log) && (LastTerm(base) == LastTerm(log) ==> HasEpoch(base, LastTerm(log)))
  {
    if Agree(log, base, |base|) {
      AgreeAt(log, base, |base|, |base| - 1);
    }
  }

  // ------------------------------------------------------------------
  // Over runs
  // ------------------------------------------------------------------

  lemma Grounds(c: Cluster, s: P.System, id: NodeId)
    requires Related(c, s) && id in c.servers
    ensures P.Grounded(s, c.servers[id].log) && P.ReignsOk(s) && P.BidsOk(s) && Indexed(c.servers[id].log)
  {
    assert P.Grounded(s, s.members[id].log);
  }

  /**
   A leader answers a follower whose claimed tail it does not have. The divergence it
   reports is the end of the longest common prefix exactly when the follower's last
   epoch occurs in the leader's log. The fetch that follows is accepted either way, so
   without that epoch the leader records progress the follower's log does not have.
   */
  lemma DivergencePoint(states: seq<Cluster>, events: seq<Event>, clusterId: string, voters: seq<NodeId>,
                        i: nat, j: nat, l: NodeId, f: NodeId, t: nat)
    requires Run(states, events, clusterId, voters) && i <= j < |states|
    requires Leads(states[i], l, t) && f in states[j].servers
    requires var base, log := states[i].servers[l].log, states[j].servers[f].log;
      Diverges(base, |log|, LastTerm(log)) && LastTerm(log) <= t
    ensures var base, log := states[i].servers[l].log, states[j].servers[f].log;
      var d := Divergence(base, |log|, LastTerm(log));
      && (NamesCommonPrefix(d, log, base) <==> HasEpoch(base, LastTerm(log)))
      && (Agree(log, base, d.endOffset) <==> HasEpoch(base, LastTerm(log)))
      && (HasEpoch(base, LastTerm(log)) ==> d.endOffset < |log|)
      && !Diverges(base, d.endOffset, d.epoch)
  {
    hide Related, Run, ProtocolHistory.Later, P.Grounded, P.ReignsOk, P.BidsOk, NamesCommonPrefix, HasEpoch;
    var history := RunDescribed(states, events, clusterId, voters);
    var base, log := states[i].servers[l].log, states[j].servers[f].log;
    Grounds(states[i], history[i], l);
    Grounds(states[j], history[j], f);
    LaterGrows(history[i], history[j]);
    P.GroundedStays(history[i], history[j], base);
    LeaderTip(states[i], history[i], l, t);
    if HasEpoch(base, LastTerm(log)) {
      KnownEpoch(history[j], log, base);
    } else {
      UnknownEpoch(history[j], log, base);
    }
  }

  lemma LeaderTip(c: Cluster, s: P.System, id: NodeId, t: nat)
    requires Related(c, s) && Leads(c, id, t)
    ensures |c.servers[id].log| >= 1 && LastTerm(c.servers[id].log) == t
  {
    hide P.Inv;
    LeaderLog(s, id);
  }

  /** The log still ends where the fetch request said it does. */
  predicate TailUnmoved(log: seq<Entry>, req: FetchRequest) {
    |log| + 1 == req.fetchOffset && LastTerm(log) == req.lastFetchedEpoch
  }

  /** The follower takes over the entries or, if there are none, the commit index of the answer. */
  predicate Consumable(log: seq<Entry>, resp: FetchResponse) {
    resp.entries == [] || WellFormedBatch(resp.entries, |log| + 1)
  }

  /**
   What a follower could check if an answer carried its request and the term before its
   entries: a divergence is for the log as it still is and for an epoch the leader has seen;
   other answers match the log's last term. Answers the engine ignores need no check.
   */
  ghost predicate Checked(c: Cluster, e: Event) {
    Possible(c, e) &&
    (e.DeliverAnswer? && !DropsAnswer(c.servers[e.packet.dst].node, e.packet.response) ==>
       var log, p := c.servers[e.packet.dst].log, e.packet;
       if p.response.divergingEpoch.Some?
       then TailUnmoved(log, p.request) && HasEpoch(p.base, p.request.lastFetchedEpoch)
       else Consumable(log, p.response) ==> !Diverges(p.base, |log|, LastTerm(log)))
  }

  /** A log whose last entry the leader has is a prefix of the leader's, so any part of it agrees. */
  lemma MatchedIsAnswerable(s: P.System, log: seq<Entry>, resp: FetchResponse, base: seq<Entry>)
    requires P.Grounded(s, log) && P.Grounded(s, base) && resp.divergingEpoch.None?
    requires Consumable(log, resp) ==> !Diverges(base, |log|, LastTerm(log))
    ensures Answerable(log, resp, base)
  {
    hide P.Grounded, WellFormedBatch;
    if resp.entries == [] {
      if log != [] {
        GroundedAgree(s, log, |log|, base, |log|);
      }
      AgreeShorter(log, base, |log|, Min(resp.highWatermark, |log|));
    }
  }

  lemma CheckedRelated(c: Cluster, s: P.System, e: Event)
    requires Related(c, s) && Checked(c, e)
    ensures Admissible(c, e)
  {
    hide Related, NamesCommonPrefix, Divergence, HasEpoch, Diverges, Happen, P.Grounded, P.ReignsOk, P.BidsOk,
      WellFormedBatch;
    if e.DeliverAnswer? && !DropsAnswer(c.servers[e.packet.dst].node, e.packet.response) {
      var p, log := e.packet, c.servers[e.packet.dst].log;
      Grounds(c, s, p.dst);
      AnswerGrounds(c, s, p);
      if p.response.divergingEpoch.Some? {
        KnownEpoch(s, log, p.base);
      } else {
        MatchedIsAnswerable(s, log, p.response, p.base);
      }
    }
  }

  lemma ReignGrounded(s: P.System, t: nat)
    requires P.Inv(s) && t in s.reigns
    ensures P.Grounded(s, s.reigns[t].log)
  {
    assert P.GroundsOk(s);
  }

  /** In every run, the checks suffice: whatever passes them is admissible. */
  lemma CheckedIsAdmissible(states: seq<Cluster>, events: seq<Event>, clusterId: string, voters: seq<NodeId>, e: Event)
    requires Run(states, events, clusterId, voters) && Checked(states[|events|], e)
    ensures Admissible(states[|events|], e)
  {
    hide Related, Initial, Happen, Checked, Admissible;
    var history := RunDescribed(states, events, clusterId, voters);
    CheckedRelated(states[|events|], history[|events|], e);
  }

  /** In every run, an answer without divergence is admissible as long as the log has not moved since the request. */
  lemma UnmovedIsAdmissible(states: seq<Cluster>, events: seq<Event>, clusterId: string, voters: seq<NodeId>,
                            p: Packet, draw: nat)
    requires Run(states, events, clusterId, voters) && p.Answer? && Deliverable(states[|events|], p)
    requires p.response.divergingEpoch.None? && TailUnmoved(states[|events|].servers[p.dst].log, p.request)
    ensures Admissible(states[|events|], DeliverAnswer(p, draw))
  {
    hide Related, Initial, Happen, P.Grounded, Answerable, P.ReignsOk, P.BidsOk;
    var c := states[|events|];
    var history := RunDescribed(states, events, clusterId, voters);
    if p.response.isLeader {
      Grounds(c, history[|events|], p.dst);
      AnswerGrounds(c, history[|events|], p);
      MatchedIsAnswerable(history[|events|], c.servers[p.dst].log, p.response, p.base);
    }
  }

  /** Two prefixes of one reign agree as far as both go. */
  lemma SyncedIsAnswerable(s: P.System, log: seq<Entry>, req: FetchRequest, resp: FetchResponse, base: seq<Entry>)
    requires P.Grounded(s, log) && log != [] && LastTerm(log) == resp.leaderEpoch && resp.isLeader
    requires AnswerOk(s, req, resp, base) && resp.divergingEpoch.None?
    ensures Answerable(log, resp, base)
  {
    hide P.Grounded, P.Settled, AnswerOk, WellFormedBatch, Diverges, Agree, Indexed;
    AnswerFacts(s, req, resp, base);
    ProtocolSteps.GroundedTail(s, log);
    PrefixesAgree(log, base, s.reigns[resp.leaderEpoch].log);
    if resp.entries == [] {
      AgreeShorter(log, base, Min(|log|, |base|), Min(resp.highWatermark, |log|));
    } else if WellFormedBatch(resp.entries, |log| + 1) {
      BatchPlace(log, base, resp.entries, req.fetchOffset);
      AgreeLast(log, base);
    }
  }

  /** What an answer without divergence owes to the log it was taken from. */
  lemma AnswerFacts(s: P.System, req: FetchRequest, resp: FetchResponse, base: seq<Entry>)
    requires AnswerOk(s, req, resp, base) && resp.isLeader && resp.divergingEpoch.None?
    ensures resp.leaderEpoch in s.reigns && base <= s.reigns[resp.leaderEpoch].log && Indexed(base)
    ensures resp.highWatermark <= |base| && req.fetchOffset >= 1 && req.fetchOffset - 1 + |resp.entries| <= |base|
    ensures resp.entries == base[req.fetchOffset - 1..req.fetchOffset - 1 + |resp.entries|]
  {
    hide P.Settled;
    ProtocolSteps.SettledLength(s, resp.leaderEpoch, base, resp.highWatermark);
  }

  lemma PrefixesAgree(log: seq<Entry>, base: seq<Entry>, r: seq<Entry>)
    requires Agree(log, r, |log|) && base <= r
    ensures Agree(log, base, Min(|log|, |base|))
  {
    var j := Min(|log|, |base|);
    assert base == r[..|base|] && log == log[..|log|] == r[..|log|];
    assert r[..|log|][..j] == r[..j] == r[..|base|][..j];
  }

  /**
   In every run, a follower that has an entry of the leader's own term can take every answer
   of that leader that carries no divergence, however late or often it arrives.
   */
  lemma SyncedIsAdmissible(states: seq<Cluster>, events: seq<Event>, clusterId: string, voters: seq<NodeId>,
                           p: Packet, draw: nat)
    requires Run(states, events, clusterId, voters) && p.Answer? && Deliverable(states[|events|], p)
    requires var log := states[|events|].servers[p.dst].log;
      p.response.divergingEpoch.None? && log != [] && LastTerm(log) == p.response.leaderEpoch
    ensures Admissible(states[|events|], DeliverAnswer(p, draw))
  {
    hide Related, Initial, Happen, P.Grounded, Answerable, AnswerOk, P.ReignsOk, P.BidsOk;
    var c := states[|events|];
    var history := RunDescribed(states, events, clusterId, voters);
    if p.response.isLeader {
      Grounds(c, history[|events|], p.dst);
      AnswerGrounds(c, history[|events|], p);
      SyncedIsAnswerable(history[|events|], c.servers[p.dst].log, p.request, p.response, p.base);
    }
  }

  // ------------------------------------------------------------------
  // Answers that outlive the request they answer
  // ------------------------------------------------------------------

  /**
   A non-diverging answer whose entries continue the follower's log by index, consumed
   while the log may have moved on. Appending them gives a prefix of the leader's log
   exactly when the leader's log has the follower's last entry, that is when the term
   before the batch matches.
   */
  lemma LateAnswer(states: seq<Cluster>, events: seq<Event>, clusterId: string, voters: seq<NodeId>, p: Packet)
    requires Run(states, events, clusterId, voters)
    requires p in states[|events|].net && p.Answer? && p.dst in states[|events|].servers
    requires p.response.isLeader && p.response.divergingEpoch.None?
    requires WellFormedBatch(p.response.entries, |states[|events|].servers[p.dst].log| + 1)
    ensures var log := states[|events|].servers[p.dst].log;
      log + p.response.entries <= p.base <==> !Diverges(p.base, |log|, LastTerm(log))
  {
    hide Related, Initial, Happen, Admissible;
    var history := RunDescribed(states, events, clusterId, voters);
    LateAppend(states[|events|], history[|events|], p);
  }

  /**
   A divergence that arrives at any later time. It names the end of the longest common prefix
   exactly when both logs have the named epoch there and do not go on with the same term.
   */
  lemma LateDivergence(states: seq<Cluster>, events: seq<Event>, clusterId: string, voters: seq<NodeId>, p: Packet)
    requires Run(states, events, clusterId, voters)
    requires p in states[|events|].net && p.Answer? && p.dst in states[|events|].servers
    requires p.response.isLeader && p.response.divergingEpoch.Some?
    ensures var log, d := states[|events|].servers[p.dst].log, p.response.divergingEpoch.value;
      NamesCommonPrefix(d, log, p.base) <==> PartsAt(d, log, p.base)
  {
    hide Related, Initial, Happen, Admissible, P.Grounded, P.ReignsOk, P.BidsOk;
    var c := states[|events|];
    var history := RunDescribed(states, events, clusterId, voters);
    Grounds(c, history[|events|], p.dst);
    AnswerGrounds(c, history[|events|], p);
    PartsExactly(history[|events|], p.response.divergingEpoch.value, c.servers[p.dst].log, p.base);
  }

  /** Both logs have the named epoch at the named index, and the next entries, if both exist, are of different terms. */
  predicate PartsAt(d: DivergingEpoch, log: seq<Entry>, base: seq<Entry>) {
    && d.endOffset <= |log| && d.endOffset <= |base|
    && TermAt(log, d.endOffset) == d.epoch == TermAt(base, d.endOffset)
    && (d.endOffset < |log| && d.endOffset < |base| ==> log[d.endOffset].term != base[d.endOffset].term)
  }

  /** Grounded logs agree up to `k` exactly when they have the same term there. */
  lemma AgreeIffTerm(s: P.System, log: seq<Entry>, base: seq<Entry>, k: nat)
    requires P.Grounded(s, log) && P.Grounded(s, base) && k <= |log| && k <= |base|
    ensures Agree(log, base, k) <==> TermAt(log, k) == TermAt(base, k)
  {
    hide P.Grounded;
    if k > 0 {
      if log[k - 1].term == base[k - 1].term {
        GroundedAgree(s, log, k, base, k);
      } else if Agree(log, base, k) {
        AgreeAt(log, base, k, k - 1);
      }
    }
  }

  lemma PartsExactly(s: P.System, d: DivergingEpoch, log: seq<Entry>, base: seq<Entry>)
    requires P.Grounded(s, log) && P.Grounded(s, base)
    ensures NamesCommonPrefix(d, log, base) <==> PartsAt(d, log, base)
  {
    hide P.Grounded, Agree;
    var x := d.endOffset;
    AgreeFits(log, base);
    if x <= |log| && x <= |base| {
      AgreeIffTerm(s, log, base, x);
      if x < |log| && x < |base| {
        AgreeIffTerm(s, log, base, x + 1);
        forall y: nat | Agree(log, base, y) && y > x ensures Agree(log, base, x + 1) {
          AgreeShorter(log, base, y, x + 1);
        }
      }
    }
  }

  lemma AgreeFits(log: seq<Entry>, base: seq<Entry>)
    ensures forall y: nat :: Agree(log, base, y) ==> y <= |log| && y <= |base|
  {
  }

  lemma AnswerGrounds(c: Cluster, s: P.System, p: Packet)
    requires Related(c, s) && p in c.net && p.Answer? && p.response.isLeader
    ensures AnswerOk(s, p.request, p.response, p.base) && P.Grounded(s, p.base) && Indexed(p.base)
  {
    hide P.Inv, Mirrors, P.Grounded, Diverges, Divergence, HasEpoch;
    assert PacketOk(s, p);
    var r := s.reigns[p.response.leaderEpoch].log;
    ReignGrounded(s, p.response.leaderEpoch);
    P.GroundedPrefix(s, r, |p.base|);
    assert r[..|p.base|] == p.base;
  }

  lemma LateAppend(c: Cluster, s: P.System, p: Packet)
    requires Related(c, s) && p in c.net && p.Answer? && p.dst in c.servers
    requires p.response.isLeader && p.response.divergingEpoch.None?
    requires WellFormedBatch(p.response.entries, |c.servers[p.dst].log| + 1)
    ensures var log := c.servers[p.dst].log;
      log + p.response.entries <= p.base <==> !Diverges(p.base, |log|, LastTerm(log))
  {
    hide Related, P.Grounded, P.Settled, P.ReignsOk, P.BidsOk, WellFormedBatch, Diverges, Agree;
    var log, base, entries := c.servers[p.dst].log, p.base, p.response.entries;
    Grounds(c, s, p.dst);
    AnswerGrounds(c, s, p);
    BatchPlace(log, base, entries, p.request.fetchOffset);
    TailMatches(s, log, base);
    BatchExtends(log, base, entries);
  }

  /** A batch that continues the log by index was taken from the leader's log right there. */
  lemma BatchPlace(log: seq<Entry>, base: seq<Entry>, entries: seq<Entry>, offset: nat)
    requires WellFormedBatch(entries, |log| + 1) && Indexed(base) && 1 <= offset && offset - 1 + |entries| <= |base|
    requires entries == base[offset - 1..offset - 1 + |entries|]
    ensures entries != [] && |log| + |entries| <= |base| && entries == base[|log|..|log| + |entries|]
  {
    assert entries[0] == base[offset - 1];
  }

  lemma TailMatches(s: P.System, log: seq<Entry>, base: seq<Entry>)
    requires P.Grounded(s, log) && P.Grounded(s, base) && |log| <= |base|
    ensures Agree(log, base, |log|) <==> !Diverges(base, |log|, LastTerm(log))
  {
    hide P.Grounded;
    if log != [] {
      if !Diverges(base, |log|, LastTerm(log)) {
        GroundedAgree(s, log, |log|, base, |log|);
      } else if Agree(log, base, |log|) {
        AgreeLast(log, base);
      }
    }
  }

  lemma BatchExtends(log: seq<Entry>, base: seq<Entry>, entries: seq<Entry>)
    requires |log| + |entries| <= |base| && entries == base[|log|..|log| + |entries|]
    ensures log + entries <= base <==> Agree(log, base, |log|)
  {
    var j := |log| + |entries|;
    assert base[..j] == base[..|log|] + entries;
    assert log[..|log|] == log;
    assert log + entries <= base <==> log + entries == base[..j];
    assert (log + entries)[..|log|] == log && (base[..|log|] + entries)[..|log|] == base[..|log|];
  }
}
