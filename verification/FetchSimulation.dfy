/** Serving and consuming fetch answers is matched by protocol steps. */
module FetchSimulation {
  import opened Base
  import opened Messages
  import opened OrderStatistics
  import opened Engine
  import opened EngineQuorum
  import opened Driver
  import opened Cluster
  import P = Protocol
  import ProtocolHistory
  import opened ProtocolSafety
  import opened ProtocolSteps
  import opened Simulation

  /** What an authoritative answer promises: it was taken from the log of the leader of its epoch. */
  ghost predicate AnswerOk(s: P.System, req: FetchRequest, resp: FetchResponse, base: seq<Entry>) {
    resp.isLeader ==>
      && resp.leaderEpoch in s.reigns && base <= s.reigns[resp.leaderEpoch].log
      && |base| >= 1 && LastTerm(base) == resp.leaderEpoch && Indexed(base)
      && req.fetchOffset >= 1 && resp.snapshotRedirect == None
      && (resp.divergingEpoch.Some? ==>
            && req.lastFetchedEpoch < resp.leaderEpoch && Diverges(base, req.fetchOffset - 1, req.lastFetchedEpoch)
            && (HasEpoch(base, req.lastFetchedEpoch) ==>
                  resp.divergingEpoch.value == Divergence(base, req.fetchOffset - 1, req.lastFetchedEpoch)))
      && (resp.divergingEpoch.None? ==>
            && !Diverges(base, req.fetchOffset - 1, req.lastFetchedEpoch)
            && req.fetchOffset - 1 + |resp.entries| <= |base|
            && resp.entries == base[req.fetchOffset - 1..req.fetchOffset - 1 + |resp.entries|]
            && P.Settled(s, resp.leaderEpoch, base, resp.highWatermark))
  }

  lemma AnswerStays(s: P.System, s': P.System, req: FetchRequest, resp: FetchResponse, base: seq<Entry>)
    requires ProtocolHistory.Later(s, s') && AnswerOk(s, req, resp, base)
    ensures AnswerOk(s', req, resp, base)
  {
    if resp.isLeader {
      var r, r' := s.reigns[resp.leaderEpoch].log, s'.reigns[resp.leaderEpoch].log;
      assert base <= r <= r';
      if resp.divergingEpoch.None? {
        SettledStays(s, s', resp.leaderEpoch, resp.leaderEpoch, base, resp.highWatermark);
      }
    }
  }

  // ------------------------------------------------------------------
  // Serving
  // ------------------------------------------------------------------

  lemma LeaderLog(s: P.System, id: NodeId)
    requires P.Inv(s) && id in s.members && s.members[id].standing == P.Leader
    ensures var m := s.members[id];
      && m.term in s.reigns && s.reigns[m.term].log == m.log && |m.log| >= 1 && LastTerm(m.log) == m.term
      && P.Settled(s, m.term, m.log, m.commit)
  {
    assert P.LeaderOk(s, id);
    assert P.ReignOk(s, s.members[id].term);
  }

  /** The action of a served fetch. */
  lemma ServeShape(n: Node, req: FetchRequest, draw: nat)
    requires n.lastSnapshotMeta == None
    ensures var o := HandleFetchRequest(n, req, draw);
      |o.actions| == 1 && o.actions[0].ServeFetch? ==>
        && n.role == Leader && req.leaderEpoch <= n.term && req.fetchOffset >= 1
        && o.node == StampFetch(n, req.replicaId)
        && o.actions[0] == ServeFetch(req.replicaId, n.cfg.clusterId, n.term, n.cfg.id, n.commitIndex,
                                      req.fetchOffset, req.lastFetchedEpoch)
  {
  }

  lemma GetRangeSlice(log: seq<Entry>, from: nat, batch: nat)
    requires 1 <= from <= |log| + 1
    ensures var es := GetRange(log, from, batch);
      from - 1 + |es| <= |log| && es == log[from - 1..from - 1 + |es|]
  {
  }

  /** A request that claims an entry of the leader's own term is never told that it diverges. */
  lemma OwnClaimMatches(s: P.System, log: seq<Entry>, req: FetchRequest, t: nat)
    requires ClaimOk(s, req) && t in s.reigns && s.reigns[t].log == log && req.leaderEpoch <= t
    requires req.fetchOffset >= 1 && Diverges(log, req.fetchOffset - 1, req.lastFetchedEpoch)
    ensures req.lastFetchedEpoch < t
  {
  }

  lemma AnswerForShape(log: seq<Entry>, a: Action, batch: nat, anchor: Option<DivergingEpoch>)
    requires a.ServeFetch? && a.fetchOffset >= 1
    ensures var r := AnswerFor(log, a, batch, anchor);
      var d := Diverges(log, a.fetchOffset - 1, a.lastFetchedEpoch);
      && r.isLeader && r.leaderEpoch == a.leaderEpoch && r.highWatermark == a.highWatermark
      && r.snapshotRedirect == None && (r.divergingEpoch.Some? <==> d)
      && (!d ==> r.entries == GetRange(log, a.fetchOffset, batch))
      && (d && HasEpoch(log, a.lastFetchedEpoch) ==>
            r.divergingEpoch.value == Divergence(log, a.fetchOffset - 1, a.lastFetchedEpoch))
  {
  }

  lemma AnswerForOk(s: P.System, id: NodeId, sv: Server, req: FetchRequest, a: Action, batch: nat,
                    anchor: Option<DivergingEpoch>)
    requires Ready(s, id, sv) && sv.node.role == Leader && ClaimOk(s, req)
    requires req.leaderEpoch <= sv.node.term && req.fetchOffset >= 1
    requires a.ServeFetch? && a.leaderEpoch == sv.node.term && a.highWatermark == sv.node.commitIndex
    requires a.fetchOffset == req.fetchOffset && a.lastFetchedEpoch == req.lastFetchedEpoch
    ensures AnswerOk(s, req, AnswerFor(sv.log, a, batch, anchor), sv.log)
  {
    hide P.Inv, AnswerFor, PeersOk, Distinct, Divergence, HasEpoch;
    LeaderLog(s, id);
    AnswerForShape(sv.log, a, batch, anchor);
    if Diverges(sv.log, req.fetchOffset - 1, req.lastFetchedEpoch) {
      OwnClaimMatches(s, sv.log, req, sv.node.term);
    } else {
      GetRangeSlice(sv.log, req.fetchOffset, batch);
    }
  }

  lemma StepAcked(sv: Server, replica: NodeId, k: nat, draw: nat)
    ensures var o := HandleFetchRequestAcked(sv.node, replica, k);
      StepServer(sv, FetchRequestAcked(replica, k), draw) == Execute(sv.(node := o.node), o.actions)
  {
  }

  /** Serving without divergence: the stamped server records the claim as an acknowledgement. */
  lemma ServeSim(s: P.System, id: NodeId, sv: Server, req: FetchRequest, draw: nat) returns (s': P.System)
    requires Ready(s, id, sv) && sv.node.role == Leader && ClaimOk(s, req)
    requires req.leaderEpoch <= sv.node.term && req.fetchOffset >= 1
    requires !Diverges(sv.log, req.fetchOffset - 1, req.lastFetchedEpoch)
    ensures var sv1 := sv.(node := StampFetch(sv.node, req.replicaId));
      Sim(s, s', id, sv, StepServer(sv1, FetchRequestAcked(req.replicaId, req.fetchOffset - 1), draw))
  {
    hide P.Inv, ProtocolHistory.Later, Mirrors, Distinct, StepServer, HandleFetchRequestAcked;
    var n1, k := StampFetch(sv.node, req.replicaId), req.fetchOffset - 1;
    var sv1 := sv.(node := n1);
    StampSame(sv.node, req.replicaId);
    SameSim(s, id, sv, n1);
    s' := AckedSim(s, id, sv1, req.replicaId, k);
    StepAcked(sv1, req.replicaId, k, draw);
    SimTransitive(s, s, s', id, sv, sv1, StepServer(sv1, FetchRequestAcked(req.replicaId, k), draw));
  }

  // ------------------------------------------------------------------
  // Consuming
  // ------------------------------------------------------------------

  /** A follower whose tail is in the leader's log has a prefix of that log. */
  lemma TailAgrees(s: P.System, log: seq<Entry>, base: seq<Entry>, t: nat)
    requires P.Grounded(s, log) && t in s.reigns && P.Grounded(s, s.reigns[t].log) && base <= s.reigns[t].log
    requires !Diverges(base, |log|, LastTerm(log))
    ensures Agree(log, s.reigns[t].log, |log|)
  {
    var k, r := |log|, s.reigns[t].log;
    if k > 0 {
      var e := LastTerm(log);
      assert log[k - 1].term == e && base[k - 1] == r[k - 1] && r[k - 1].term == e;
      assert Agree(log, s.reigns[e].log, k);
      assert Agree(r, s.reigns[e].log, k);
    }
  }

  ghost predicate Following(n: Node) {
    n.role == Follower || n.role == Observer
  }

  /** The common context of consumption: a follower in the answer's term, for which the answer is safe. */
  ghost predicate Consumes(s: P.System, id: NodeId, sv: Server, req: FetchRequest, resp: FetchResponse,
                           base: seq<Entry>) {
    && Ready(s, id, sv) && Following(sv.node) && sv.node.term == resp.leaderEpoch
    && resp.isLeader && AnswerOk(s, req, resp, base) && Answerable(sv.log, resp, base)
  }

  lemma ConsumerFacts(s: P.System, id: NodeId, sv: Server, req: FetchRequest, resp: FetchResponse, base: seq<Entry>)
    requires Consumes(s, id, sv, req, resp, base)
    ensures P.Follows(s, id) && P.Grounded(s, sv.log) && P.Grounded(s, s.reigns[sv.node.term].log)
    ensures P.TermsBelow(sv.log, sv.node.term + 1)
    ensures base <= s.reigns[sv.node.term].log
  {
    var m := s.members[id];
    assert P.Grounded(s, m.log);
    assert P.Grounded(s, s.reigns[m.term].log);
  }

  /** The server after a fetched batch is appended and mirrored. */
  function Appended(sv: Server, entries: seq<Entry>): Server
    requires |entries| >= 1
  {
    var last := entries[|entries| - 1];
    Server(sv.node.(lastLogIndex := last.index, lastLogTerm := last.term), sv.log + entries, sv.applied)
  }

  /** The server's log is a prefix of its term's reign. */
  ghost predicate InReign(s: P.System, sv: Server) {
    sv.node.term in s.reigns && Agree(sv.log, s.reigns[sv.node.term].log, |sv.log|)
  }

  lemma ExtendMirrors(sv: Server, m: P.Member, entries: seq<Entry>)
    requires Mirrors(sv, m) && Following(sv.node) && |entries| >= 1
    requires Indexed(sv.log + entries)
    ensures Mirrors(Appended(sv, entries), m.(log := m.log + entries))
  {
    var log := sv.log + entries;
    assert log[..sv.node.lastApplied] == sv.log[..sv.node.lastApplied];
    assert log[|log| - 1] == entries[|entries| - 1];
  }

  /** The appended entries make the log a longer prefix of the leader's. */
  lemma ExtendedLog(log: seq<Entry>, r: seq<Entry>, base: seq<Entry>, entries: seq<Entry>)
    requires base <= r && Indexed(base) && Agree(log, r, |log|) && |log| + |entries| <= |base|
    requires entries == base[|log|..|log| + |entries|]
    ensures log + entries == r[..|log| + |entries|] && Indexed(log + entries)
  {
    var j := |log| + |entries|;
    assert base[..j] == r[..j];
    assert log == base[..|log|] by {
      assert r[..|log|] == base[..|log|];
    }
    assert base[..|log|] + base[|log|..j] == base[..j];
    assert log + entries == base[..j];
  }

  lemma ExtendSim(s: P.System, id: NodeId, sv: Server, j: nat, entries: seq<Entry>) returns (s': P.System)
    requires Ready(s, id, sv) && P.Follows(s, id) && InReign(s, sv) && Following(sv.node)
    requires |entries| >= 1 && j == |sv.log| + |entries| <= |s.reigns[sv.node.term].log|
    requires sv.log + entries == s.reigns[sv.node.term].log[..j] && Indexed(sv.log + entries)
    ensures Sim(s, s', id, sv, Appended(sv, entries)) && InReign(s', Appended(sv, entries)) && s'.reigns == s.reigns
  {
    hide P.Inv, ProtocolHistory.Later, PeersOk, Distinct;
    ExtendInv(s, id, j);
    s' := P.Extend(s, id, j);
    ExtendMirrors(sv, s.members[id], entries);
  }

  /** Adopting the announced commit index. */
  lemma LearnSim(s: P.System, id: NodeId, sv: Server, hw: nat, base: seq<Entry>) returns (s': P.System)
    requires Ready(s, id, sv) && Following(sv.node) && sv.node.term in s.reigns
    requires base <= s.reigns[sv.node.term].log && P.Settled(s, sv.node.term, base, hw)
    requires Agree(sv.log, base, Min(hw, |sv.log|))
    ensures var o := LearnCommit(sv.node, hw);
      Sim(s, s', id, sv, Execute(sv.(node := o.node), o.actions)) && forall a :: a in o.actions ==> !a.SendMessage?
  {
    hide P.Inv, ProtocolHistory.Later, PeersOk, Distinct;
    var c, r := Min(hw, sv.node.lastLogIndex), s.reigns[sv.node.term].log;
    if c > sv.node.commitIndex {
      SettledLength(s, sv.node.term, base, hw);
      SettledShorter(s, sv.node.term, base, hw, c);
      assert Agree(r, base, c) by {
        assert base == r[..|base|];
        assert r[..c] == base[..c];
      }
      SettledAgree(s, sv.node.term, base, r, c);
      assert Agree(sv.log, r, c);
      LearnInv(s, id, c);
      s' := P.Learn(s, id, c);
      DrainMirrors(sv, s.members[id], c);
      DrainSilent(sv.node.(commitIndex := c));
    } else {
      SimReflexive(s, id, sv);
      s' := s;
    }
  }

  // ------------------------------------------------------------------
  // Divergence
  // ------------------------------------------------------------------

  /** The server after its log suffix is dropped and mirrored. */
  function Truncated(sv: Server, j: nat): Server
    requires j <= |sv.log|
  {
    sv.(log := sv.log[..j], node := SetLastLog(sv.node, j, LastTerm(sv.log[..j])))
  }

  lemma TruncatePerforms(sv: Server, j: nat)
    requires j <= |sv.log|
    ensures Perform(sv, TruncateLog(SuffixFromInclusive(j + 1))) == Truncated(sv, j)
  {
    if j == |sv.log| {
      assert sv.log[..j] == sv.log;
    }
  }

  /** Nothing past the leader's log at answering time can be shared with its reign. */
  lemma CommonPrefixOfReign(s: P.System, log: seq<Entry>, base: seq<Entry>, t: nat, d: DivergingEpoch, k: nat)
    requires t in s.reigns && base <= s.reigns[t].log && |base| >= 1 && LastTerm(base) == t
    requires P.ReignsOk(s) && P.BidsOk(s)
    requires P.TermsBelow(log, t) && NamesCommonPrefix(d, log, base)
    requires Agree(log, s.reigns[t].log, k)
    ensures k <= d.endOffset
  {
    var r, i := s.reigns[t].log, |base| - 1;
    assert r[i] == base[i];
    SharesOnlyOlder(log, r, k, t, i);
    assert base == r[..|base|];
    assert base[..k] == r[..k];
    assert Agree(log, base, k);
  }

  /** A log of older entries shares nothing from the first entry of term `t` on. */
  lemma SharesOnlyOlder(log: seq<Entry>, r: seq<Entry>, k: nat, t: nat, i: nat)
    requires P.TermsBelow(log, t) && Agree(log, r, k) && i < |r| && r[i].term >= t
    ensures k <= i
  {
    if i < k {
      AgreeAt(log, r, k, i);
    }
  }

  lemma TruncatePossible(s: P.System, id: NodeId, sv: Server, req: FetchRequest, resp: FetchResponse, base: seq<Entry>)
    requires Consumes(s, id, sv, req, resp, base) && resp.divergingEpoch.Some?
    ensures P.CanTruncate(s, id, resp.divergingEpoch.value.endOffset)
  {
    var t, d := sv.node.term, resp.divergingEpoch.value;
    ConsumerFacts(s, id, sv, req, resp, base);
    if d.endOffset < |sv.log| {
      forall i | 0 <= i < |sv.log| ensures sv.log[i].term < t {
        GroundedTerms(s, sv.log, i);
      }
      forall k: nat | Agree(sv.log, s.reigns[t].log, k) ensures k <= d.endOffset {
        CommonPrefixOfReign(s, sv.log, base, t, d, k);
      }
    }
  }

  lemma TruncateMirrors(sv: Server, m: P.Member, j: nat)
    requires Mirrors(sv, m) && Following(sv.node) && sv.node.commitIndex <= j <= |sv.log|
    ensures Mirrors(Truncated(sv, j), m.(log := m.log[..j]))
  {
    assert sv.log[..j][..sv.node.lastApplied] == sv.log[..sv.node.lastApplied];
  }

  lemma CommitFits(s: P.System, id: NodeId)
    requires P.Inv(s) && id in s.members
    ensures s.members[id].commit <= |s.members[id].log|
  {
    SettledLength(s, s.members[id].term, s.members[id].log, s.members[id].commit);
  }

  lemma TruncateSim(s: P.System, id: NodeId, sv: Server, j: nat) returns (s': P.System)
    requires Ready(s, id, sv) && Following(sv.node) && P.CanTruncate(s, id, j) && j <= |sv.log|
    ensures Sim(s, s', id, sv, Truncated(sv, j))
  {
    hide P.Inv, ProtocolHistory.Later, PeersOk, Distinct;
    TruncateInv(s, id, j);
    s' := P.Truncate(s, id, j);
    CommitFits(s', id);
    TruncateMirrors(sv, s.members[id], j);
  }

  /** Dropping the divergent suffix and fetching again from the common prefix. */
  lemma DivergeSim(s: P.System, id: NodeId, sv: Server, req: FetchRequest, resp: FetchResponse, base: seq<Entry>)
    returns (s': P.System)
    requires Consumes(s, id, sv, req, resp, base) && resp.divergingEpoch.Some?
    ensures var o := ConsumeAnswer(sv.node, resp);
      Sim(s, s', id, sv, Execute(sv.(node := o.node), o.actions)) && ActionsOk(s', id, o.actions)
  {
    hide P.Inv, ProtocolHistory.Later, Mirrors, AnswerOk, Answerable, Distinct;
    var d, o := resp.divergingEpoch.value, ConsumeAnswer(sv.node, resp);
    DivergeShape(s, id, sv, req, resp, base);
    var n1 := sv.node.(lastFetchTick := Some(sv.node.logicalTick));
    var sv1 := sv.(node := n1);
    SameSim(s, id, sv, n1);
    TruncatePossible(s, id, sv, req, resp, base);
    var s1 := TruncateSim(s, id, sv1, d.endOffset);
    var sv2 := Truncated(sv1, d.endOffset);
    SimTransitive(s, s, s1, id, sv, sv1, sv2);
    s' := ClaimSim(s1, id, sv2, Refetch(n1, d));
    SimTransitive(s, s1, s', id, sv, sv2, sv2);
  }

  lemma DivergeShape(s: P.System, id: NodeId, sv: Server, req: FetchRequest, resp: FetchResponse, base: seq<Entry>)
    requires Consumes(s, id, sv, req, resp, base) && resp.divergingEpoch.Some?
    ensures var d, o := resp.divergingEpoch.value, ConsumeAnswer(sv.node, resp);
      var n1 := sv.node.(lastFetchTick := Some(sv.node.logicalTick));
      && d.endOffset <= |sv.log| && d.epoch == TermAt(sv.log[..d.endOffset], d.endOffset)
      && Execute(sv.(node := o.node), o.actions) == Truncated(sv.(node := n1), d.endOffset)
      && forall a :: a in o.actions && a.SendMessage? ==> a.message == FetchReq(Refetch(n1, d))
  {
    hide P.Inv;
    var d, o := resp.divergingEpoch.value, ConsumeAnswer(sv.node, resp);
    var n1 := sv.node.(lastFetchTick := Some(sv.node.logicalTick));
    TruncatePerforms(sv.(node := n1), d.endOffset);
    ExecuteTwo(sv.(node := n1), TruncateLog(SuffixFromInclusive(d.endOffset + 1)),
               SendMessage(resp.leaderId, FetchReq(Refetch(sv.node, d))));
  }

  // ------------------------------------------------------------------
  // Entries
  // ------------------------------------------------------------------

  lemma ConsumerInReign(s: P.System, id: NodeId, sv: Server, req: FetchRequest, resp: FetchResponse, base: seq<Entry>)
    requires Consumes(s, id, sv, req, resp, base) && resp.divergingEpoch.None?
    requires WellFormedBatch(resp.entries, |sv.log| + 1)
    ensures InReign(s, sv) && P.Follows(s, id) && base <= s.reigns[sv.node.term].log
    ensures P.Settled(s, sv.node.term, base, resp.highWatermark)
    ensures var j := |sv.log| + |resp.entries|;
      && j <= |s.reigns[sv.node.term].log|
      && sv.log + resp.entries == s.reigns[sv.node.term].log[..j] && Indexed(sv.log + resp.entries)
      && Agree(sv.log + resp.entries, base, j)
  {
    hide P.Inv;
    ConsumerFacts(s, id, sv, req, resp, base);
    TailAgrees(s, sv.log, base, sv.node.term);
    assert resp.entries[0] == base[req.fetchOffset - 1];
    ExtendedLog(sv.log, s.reigns[sv.node.term].log, base, resp.entries);
  }

  lemma EntriesExecute(sv: Server, n': Node, entries: seq<Entry>, rest: seq<Action>)
    ensures Execute(sv.(node := n'), [AppendEntries(entries)] + rest)
         == Execute(Server(n', sv.log + entries, sv.applied), rest)
  {
    assert ([AppendEntries(entries)] + rest)[1..] == rest;
  }

  lemma TailMirrored(s: P.System, id: NodeId, sv: Server)
    requires Ready(s, id, sv)
    ensures sv.node.lastLogIndex == |sv.log|
  {
  }

  /** Consuming an answer that does not diverge. */
  lemma EntriesSim(s: P.System, id: NodeId, sv: Server, req: FetchRequest, resp: FetchResponse, base: seq<Entry>)
    returns (s': P.System)
    requires Consumes(s, id, sv, req, resp, base) && resp.divergingEpoch.None?
    ensures var o := ConsumeAnswer(sv.node, resp);
      Sim(s, s', id, sv, Execute(sv.(node := o.node), o.actions)) && ActionsOk(s', id, o.actions)
  {
    hide P.Inv, ProtocolHistory.Later, Mirrors, Distinct, LearnCommit, WellFormedBatch, Indexed;
    assert resp.snapshotRedirect == None;
    TailMirrored(s, id, sv);
    if resp.entries == [] {
      ConsumerFacts(s, id, sv, req, resp, base);
      s' := LearnSim(s, id, sv, resp.highWatermark, base);
    } else if !WellFormedBatch(resp.entries, |sv.log| + 1) {
      SimReflexive(s, id, sv);
      s' := s;
    } else {
      ConsumerInReign(s, id, sv, req, resp, base);
      var j := |sv.log| + |resp.entries|;
      var s1 := ExtendSim(s, id, sv, j, resp.entries);
      var sv1 := Appended(sv, resp.entries);
      ReignSettled(s, s1, sv.node.term, base, resp.highWatermark);
      AgreeShorter(sv1.log, base, j, Min(resp.highWatermark, j));
      s' := LearnSim(s1, id, sv1, resp.highWatermark, base);
      var o := LearnCommit(sv1.node, resp.highWatermark);
      EntriesExecute(sv, o.node, resp.entries, o.actions);
      SimTransitive(s, s1, s', id, sv, sv1, Execute(sv1.(node := o.node), o.actions));
    }
  }

  lemma ReignSettled(s: P.System, s': P.System, t: nat, base: seq<Entry>, c: nat)
    requires ProtocolHistory.Later(s, s') && P.Settled(s, t, base, c)
    ensures P.Settled(s', t, base, c)
  {
    SettledStays(s, s', t, t, base, c);
  }

  // ------------------------------------------------------------------
  // A whole answer
  // ------------------------------------------------------------------

  lemma RecogniseShape(n: Node, resp: FetchResponse, draw: nat)
    requires !DropsAnswer(n, resp)
    ensures var o := RecogniseLeader(n, resp, draw);
      && Following(o.node) && o.node.term == resp.leaderEpoch && o.node.cfg == n.cfg
      && (forall a :: a in o.actions ==> Harmless(a) && !a.SendMessage?)
      && (Following(n) && resp.leaderEpoch == n.term ==> SameCore(n, o.node))
      && (!(Following(n) && resp.leaderEpoch == n.term) ==>
            SameCore(BecomeFollower(n, resp.leaderEpoch, Some(resp.leaderId), draw).node, o.node))
  {
  }

  lemma RecogniseSim(s: P.System, id: NodeId, sv: Server, resp: FetchResponse, draw: nat) returns (s': P.System)
    requires Ready(s, id, sv) && !DropsAnswer(sv.node, resp)
    ensures Sim(s, s', id, sv, sv.(node := RecogniseLeader(sv.node, resp, draw).node))
  {
    hide P.Inv, ProtocolHistory.Later, Mirrors, Distinct, RecogniseLeader, SameCore;
    var n, o := sv.node, RecogniseLeader(sv.node, resp, draw);
    RecogniseShape(n, resp, draw);
    if Following(n) && resp.leaderEpoch == n.term {
      SameSim(s, id, sv, o.node);
      s' := s;
    } else {
      s' := FollowerSim(s, id, sv, resp.leaderEpoch, Some(resp.leaderId), draw);
      var sv1 := sv.(node := BecomeFollower(n, resp.leaderEpoch, Some(resp.leaderId), draw).node);
      SameSim(s', id, sv1, o.node);
      SimTransitive(s, s', s', id, sv, sv1, sv.(node := o.node));
    }
  }

  lemma FetchResponseSim(s: P.System, id: NodeId, sv: Server, req: FetchRequest, resp: FetchResponse, base: seq<Entry>,
                         draw: nat) returns (s': P.System)
    requires Ready(s, id, sv) && AnswerOk(s, req, resp, base)
    requires !DropsAnswer(sv.node, resp) ==> Answerable(sv.log, resp, base)
    ensures var o := HandleFetchResponse(sv.node, resp, draw);
      Sim(s, s', id, sv, Execute(sv.(node := o.node), o.actions)) && ActionsOk(s', id, o.actions)
  {
    hide P.Inv, ProtocolHistory.Later, Mirrors, Distinct, RecogniseLeader, ConsumeAnswer, AnswerOk, Answerable,
      SameCore;
    if DropsAnswer(sv.node, resp) {
      SimReflexive(s, id, sv);
      s' := s;
    } else {
      var a := RecogniseLeader(sv.node, resp, draw);
      RecogniseShape(sv.node, resp, draw);
      var s1 := RecogniseSim(s, id, sv, resp, draw);
      var sv1 := sv.(node := a.node);
      AnswerStays(s, s1, req, resp, base);
      if resp.divergingEpoch.Some? {
        s' := DivergeSim(s1, id, sv1, req, resp, base);
      } else {
        s' := EntriesSim(s1, id, sv1, req, resp, base);
      }
      AfterHarmless(s, s1, s', id, sv, sv1, a.actions, ConsumeAnswer(a.node, resp));
    }
  }
}
