/** The commit rule: which index a leader may commit. */
module EngineQuorum {
  import opened Base
  import opened Quorums
  import opened OrderStatistics
  import opened Engine

  /** The peer map covers exactly the other voters and observers, with matching voter flags. */
  ghost predicate PeersOk(n: Node) {
    && n.cfg.id !in n.peers
    && (forall v :: v in VoterIds(n.cfg) && v != n.cfg.id ==> v in n.peers)
    && (forall p :: p in n.peers ==> (n.peers[p].isVoter <==> p in VoterIds(n.cfg)))
  }

  /** The log offset the leader attributes to voter `v`. */
  ghost function OffsetOf(n: Node, v: NodeId): nat {
    if v == n.cfg.id then n.lastLogIndex else if v in n.peers then n.peers[v].lastFetchOffset else 0
  }

  /** Voters recorded to hold index `k`. */
  ghost function Reaching(n: Node, k: int): set<NodeId> {
    set v | v in VoterIds(n.cfg) && OffsetOf(n, v) >= k
  }

  lemma {:induction false} OffsetsAreVoters(n: Node, voters: seq<NodeId>)
    requires PeersOk(n) && SetOf(voters) <= VoterIds(n.cfg)
    ensures |Offsets(n, voters)| == |voters|
    ensures forall i :: 0 <= i < |voters| ==> Offsets(n, voters)[i] == OffsetOf(n, voters[i])
  {
    if voters != [] {
      assert SetOf(voters[1..]) <= SetOf(voters);
      assert voters[0] in SetOf(voters);
      OffsetsAreVoters(n, voters[1..]);
    }
  }

  /** The q-th largest replicated offset, for a voter list without repetitions. */
  ghost function QuorumOffset(n: Node): nat
    requires n.cfg.voters.Some? && PeersOk(n) && Distinct(n.cfg.voters.value) && n.cfg.voters.value != []
  {
    OffsetsAreVoters(n, n.cfg.voters.value);
    DistinctSize(n.cfg.voters.value);
    Descending(Offsets(n, n.cfg.voters.value))[QuorumSize(VoterIds(n.cfg)) - 1]
  }

  /** A quorum is recorded to hold index `k` exactly when `k` is at most the quorum offset. */
  lemma QuorumOffsetIsExact(n: Node, k: int)
    requires n.cfg.voters.Some? && PeersOk(n) && Distinct(n.cfg.voters.value) && n.cfg.voters.value != []
    ensures k <= QuorumOffset(n) <==> |Reaching(n, k)| >= QuorumSize(VoterIds(n.cfg))
  {
    hide Descending, Offsets, Distinct, PeersOk, CountAtLeast;
    var voters := n.cfg.voters.value;
    OffsetsAreVoters(n, voters);
    DistinctSize(voters);
    QthLargest(Offsets(n, voters), QuorumSize(VoterIds(n.cfg)), k);
    ReachingCount(n, k);
  }

  lemma ReachingCount(n: Node, k: int)
    requires n.cfg.voters.Some? && PeersOk(n) && Distinct(n.cfg.voters.value)
    ensures |Reaching(n, k)| == CountAtLeast(Offsets(n, n.cfg.voters.value), k)
  {
    hide Offsets, Distinct, PeersOk, CountAtLeast;
    var voters := n.cfg.voters.value;
    var value := map v | v in SetOf(voters) :: OffsetOf(n, v);
    OffsetsAreVoters(n, voters);
    CountIsSize(voters, Offsets(n, voters), value, k);
    assert Reaching(n, k) == AtLeast(voters, value, k);
  }

  /** The setting in which the commit rule can act: a leader with a list of distinct voters and its no-op appended. */
  ghost predicate Committing(n: Node) {
    && n.role == Leader && n.leaderNoOpIndex.Some? && PeersOk(n)
    && n.cfg.voters.Some? && Distinct(n.cfg.voters.value) && n.cfg.voters.value != []
  }

  /**
    A quorum of distinct voters is recorded to hold index `k`, and `k` is past the commit index and
    not before the no-op.
   */
  ghost predicate Committable(n: Node, k: nat)
    requires n.leaderNoOpIndex.Some?
  {
    k > n.commitIndex && k >= n.leaderNoOpIndex.value && |Reaching(n, k)| >= QuorumSize(VoterIds(n.cfg))
  }

  /** The rule picks the greatest committable index, and picks none exactly when there is none. */
  lemma CommitRule(n: Node)
    requires Committing(n)
    ensures CommitCandidate(n).Some? <==> exists k: nat :: Committable(n, k)
    ensures CommitCandidate(n).Some? ==>
      var c := CommitCandidate(n).value;
      Committable(n, c) && forall k: nat :: Committable(n, k) ==> k <= c
  {
    var c := QuorumOffset(n);
    OffsetsAreVoters(n, n.cfg.voters.value);
    DistinctSize(n.cfg.voters.value);
    QuorumOffsetIsExact(n, c);
    forall k: nat | Committable(n, k) ensures k <= c {
      QuorumOffsetIsExact(n, k);
    }
    assert CommitCandidate(n).Some? ==> Committable(n, c);
  }

  lemma {:induction false} OffsetsSame(n: Node, m: Node, voters: seq<NodeId>)
    requires m.cfg == n.cfg && m.lastLogIndex == n.lastLogIndex
    requires forall v :: v in voters ==> (v in n.peers <==> v in m.peers)
    requires forall v :: v in voters && v in n.peers ==>
      n.peers[v].isVoter == m.peers[v].isVoter
      && (n.peers[v].isVoter ==> n.peers[v].lastFetchOffset == m.peers[v].lastFetchOffset)
    ensures Offsets(m, voters) == Offsets(n, voters)
  {
    if voters != [] {
      assert voters[0] in voters;
      OffsetsSame(n, m, voters[1..]);
    }
  }

  /** Running the rule again straight away changes nothing. */
  lemma CommitIdempotent(n: Node)
    requires CommitCandidate(n).Some?
    ensures CommitCandidate(AdvanceAndDrain(n).node).None?
  {
    OffsetsSame(n, AdvanceAndDrain(n).node, n.cfg.voters.value);
  }

  /** The acknowledgements of a replica that is no voter never move the commit index. */
  lemma ObserverAcksIgnored(n: Node, replica: NodeId, confirmed: nat)
    requires PeersOk(n) && replica !in VoterIds(n.cfg)
    ensures CommitCandidate(RecordProgress(n, replica, confirmed)) == CommitCandidate(n)
  {
    if n.cfg.voters.Some? {
      assert forall v :: v in n.cfg.voters.value ==> v in VoterIds(n.cfg);
      OffsetsSame(n, RecordProgress(n, replica, confirmed), n.cfg.voters.value);
    }
  }
}
