/**
 The high watermark under a pending membership change, and the ways a voters
 record takes effect. A voter is represented by its id.
 */
module Membership {
  import opened Base
  import opened Quorums
  import opened OrderStatistics

  datatype FollowerProgress = FollowerProgress(fetchOffset: nat, isVoter: bool)

  /** A voters record appended at `offset` but not yet committed. */
  datatype Pending = Pending(offset: nat, voters: seq<NodeId>, promoted: NodeId)

  datatype State = State(
    nodeId: NodeId, voters: seq<NodeId>, pending: Option<Pending>, followers: map<NodeId, FollowerProgress>,
    observers: set<NodeId>, endpoints: map<NodeId, string>)

  // ------------------------------------------------------------------
  // The high watermark
  // ------------------------------------------------------------------

  /** How far `v` has replicated, as the leader knows it. */
  function ReplicatedTo(s: State, v: NodeId, end: nat): nat {
    if v == s.nodeId then end else if v in s.followers then s.followers[v].fetchOffset else 0
  }

  function OffsetsOf(s: State, voters: seq<NodeId>, end: nat): seq<nat> {
    seq(|voters|, i requires 0 <= i < |voters| => ReplicatedTo(s, voters[i], end))
  }

  /** Sort descending and take the entry in the middle. */
  function MajorityOffset(s: State, voters: seq<NodeId>, end: nat): nat {
    if voters == [] then 0 else Descending(OffsetsOf(s, voters, end))[|voters| / 2]
  }

  /** The voters whose majority decides about `offset`. */
  function EffectiveVoters(s: State, offset: nat): seq<NodeId> {
    if s.pending.Some? && offset >= s.pending.value.offset then s.pending.value.voters else s.voters
  }

  function HighWatermark(s: State, end: nat): nat {
    var committed := MajorityOffset(s, s.voters, end);
    if s.pending.None? || committed < s.pending.value.offset then committed
    else
      var advanced := MajorityOffset(s, s.pending.value.voters, end);
      if advanced > s.pending.value.offset then advanced else s.pending.value.offset
  }

  /** A strict majority of `voters` is past `x`. */
  ghost predicate PassedBy(s: State, voters: seq<NodeId>, end: nat, x: nat) {
    2 * CountAtLeast(OffsetsOf(s, voters, end), x + 1) > |voters|
  }

  /** A strict majority of the voters that decide about `x` is past it. */
  ghost predicate Passed(s: State, end: nat, x: nat) {
    PassedBy(s, EffectiveVoters(s, x), end, x)
  }

  lemma MajorityOffsetIsExact(s: State, voters: seq<NodeId>, end: nat, x: nat)
    ensures x < MajorityOffset(s, voters, end) <==> PassedBy(s, voters, end, x)
  {
    if voters != [] {
      QthLargest(OffsetsOf(s, voters, end), |voters| / 2 + 1, x + 1);
    }
  }

  /** Every offset below the watermark is passed, and the one at it is not. */
  lemma WatermarkAt(s: State, end: nat, x: nat)
    ensures x < HighWatermark(s, end) ==> Passed(s, end, x)
    ensures x == HighWatermark(s, end) ==> !Passed(s, end, x)
  {
    MajorityOffsetIsExact(s, EffectiveVoters(s, x), end, x);
  }

  /** The watermark is the greatest `h` such that every offset below `h` is passed. */
  lemma WatermarkIsExact(s: State, end: nat, h: nat)
    ensures h <= HighWatermark(s, end) <==> forall x: nat :: x < h ==> Passed(s, end, x)
  {
    forall x: nat | x < HighWatermark(s, end) ensures Passed(s, end, x) {
      WatermarkAt(s, end, x);
    }
    WatermarkAt(s, end, HighWatermark(s, end));
  }

  /** The listed voters that are past `x`. */
  ghost function Ahead(s: State, voters: seq<NodeId>, end: nat, x: nat): set<NodeId> {
    set v | v in voters && ReplicatedTo(s, v, end) > x
  }

  /** For voters without repetitions, passing is having a majority of them as a set. */
  lemma PassedIsMajority(s: State, voters: seq<NodeId>, end: nat, x: nat)
    requires Distinct(voters)
    ensures PassedBy(s, voters, end, x) <==> Majority(Ahead(s, voters, end, x), SetOf(voters))
  {
    var value := map v | v in SetOf(voters) :: ReplicatedTo(s, v, end);
    var ahead := Ahead(s, voters, end, x);
    CountIsSize(voters, OffsetsOf(s, voters, end), value, x + 1);
    DistinctSize(voters);
    assert AtLeast(voters, value, x + 1) == ahead == ahead * SetOf(voters);
  }

  // ------------------------------------------------------------------
  // The watermark never falls
  // ------------------------------------------------------------------

  /** The same membership, with every known offset at least as far. */
  ghost predicate Progresses(s: State, end: nat, s': State, end': nat) {
    && s'.nodeId == s.nodeId && s'.voters == s.voters && s'.pending == s.pending && end <= end'
    && forall v: NodeId :: ReplicatedTo(s, v, end) <= ReplicatedTo(s', v, end')
  }

  lemma PassedStays(s: State, end: nat, s': State, end': nat, voters: seq<NodeId>, x: nat)
    requires forall v: NodeId :: ReplicatedTo(s, v, end) <= ReplicatedTo(s', v, end')
    requires PassedBy(s, voters, end, x)
    ensures PassedBy(s', voters, end', x)
  {
    CountPointwise(OffsetsOf(s, voters, end), OffsetsOf(s', voters, end'), x + 1);
  }

  /** Growing fetch offsets and a growing log never lower the watermark. */
  lemma WatermarkNeverFalls(s: State, end: nat, s': State, end': nat)
    requires Progresses(s, end, s', end')
    ensures HighWatermark(s, end) <= HighWatermark(s', end')
  {
    forall x: nat | x < HighWatermark(s, end) ensures Passed(s', end', x) {
      WatermarkAt(s, end, x);
      PassedStays(s, end, s', end', EffectiveVoters(s, x), x);
    }
    WatermarkIsExact(s', end', HighWatermark(s, end));
  }

  /** No follower is known to be past the leader's log. */
  ghost predicate FetchesWithin(s: State, end: nat) {
    forall v :: v in s.followers ==> s.followers[v].fetchOffset <= end
  }

  lemma WatermarkWithin(s: State, end: nat)
    requires FetchesWithin(s, end) && s.pending.None?
    ensures HighWatermark(s, end) <= end
  {
    var h := HighWatermark(s, end);
    if h > end {
      WatermarkAt(s, end, end);
      CountBound(OffsetsOf(s, s.voters, end), end + 1);
    }
  }

  /**
   Appending a voters record at the log end, whatever voters it names, keeps the watermark
   from falling exactly when it was within the log or the new voters are as far.
   */
  lemma AppendFalls(s: State, end: nat, pending: Pending)
    requires s.pending.None? && pending.offset == end
    ensures var s', h := s.(pending := Some(pending)), HighWatermark(s, end);
      h <= HighWatermark(s', end + 1) <==> h <= end || h <= MajorityOffset(s, pending.voters, end + 1)
  {
    var s', end', h := s.(pending := Some(pending)), end + 1, HighWatermark(s, end);
    assert OffsetsOf(s', pending.voters, end') == OffsetsOf(s, pending.voters, end');
    forall x: nat | x < h && x < end ensures Passed(s', end', x) {
      WatermarkAt(s, end, x);
      PassedStays(s, end, s', end', s.voters, x);
    }
    WatermarkIsExact(s', end', if h < end then h else end);
    if h > end {
      assert HighWatermark(s', end') >= end;
      WatermarkAt(s, end, end);
      PassedStays(s, end, s', end', s.voters, end);
      MajorityOffsetIsExact(s', s.voters, end', end);
    }
  }

  /** A concrete fall: two followers are recorded past the leader's log when a fourth voter is proposed. */
  lemma WatermarkFalls()
    ensures var ahead := FollowerProgress(9, true);
      var s := State(1, [1, 2, 3], None, map[2 := ahead, 3 := ahead], {4}, map[]);
      var pending := Pending(5, [1, 2, 3, 4], 4);
      HighWatermark(s, 5) == 9 && HighWatermark(s.(pending := Some(pending)), 6) == 6
  {
    var ahead := FollowerProgress(9, true);
    var s := State(1, [1, 2, 3], None, map[2 := ahead, 3 := ahead], {4}, map[]);
    var s' := s.(pending := Some(Pending(5, [1, 2, 3, 4], 4)));
    assert OffsetsOf(s, [1, 2, 3], 5) == [5, 9, 9];
    assert OffsetsOf(s', [1, 2, 3], 6) == [6, 9, 9];
    assert OffsetsOf(s', [1, 2, 3, 4], 6) == [6, 9, 9, 0];
    SortedNines(5);
    SortedNines(6);
  }

  lemma SortedNines(x: nat)
    requires x < 9
    ensures Descending([x, 9, 9]) == [9, 9, x] && Descending([x, 9, 9, 0]) == [9, 9, x, 0]
  {
    assert [9, 0][1..] == [0] && [0][1..] == [];
    assert Descending([0]) == [0] && Descending([9, 0]) == [9, 0];
    assert [9, 9, 0][1..] == [9, 0] && [x, 9, 9, 0][1..] == [9, 9, 0];
    assert Descending([9, 9, 0]) == [9, 9, 0];
    assert Insert(x, [0]) == [x, 0];
    assert [9, 9][1..] == [9] && [9][1..] == [] && [x, 9, 9][1..] == [9, 9];
    assert Descending([9]) == [9] && Descending([9, 9]) == [9, 9];
    assert Insert(x, [9]) == [9] + Insert(x, []);
    assert Insert(x, [9, 0]) == [9] + Insert(x, [0]);
  }

  /** While no follower is past the leader's log, it never falls. */
  lemma AppendNeverFalls(s: State, end: nat, pending: Pending)
    requires s.pending.None? && FetchesWithin(s, end) && pending.offset == end
    ensures HighWatermark(s, end) <= HighWatermark(s.(pending := Some(pending)), end + 1)
  {
    WatermarkWithin(s, end);
    AppendFalls(s, end, pending);
  }

  /** Committing the record once the watermark is past it leaves the watermark where it is. */
  lemma CommitKeepsWatermark(s: State, end: nat)
    requires s.pending.Some? && HighWatermark(s, end) > s.pending.value.offset
    ensures HighWatermark(Committed(s), end) == HighWatermark(s, end)
  {
    var s' := Committed(s);
    forall v: NodeId ensures ReplicatedTo(s', v, end) == ReplicatedTo(s, v, end) {
    }
    assert OffsetsOf(s', s'.voters, end) == OffsetsOf(s, s.pending.value.voters, end);
  }

  // ------------------------------------------------------------------
  // Quorum intersection
  // ------------------------------------------------------------------

  /** The pending set is the committed set plus the promoted node; neither lists a voter twice. */
  ghost predicate Promotes(s: State) {
    && s.pending.Some? && Distinct(s.voters) && Distinct(s.pending.value.voters)
    && SetOf(s.pending.value.voters) == SetOf(s.voters) + {s.pending.value.promoted}
  }

  /** Majorities of a set and of the set with one more voter share a voter. */
  lemma NeighboursMeet(a: set<NodeId>, voters: set<NodeId>, b: set<NodeId>, extra: NodeId) returns (v: NodeId)
    requires Majority(a, voters) && Majority(b, voters + {extra})
    ensures v in a && v in b && v in voters
  {
    var x, y := a * voters, b * (voters + {extra});
    assert |voters + {extra}| <= |voters| + 1;
    if x * y == {} {
      assert |x + y| == |x| + |y|;
      SubsetSize(x + y, voters + {extra});
      assert false;
    }
    v :| v in x * y;
  }

  /** Whoever wins a majority of the committed set meets a voter past the record, once the watermark is past it. */
  lemma MajorityMeetsRecord(s: State, end: nat, majority: set<NodeId>) returns (v: NodeId)
    requires Promotes(s) && HighWatermark(s, end) > s.pending.value.offset && Majority(majority, SetOf(s.voters))
    ensures v in majority && v in s.voters && ReplicatedTo(s, v, end) > s.pending.value.offset
  {
    var p := s.pending.value;
    WatermarkAt(s, end, p.offset);
    PassedIsMajority(s, p.voters, end, p.offset);
    v := NeighboursMeet(majority, SetOf(s.voters), Ahead(s, p.voters, end, p.offset), p.promoted);
  }

  // ------------------------------------------------------------------
  // Taking effect
  // ------------------------------------------------------------------

  function MarkVoter(followers: map<NodeId, FollowerProgress>, v: NodeId, isVoter: bool): map<NodeId,
                     FollowerProgress> {
    if v in followers then followers[v := followers[v].(isVoter := isVoter)] else followers
  }

  /** The leader's way: replace the voter set by the pending one and mark the promoted node. */
  function Committed(s: State): State {
    if s.pending.None? then s
    else
      var p := s.pending.value;
      s.(voters := p.voters, pending := None, followers := MarkVoter(s.followers, p.promoted, true),
         endpoints := s.endpoints - {p.promoted})
  }

  /** Flags of tracked replicas after the set of voters changes from `before` to `after`. */
  function Remarked(followers: map<NodeId, FollowerProgress>, before: set<NodeId>, after: set<NodeId>): map<NodeId,
                    FollowerProgress> {
    map v | v in followers ::
      followers[v].(isVoter := if v in after - before then true
                               else if v in before - after then false else followers[v].isVoter)
  }

  /** What a committed voters record does on any node: a leader commits its pending change, others adopt the record. */
  function Applied(s: State, record: seq<NodeId>): State {
    if s.pending.Some? then Committed(s)
    else
      var added := SetOf(record) - SetOf(s.voters);
      s.(voters := record, followers := Remarked(s.followers, SetOf(s.voters), SetOf(record)),
         observers := s.observers - added, endpoints := s.endpoints - added)
  }

  /** Flags say exactly who is a voter. */
  ghost predicate FlagsMatch(s: State) {
    forall v :: v in s.followers ==> (s.followers[v].isVoter <==> v in s.voters)
  }

  /** Off the leader, every record leaves the flags in order, whatever it adds and removes. */
  lemma AdoptingKeepsFlags(s: State, record: seq<NodeId>)
    requires FlagsMatch(s) && s.pending.None?
    ensures FlagsMatch(Applied(s, record)) && Applied(s, record).voters == record
  {
    assert forall v :: v in SetOf(record) <==> v in record;
    assert forall v :: v in SetOf(s.voters) <==> v in s.voters;
  }

  /** The pending voters differ from the committed ones in no tracked replica but the promoted one. */
  ghost predicate ChangesOnlyPromoted(s: State)
    requires s.pending.Some?
  {
    var p := s.pending.value;
    forall v :: v in s.followers ==> (v in p.voters <==> v in s.voters || v == p.promoted)
  }

  /** On the leader, the flags are in order exactly when the record changes no tracked replica but the promoted one. */
  lemma CommittingKeepsFlags(s: State)
    requires FlagsMatch(s) && s.pending.Some?
    ensures FlagsMatch(Committed(s)) <==> ChangesOnlyPromoted(s)
  {
    var s', p := Committed(s), s.pending.value;
    forall v | v in s.followers
      ensures s'.followers[v].isVoter <==> v in s.voters || v == p.promoted
    {
      assert s.followers[v].isVoter <==> v in s.voters;
    }
  }

  /** The leader's and the follower's way of applying a promotion give the same voters and flags. */
  lemma PathsAgree(s: State)
    requires FlagsMatch(s) && Promotes(s)
    ensures var leader, follower := Applied(s, s.pending.value.voters),
                                    Applied(s.(pending := None), s.pending.value.voters);
      leader.voters == follower.voters && leader.followers == follower.followers && FlagsMatch(leader)
  {
    var p := s.pending.value;
    var leader, follower := Applied(s, p.voters), Applied(s.(pending := None), p.voters);
    forall v: NodeId ensures v in p.voters <==> v in s.voters || v == p.promoted {
      assert v in SetOf(p.voters) <==> v in SetOf(s.voters) + {p.promoted};
    }
    CommittingKeepsFlags(s);
    AdoptingKeepsFlags(s.(pending := None), p.voters);
    assert leader.followers.Keys == follower.followers.Keys;
    forall v | v in s.followers ensures leader.followers[v] == follower.followers[v] {
      assert leader.followers[v].isVoter <==> follower.followers[v].isVoter;
    }
  }

  // ------------------------------------------------------------------
  // The object
  // ------------------------------------------------------------------

  /** Progress through a set of changed voters: those in `done` carry the new flag. */
  lemma MarkOne(all: map<NodeId, FollowerProgress>, done: set<NodeId>, v: NodeId, flag: bool)
    ensures MarkVoter(Marked(all, done, flag), v, flag) == Marked(all, done + {v}, flag)
  {
  }

  function Marked(all: map<NodeId, FollowerProgress>, done: set<NodeId>, flag: bool): map<NodeId, FollowerProgress> {
    map v | v in all :: if v in done then all[v].(isVoter := flag) else all[v]
  }

  class NodeState {
    const nodeId: NodeId
    var voterSet: seq<NodeId>
    var pending: Option<Pending>
    var followers: map<NodeId, FollowerProgress>
    var observers: set<NodeId>
    var endpoints: map<NodeId, string>

    ghost function Value(): State
      reads this
    {
      State(nodeId, voterSet, pending, followers, observers, endpoints)
    }

    /** A new leader tracks every other voter from offset 0. */
    constructor NewLeader(nodeId: NodeId, voters: seq<NodeId>)
      ensures voterSet == voters && this.nodeId == nodeId && pending == None && FlagsMatch(Value())
      ensures followers.Keys == SetOf(voters) - {nodeId} && forall v :: v in followers ==> followers[v].fetchOffset == 0
    {
      var tracked: map<NodeId, FollowerProgress> := map[];
      for i := 0 to |voters|
        invariant tracked.Keys == SetOf(voters[..i]) - {nodeId}
        invariant forall v :: v in tracked ==> tracked[v] == FollowerProgress(0, true)
      {
        if voters[i] != nodeId {
          tracked := tracked[voters[i] := FollowerProgress(0, true)];
        }
        assert voters[..i + 1] == voters[..i] + [voters[i]];
      }
      assert voters[..|voters|] == voters;
      this.nodeId := nodeId;
      voterSet, pending, followers, observers, endpoints := voters, None, tracked, {}, map[];
    }

    /** Flags that were in order stay so exactly when the record changes no tracked replica but the promoted one. */
    method CommitMembershipChange()
      modifies this
      ensures Value() == Committed(old(Value()))
      ensures old(FlagsMatch(Value()) && pending.Some?) ==>
        (FlagsMatch(Value()) <==> old(ChangesOnlyPromoted(Value())))
    {
      if FlagsMatch(Value()) && pending.Some? {
        CommittingKeepsFlags(Value());
      }
      if pending.Some? {
        var p := pending.value;
        pending := None;
        voterSet := p.voters;
        if p.promoted in followers {
          followers := followers[p.promoted := followers[p.promoted].(isVoter := true)];
        }
        endpoints := endpoints - {p.promoted};
      }
    }

    /** Set the flag of every tracked replica in `changed`. */
    method MarkAll(changed: set<NodeId>, flag: bool)
      modifies this`followers
      ensures followers == Marked(old(followers), changed, flag)
    {
      var todo := changed;
      while todo != {}
        invariant todo <= changed
        invariant followers == Marked(old(followers), changed - todo, flag)
        decreases |todo|
      {
        var v :| v in todo;
        MarkOne(old(followers), changed - todo, v, flag);
        if v in followers {
          followers := followers[v := followers[v].(isVoter := flag)];
        }
        assert changed - (todo - {v}) == (changed - todo) + {v};
        todo := todo - {v};
      }
      assert changed - {} == changed;
    }

    method ApplyVotersRecord(record: seq<NodeId>)
      modifies this
      ensures Value() == Applied(old(Value()), record)
      ensures old(FlagsMatch(Value()) && pending.None?) ==> FlagsMatch(Value()) && voterSet == record
    {
      if FlagsMatch(Value()) && pending.None? {
        AdoptingKeepsFlags(Value(), record);
      }
      if pending.Some? {
        CommitMembershipChange();
      } else {
        var before, after := SetOf(voterSet), SetOf(record);
        MarkAll(after - before, true);
        observers := observers - (after - before);
        endpoints := endpoints - (after - before);
        MarkAll(before - after, false);
        assert followers == Remarked(old(followers), before, after);
        voterSet := record;
      }
    }

    /** Check-Quorum over the committed voters: the loop counts list positions. */
    method CheckQuorumMet(recent: set<NodeId>) returns (met: bool)
      ensures Distinct(voterSet) ==> (met <==> Majority(recent + {nodeId}, SetOf(voterSet)))
    {
      hide SetOf, Distinct;
      var count := 0;
      ghost var all := SetOf(voterSet) * (recent + {nodeId});
      CountEnds(voterSet, all);
      for i := 0 to |voterSet|
        invariant Distinct(voterSet) ==> count == |SetOf(voterSet[..i]) * all|
      {
        if Distinct(voterSet) {
          CountStep(voterSet, i, all);
        }
        if voterSet[i] == nodeId || voterSet[i] in recent {
          count := count + 1;
        }
      }
      if Distinct(voterSet) {
        DistinctSize(voterSet);
        assert all == (recent + {nodeId}) * SetOf(voterSet);
      }
      return count > |voterSet| / 2;
    }
  }

  /** A leader that passes Check-Quorum shares a voter past the record with the quorum that committed it. */
  lemma CheckQuorumMeetsRecord(s: State, end: nat, recent: set<NodeId>) returns (v: NodeId)
    requires Promotes(s) && HighWatermark(s, end) > s.pending.value.offset
    requires Majority(recent + {s.nodeId}, SetOf(s.voters))
    ensures (v == s.nodeId || v in recent) && v in s.voters && ReplicatedTo(s, v, end) > s.pending.value.offset
  {
    v := MajorityMeetsRecord(s, end, recent + {s.nodeId});
  }
}
