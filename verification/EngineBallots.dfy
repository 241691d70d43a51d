/**
 What every step of an engine owes to its inputs, whatever they are: which votes
 back a candidate or a leader, and how a leader writes and commits its log.
 */
module EngineBallots {
  import opened Base
  import opened Messages
  import opened OrderStatistics
  import opened Engine

  // ------------------------------------------------------------------
  // Votes
  // ------------------------------------------------------------------

  /** In the step from `n` to `n'`, the vote of `v` is the node's own, one it had, or the one just delivered. */
  predicate Backed(n: Node, input: Input, n': Node, v: NodeId) {
    || (v == n.cfg.id && n'.votedFor == Some(n.cfg.id))
    || (n.role == Candidate && n.term == n'.term && v in n.votesReceived)
    || (input.VoteAnswered? && input.voter == v && input.voteResp.voteGranted && input.voteResp.term == n'.term)
  }

  ghost predicate AllBacked(n: Node, input: Input, n': Node, votes: set<NodeId>) {
    forall v :: v in votes ==> Backed(n, input, n', v)
  }

  /** A quorum of votes backs the new leader. */
  ghost predicate Elects(n: Node, input: Input, n': Node) {
    exists votes :: HasQuorum(n.cfg, votes) && AllBacked(n, input, n', votes)
  }

  /** A granted vote that is sent is the vote on record. */
  predicate Truthful(n': Node, a: Action) {
    a.SendMessage? && a.message.VoteResp? && a.message.voteResponse.voteGranted ==>
      a.message.voteResponse.term == n'.term && n'.votedFor == Some(a.to)
  }

  ghost predicate Fair(n: Node, input: Input, o: Out) {
    && (o.node.role == Candidate ==> AllBacked(n, input, o.node, o.node.votesReceived))
    && (o.node.role == Leader ==> (n.role == Leader && o.node.term == n.term) || Elects(n, input, o.node))
    && (forall a :: a in o.actions ==> Truthful(o.node, a))
  }

  // ------------------------------------------------------------------
  // Writing the log
  // ------------------------------------------------------------------

  /** The entries appended by these actions, in order. */
  function Written(actions: seq<Action>): seq<Entry> {
    if actions == [] then [] else (if actions[0].AppendEntries? then actions[0].entries else []) + Written(actions[1..])
  }

  predicate IsCut(a: Action) {
    a.TruncateLog? && a.truncation.SuffixFromInclusive?
  }

  ghost predicate Cut(actions: seq<Action>) {
    exists a :: a in actions && IsCut(a)
  }

  /** The engine's last index moves with what is appended; a step that cuts appends nothing. */
  ghost predicate Tracks(n: Node, o: Out) {
    if Cut(o.actions) then Written(o.actions) == []
    else o.node.lastLogIndex == n.lastLogIndex + |Written(o.actions)|
  }

  /** No record claims more than the leader's own log holds. */
  ghost predicate OffsetsBelow(n: Node) {
    forall p :: p in n.peers ==> n.peers[p].lastFetchOffset <= n.lastLogIndex
  }

  /** What holds of a leader between steps. */
  ghost predicate LeaderSound(n: Node) {
    n.role == Leader ==> n.leaderNoOpIndex.Some? && OffsetsBelow(n)
  }

  /** The commit index, if it moved, lies between the no-op and the end of the log. */
  predicate InTerm(n: Node, n': Node) {
    n'.commitIndex != n.commitIndex ==>
      n'.leaderNoOpIndex.Some? && n'.leaderNoOpIndex.value <= n'.commitIndex <= n'.lastLogIndex
  }

  /** A leader cuts nothing, writes entries of its own term, and keeps its no-op marker or has just set it. */
  ghost predicate Reigning(n: Node, o: Out) {
    LeaderSound(n) && o.node.role == Leader ==>
      && !Cut(o.actions) && (forall e :: e in Written(o.actions) ==> e.term == o.node.term)
      && (if n.role == Leader then o.node.term == n.term && o.node.leaderNoOpIndex == n.leaderNoOpIndex
          else o.node.leaderNoOpIndex == Some(n.lastLogIndex + 1) && Written(o.actions) != [])
      && LeaderSound(o.node) && InTerm(n, o.node)
  }

  ghost predicate Regular(n: Node, input: Input, o: Out) {
    Fair(n, input, o) && Tracks(n, o) && Reigning(n, o)
  }

  /** Neither a log change nor a granted vote. */
  predicate Inert(a: Action) {
    && !a.AppendEntries? && !IsCut(a)
    && !(a.SendMessage? && a.message.VoteResp? && a.message.voteResponse.voteGranted)
  }

  lemma {:induction false} NothingWritten(actions: seq<Action>)
    requires forall a :: a in actions ==> !a.AppendEntries? && !IsCut(a)
    ensures Written(actions) == [] && !Cut(actions)
  {
    if actions != [] {
      assert actions[0] in actions;
      NothingWritten(actions[1..]);
    }
  }

  lemma {:induction false} WrittenAppend(a: seq<Action>, b: seq<Action>)
    ensures Written(a + b) == Written(a) + Written(b)
  {
    if a == [] {
      assert a + b == b;
    } else {
      var rest := a[1..];
      assert (a + b)[1..] == rest + b;
      WrittenAppend(rest, b);
      var first := if a[0].AppendEntries? then a[0].entries else [];
      assert first + (Written(rest) + Written(b)) == (first + Written(rest)) + Written(b);
    }
  }

  lemma CutAppend(a: seq<Action>, b: seq<Action>)
    ensures Cut(a + b) <==> Cut(a) || Cut(b)
  {
    if Cut(a) {
      var x :| x in a && IsCut(x);
      assert x in a + b;
    }
    if Cut(b) {
      var x :| x in b && IsCut(x);
      assert x in a + b;
    }
  }

  // ------------------------------------------------------------------
  // Committing
  // ------------------------------------------------------------------

  lemma {:induction false} OffsetsBounded(n: Node, voters: seq<NodeId>, i: nat)
    requires OffsetsBelow(n) && i < |Offsets(n, voters)|
    ensures Offsets(n, voters)[i] <= n.lastLogIndex
  {
    var v := voters[0];
    var first := |Offsets(n, voters)| - |Offsets(n, voters[1..])|;
    if i >= first {
      OffsetsBounded(n, voters[1..], i - first);
    }
  }

  lemma CandidateWithin(n: Node)
    requires OffsetsBelow(n) && CommitCandidate(n).Some?
    ensures n.leaderNoOpIndex.Some? && n.leaderNoOpIndex.value <= CommitCandidate(n).value <= n.lastLogIndex
  {
    var offsets, c := Offsets(n, n.cfg.voters.value), CommitCandidate(n).value;
    QthLargest(offsets, |VoterIds(n.cfg)| / 2 + 1, c);
    if c > n.lastLogIndex {
      forall i | 0 <= i < |offsets| ensures offsets[i] < c {
        OffsetsBounded(n, n.cfg.voters.value, i);
      }
      CountBound(offsets, c);
    }
  }

  /** The drain applies and may ask for a snapshot; it leaves everything else alone. */
  lemma DrainInert(m: Node)
    ensures var o := DrainApplyPipeline(m);
      && o.node == m.(lastApplied := o.node.lastApplied, snapshotInFlight := o.node.snapshotInFlight)
      && forall a :: a in o.actions ==> Inert(a)
  {
  }

  lemma AdvanceInert(m: Node)
    ensures var o := AdvanceAndDrain(m);
      && o.node == m.(commitIndex := o.node.commitIndex, lastApplied := o.node.lastApplied,
                      snapshotInFlight := o.node.snapshotInFlight)
      && (o.node.commitIndex == m.commitIndex || CommitCandidate(m) == Some(o.node.commitIndex))
      && forall a :: a in o.actions ==> Inert(a)
  {
    hide CommitCandidate, DrainApplyPipeline;
    if CommitCandidate(m).Some? {
      DrainInert(m.(commitIndex := CommitCandidate(m).value));
    }
  }

  /** What the commit rule and the drain leave alone, and what they promise. */
  lemma AdvanceRegular(m: Node)
    ensures var o := AdvanceAndDrain(m);
      && o.node == m.(commitIndex := o.node.commitIndex, lastApplied := o.node.lastApplied,
                      snapshotInFlight := o.node.snapshotInFlight)
      && (OffsetsBelow(m) ==> OffsetsBelow(o.node) && InTerm(m, o.node))
      && (forall a :: a in o.actions ==> Inert(a)) && Written(o.actions) == [] && !Cut(o.actions)
  {
    hide CommitCandidate, AdvanceAndDrain;
    AdvanceInert(m);
    if OffsetsBelow(m) && CommitCandidate(m).Some? {
      CandidateWithin(m);
    }
    NothingWritten(AdvanceAndDrain(m).actions);
  }

  // ------------------------------------------------------------------
  // Every handler
  // ------------------------------------------------------------------

  /** A step that changes neither standing nor log. */
  lemma QuietRegular(n: Node, input: Input, o: Out)
    requires forall a :: a in o.actions ==> Inert(a)
    requires o.node.lastLogIndex == n.lastLogIndex && o.node.commitIndex == n.commitIndex
    requires o.node.role == Candidate ==>
      n.role == Candidate && o.node.term == n.term && o.node.votesReceived == n.votesReceived
    requires o.node.role == Leader ==>
      && n.role == Leader && o.node.term == n.term && o.node.leaderNoOpIndex == n.leaderNoOpIndex
      && o.node.peers.Keys == n.peers.Keys
      && forall p :: p in n.peers ==> o.node.peers[p].lastFetchOffset == n.peers[p].lastFetchOffset
    ensures Regular(n, input, o)
  {
    NothingWritten(o.actions);
    assert o.node.role == Candidate ==> AllBacked(n, input, o.node, o.node.votesReceived);
  }

  /** The outcome of taking leadership from `m`, seen from `m`. */
  ghost predicate Crowned(m: Node, o: Out) {
    && o.node.cfg == m.cfg && o.node.role == Leader && o.node.term == m.term && o.node.votedFor == m.votedFor
    && o.node.leaderNoOpIndex == Some(m.lastLogIndex + 1) && o.node.lastLogIndex == m.lastLogIndex + 1
    && OffsetsBelow(o.node) && InTerm(m, o.node)
    && Written(o.actions) == [NoOpEntry(m)] && !Cut(o.actions)
    && forall a :: a in o.actions ==> Truthful(o.node, a)
  }

  lemma LeaderCrowned(m: Node, draw: nat)
    ensures Crowned(m, BecomeLeader(m, draw))
  {
    hide AdvanceAndDrain;
    var l, pre := EnterLeader(m, draw), [AnnounceLeader, AppendEntries([NoOpEntry(m)])];
    AdvanceRegular(l);
    WrittenAppend(pre, AdvanceAndDrain(l).actions);
    CutAppend(pre, AdvanceAndDrain(l).actions);
    assert pre[1..] == [AppendEntries([NoOpEntry(m)])] && pre[1..][1..] == [];
    assert Written(pre) == [NoOpEntry(m)];
    assert forall a :: a in BecomeLeader(m, draw).actions ==> a in pre || a in AdvanceAndDrain(l).actions;
  }

  /** A leadership taken after other harmless actions, backed by a quorum. */
  lemma CrownedRegular(n: Node, input: Input, m: Node, pre: seq<Action>, o: Out)
    requires Crowned(m, o) && (forall a :: a in pre ==> Inert(a))
    requires n.role != Leader && m.cfg == n.cfg && m.lastLogIndex == n.lastLogIndex && m.commitIndex == n.commitIndex
    requires Elects(n, input, m)
    ensures Regular(n, input, Out(o.node, pre + o.actions))
  {
    NothingWritten(pre);
    WrittenAppend(pre, o.actions);
    CutAppend(pre, o.actions);
    var votes :| HasQuorum(n.cfg, votes) && AllBacked(n, input, m, votes);
    assert AllBacked(n, input, o.node, votes);
  }

  lemma CandidateRegular(n: Node, input: Input, m: Node, pre: seq<Action>, draw: nat)
    requires forall a :: a in pre ==> Inert(a)
    requires n.role != Leader && m.cfg == n.cfg && m.lastLogIndex == n.lastLogIndex && m.commitIndex == n.commitIndex
    ensures var o := BecomeCandidate(m, draw); Regular(n, input, Out(o.node, pre + o.actions))
  {
    hide BecomeLeader, HasQuorum, Regular;
    var c := EnterCandidate(m, draw);
    var request := VoteReq(VoteRequest(c.cfg.clusterId, c.term, c.cfg.id, c.lastLogIndex, c.lastLogTerm));
    BroadcastSends(c.cfg.peerOrder, c.peers, request);
    var sent := [PersistHardState] + Broadcast(c.cfg.peerOrder, c.peers, request);
    assert AllBacked(n, input, c, c.votesReceived);
    if HasQuorum(c.cfg, c.votesReceived) {
      LeaderCrowned(c, draw);
      CrownedRegular(n, input, c, pre + sent, BecomeLeader(c, draw));
      assert pre + sent + BecomeLeader(c, draw).actions == pre + (sent + BecomeLeader(c, draw).actions);
    } else {
      CandidacyRegular(n, input, Out(c, pre + sent));
    }
  }

  lemma CandidacyRegular(n: Node, input: Input, o: Out)
    requires o.node.role == Candidate && o.node.lastLogIndex == n.lastLogIndex
    requires AllBacked(n, input, o.node, o.node.votesReceived)
    requires forall a :: a in o.actions ==> Inert(a)
    ensures Regular(n, input, o)
  {
    NothingWritten(o.actions);
  }

  lemma PreCandidateRegular(n: Node, input: Input, m: Node, pre: seq<Action>, draw: nat)
    requires forall a :: a in pre ==> Inert(a)
    requires n.role != Leader && m.cfg == n.cfg && m.lastLogIndex == n.lastLogIndex && m.commitIndex == n.commitIndex
    ensures var o := BecomePreCandidate(m, draw); Regular(n, input, Out(o.node, pre + o.actions))
  {
    hide BecomeCandidate, HasQuorum, Regular;
    var p := EnterPreCandidate(m, draw);
    var request := PreVoteReq(PreVoteRequest(p.cfg.clusterId, p.term + 1, p.cfg.id, p.lastLogIndex, p.lastLogTerm));
    BroadcastSends(p.cfg.peerOrder, p.peers, request);
    var sent := Broadcast(p.cfg.peerOrder, p.peers, request);
    CandidateRegular(n, input, p, pre + sent, draw);
    assert pre + sent + BecomeCandidate(p, draw).actions == pre + (sent + BecomeCandidate(p, draw).actions);
    QuietRegular(n, input, Out(p, pre + sent));
  }

  lemma TickRoleRegular(n: Node, m: Node, pre: seq<Action>, draw: nat)
    requires forall a :: a in pre ==> Inert(a)
    requires m.cfg == n.cfg && m.role == n.role && m.term == n.term && m.votesReceived == n.votesReceived
    requires m.lastLogIndex == n.lastLogIndex && m.commitIndex == n.commitIndex
    requires m.peers == n.peers && m.leaderNoOpIndex == n.leaderNoOpIndex
    ensures var o := TickRole(m, draw); Regular(n, Input.Tick, Out(o.node, pre + o.actions))
  {
    hide BecomePreCandidate, CheckQuorumFails, Regular;
    if n.role != Leader && !CheckQuorumFails(m) {
      PreCandidateRegular(n, Input.Tick, m, pre, draw);
      QuietRegular(n, Input.Tick, Out(m, pre + []));
    } else {
      QuietRegular(n, Input.Tick, Out(TickRole(m, draw).node, pre + TickRole(m, draw).actions));
    }
  }

  lemma TickRegular(n: Node, draw: nat)
    ensures Regular(n, Input.Tick, HandleTick(n, draw))
  {
    hide TickRole, Broadcast, FetchDue, Regular;
    var f := ScheduleFetch(AdvanceClock(n));
    BroadcastSends(n.cfg.peerOrder, n.peers, FetchReq(NextFetch(AdvanceClock(n))));
    TickRoleRegular(n, f.node, f.actions, draw);
  }

  lemma VoteRequestRegular(n: Node, req: VoteRequest, draw: nat)
    ensures Regular(n, VoteRequested(req), HandleVoteRequest(n, req, draw))
  {
    hide CandidateLogIsUpToDate, Written, Cut;
    var o := HandleVoteRequest(n, req, draw);
    NothingWritten(o.actions);
    assert o.node.role == Candidate ==> AllBacked(n, VoteRequested(req), o.node, o.node.votesReceived);
  }

  lemma VoteResponseRegular(n: Node, voter: NodeId, resp: VoteResponse, draw: nat)
    ensures Regular(n, VoteAnswered(voter, resp), HandleVoteResponse(n, voter, resp, draw))
  {
    hide BecomeLeader, HasQuorum, Regular;
    var input, o := VoteAnswered(voter, resp), HandleVoteResponse(n, voter, resp, draw);
    QuietRegular(n, input, Out(n, []));
    QuietRegular(n, input, BecomeFollower(n, resp.term, None, draw));
    var m := n.(votesReceived := n.votesReceived + {voter});
    if n.role == Candidate && resp.term == n.term && resp.voteGranted {
      assert AllBacked(n, input, m, m.votesReceived);
      LeaderCrowned(m, draw);
      if HasQuorum(m.cfg, m.votesReceived) {
        CrownedRegular(n, input, m, [], BecomeLeader(m, draw));
        assert [] + BecomeLeader(m, draw).actions == BecomeLeader(m, draw).actions;
      } else {
        CandidacyRegular(n, input, Out(m, []));
      }
    }
  }

  lemma PreVoteResponseRegular(n: Node, voter: NodeId, resp: PreVoteResponse, draw: nat)
    ensures Regular(n, PreVoteAnswered(voter, resp), HandlePreVoteResponse(n, voter, resp, draw))
  {
    hide BecomeCandidate, HasQuorum, Regular;
    var input := PreVoteAnswered(voter, resp);
    QuietRegular(n, input, Out(n, []));
    QuietRegular(n, input, BecomeFollower(n, resp.term, None, draw));
    if n.role == PreCandidate {
      var m := n.(preVotesReceived := n.preVotesReceived + {voter});
      QuietRegular(n, input, Out(m, []));
      CandidateRegular(n, input, m, [], draw);
      assert [] + BecomeCandidate(m, draw).actions == BecomeCandidate(m, draw).actions;
    }
  }

  lemma FetchRequestRegular(n: Node, req: FetchRequest, draw: nat)
    ensures Regular(n, FetchRequested(req), HandleFetchRequest(n, req, draw))
  {
    hide Regular;
    QuietRegular(n, FetchRequested(req), HandleFetchRequest(n, req, draw));
  }

  lemma AckedRegular(n: Node, replica: NodeId, confirmed: nat)
    ensures Regular(n, FetchRequestAcked(replica, confirmed), HandleFetchRequestAcked(n, replica, confirmed))
  {
    hide AdvanceAndDrain;
    if n.role != Leader || !IsKnownReplica(n, replica) {
      QuietRegular(n, FetchRequestAcked(replica, confirmed), Out(n, []));
    } else {
      var m := RecordProgress(n, replica, confirmed);
      AdvanceRegular(m);
    }
  }

  lemma ProposeRegular(n: Node, command: seq<bv8>)
    ensures Regular(n, ClientPropose(command), HandleClientPropose(n, command))
  {
    hide AdvanceAndDrain;
    if n.role != Leader {
      QuietRegular(n, ClientPropose(command), Out(n, []));
    } else {
      var e := Entry(n.lastLogIndex + 1, n.term, Command(command));
      var m := n.(lastLogIndex := n.lastLogIndex + 1, lastLogTerm := n.term);
      AdvanceRegular(m);
      WrittenAppend([AppendEntries([e])], AdvanceAndDrain(m).actions);
      CutAppend([AppendEntries([e])], AdvanceAndDrain(m).actions);
      assert Written([AppendEntries([e])]) == [e];
    }
  }

  /** Consumption ends outside leadership and candidacy, so only the log matters. */
  ghost predicate Consumed(n: Node, o: Out) {
    && (o.node.role == Follower || o.node.role == Observer) && Tracks(n, o)
    && forall a :: a in o.actions ==> Truthful(o.node, a)
  }

  lemma LearnInert(n: Node, highWatermark: nat)
    ensures var o := LearnCommit(n, highWatermark);
      && o.node.role == n.role && o.node.lastLogIndex == n.lastLogIndex && (forall a :: a in o.actions ==> Inert(a))
      && Written(o.actions) == [] && !Cut(o.actions)
  {
    NothingWritten(LearnCommit(n, highWatermark).actions);
  }

  lemma ConsumeTracks(n: Node, resp: FetchResponse)
    requires n.role == Follower || n.role == Observer
    ensures Consumed(n, ConsumeAnswer(n, resp))
  {
    hide LearnCommit, WellFormedBatch;
    var o := ConsumeAnswer(n, resp);
    if resp.snapshotRedirect.Some? {
      NothingWritten(o.actions);
    } else if resp.divergingEpoch.Some? {
      var cut := TruncateLog(SuffixFromInclusive(resp.divergingEpoch.value.endOffset + 1));
      assert cut in o.actions && IsCut(cut);
      assert o.actions[1..][1..] == [] && Written(o.actions[1..]) == [];
    } else if resp.entries == [] {
      LearnInert(n, resp.highWatermark);
    } else if WellFormedBatch(resp.entries, n.lastLogIndex + 1) {
      var last := resp.entries[|resp.entries| - 1];
      var m := n.(lastLogIndex := last.index, lastLogTerm := last.term);
      BatchRises(resp.entries, n.lastLogIndex + 1, |resp.entries| - 1);
      LearnInert(m, resp.highWatermark);
      var pre, rest := [AppendEntries(resp.entries)], LearnCommit(m, resp.highWatermark).actions;
      WrittenAppend(pre, rest);
      CutAppend(pre, rest);
      assert pre[1..] == [] && Written(pre) == resp.entries;
    } else {
      NothingWritten([]);
    }
  }

  /** A well-formed batch is numbered consecutively from its first index. */
  lemma {:induction false} BatchRises(entries: seq<Entry>, first: nat, i: nat)
    requires WellFormedBatch(entries, first) && i < |entries|
    ensures entries[i].index == first + i
  {
    if i > 0 {
      BatchRises(entries, first, i - 1);
      assert entries[i - 1 + 1].index == entries[i - 1].index + 1;
    }
  }

  lemma RecogniseInert(n: Node, resp: FetchResponse, draw: nat)
    requires !DropsAnswer(n, resp)
    ensures var o := RecogniseLeader(n, resp, draw);
      && (o.node.role == Follower || o.node.role == Observer) && o.node.lastLogIndex == n.lastLogIndex
      && forall a :: a in o.actions ==> Inert(a)
  {
  }

  lemma FetchResponseRegular(n: Node, resp: FetchResponse, draw: nat)
    ensures Regular(n, FetchAnswered(resp), HandleFetchResponse(n, resp, draw))
  {
    hide RecogniseLeader, ConsumeAnswer, DropsAnswer;
    if DropsAnswer(n, resp) {
      QuietRegular(n, FetchAnswered(resp), Out(n, []));
    } else {
      var a := RecogniseLeader(n, resp, draw);
      var b := ConsumeAnswer(a.node, resp);
      RecogniseInert(n, resp, draw);
      ConsumeTracks(a.node, resp);
      NothingWritten(a.actions);
      WrittenAppend(a.actions, b.actions);
      CutAppend(a.actions, b.actions);
    }
  }

  /** Every step but the snapshot confirmations is regular. */
  lemma StepRegular(n: Node, input: Input, draw: nat)
    requires !input.SnapshotComplete? && !input.SnapshotInstalled?
    ensures Regular(n, input, Step(n, input, draw))
  {
    hide Regular, HandleTick, HandleVoteRequest, HandleVoteResponse, HandlePreVoteResponse, HandleFetchRequest,
      HandleFetchResponse, HandleClientPropose, HandleFetchRequestAcked;
    match input
    case Tick => TickRegular(n, draw);
    case VoteRequested(req) => VoteRequestRegular(n, req, draw);
    case VoteAnswered(voter, resp) => VoteResponseRegular(n, voter, resp, draw);
    case PreVoteRequested(req) => QuietRegular(n, input, Step(n, input, draw));
    case PreVoteAnswered(voter, resp) => PreVoteResponseRegular(n, voter, resp, draw);
    case FetchRequested(req) => FetchRequestRegular(n, req, draw);
    case FetchAnswered(resp) => FetchResponseRegular(n, resp, draw);
    case ClientPropose(command) => ProposeRegular(n, command);
    case FetchRequestAcked(replica, confirmed) => AckedRegular(n, replica, confirmed);
    case FetchSnapshotReceived(metadata, data) => QuietRegular(n, input, Step(n, input, draw));
  }
}
