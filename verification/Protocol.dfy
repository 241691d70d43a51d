/**
 The consensus protocol reduced to what its safety rests on: per-member term,
 vote, standing, log, commit index and leader bookkeeping, together with the
 history of votes, candidacies, reigns and acknowledgements. The cluster of
 engines is shown elsewhere to refine these steps.
 */
module Protocol {
  import opened Base
  import opened Quorums

  datatype Standing = Follower | Candidate | Leader

  /** One participant. `progress` is meaningful only for a leader, `votes` only for a candidate. */
  datatype Member = Member(
    term: nat, vote: Option<NodeId>, standing: Standing, votes: set<NodeId>,
    log: seq<Entry>, commit: nat, progress: map<NodeId, nat>)

  /** A term's leader, the voters that elected it, and the log it kept while it led. */
  datatype Reign = Reign(leader: NodeId, electors: set<NodeId>, log: seq<Entry>)

  datatype System = System(
    voters: set<NodeId>,
    members: map<NodeId, Member>,
    // History: (term, voter) -> candidate voted for.
    ballots: map<(nat, NodeId), NodeId>,
    // History: (term, candidate) -> the log it stood with.
    bids: map<(nat, NodeId), seq<Entry>>,
    // History: term -> its reign.
    reigns: map<nat, Reign>,
    // History: (term, member) -> highest index at which the member has held an entry of that term, in that term.
    acks: map<(nat, NodeId), nat>)

  // ------------------------------------------------------------------
  // Steps
  // ------------------------------------------------------------------

  ghost function Put(s: System, n: NodeId, m: Member): System {
    s.(members := s.members[n := m])
  }

  ghost predicate CanAdoptTerm(s: System, n: NodeId, t: nat) {
    n in s.members && t > s.members[n].term
  }

  /** Move to a higher term: the vote is cleared and any candidacy or leadership ends. */
  ghost function AdoptTerm(s: System, n: NodeId, t: nat): System
    requires CanAdoptTerm(s, n, t)
  {
    Put(s, n, s.members[n].(term := t, vote := None, standing := Follower, votes := {}))
  }

  /** Give up candidacy or leadership within the term. */
  ghost function StepDown(s: System, n: NodeId): System
    requires n in s.members
  {
    Put(s, n, s.members[n].(standing := Follower, votes := {}))
  }

  /** Start an election: next term, vote for oneself. */
  ghost function Stand(s: System, n: NodeId): System
    requires n in s.members
  {
    var m := s.members[n];
    Put(s, n, m.(term := m.term + 1, vote := Some(n), standing := Candidate, votes := {n}))
    .(ballots := s.ballots[(m.term + 1, n) := n], bids := s.bids[(m.term + 1, n) := m.log])
  }

  /** A candidate's log is at least as up to date as a voter's. */
  ghost predicate UpToDate(candidate: seq<Entry>, voter: seq<Entry>) {
    LastTerm(candidate) > LastTerm(voter)
    || (LastTerm(candidate) == LastTerm(voter) && |candidate| >= |voter|)
  }

  ghost predicate CanCast(s: System, n: NodeId, c: NodeId) {
    && n in s.members
    && (s.members[n].term, c) in s.bids
    && (s.members[n].vote == None || s.members[n].vote == Some(c))
    && UpToDate(s.bids[(s.members[n].term, c)], s.members[n].log)
  }

  ghost function Cast(s: System, n: NodeId, c: NodeId): System
    requires CanCast(s, n, c)
  {
    Put(s, n, s.members[n].(vote := Some(c)))
    .(ballots := s.ballots[(s.members[n].term, n) := c])
  }

  ghost predicate CanCollect(s: System, n: NodeId, v: NodeId) {
    && n in s.members && s.members[n].standing == Candidate
    && (s.members[n].term, v) in s.ballots && s.ballots[(s.members[n].term, v)] == n
  }

  ghost function Collect(s: System, n: NodeId, v: NodeId): System
    requires CanCollect(s, n, v)
  {
    Put(s, n, s.members[n].(votes := s.members[n].votes + {v}))
  }

  ghost predicate CanElect(s: System, n: NodeId, e: Entry) {
    && n in s.members && s.members[n].standing == Candidate
    && Majority(s.members[n].votes, s.voters)
    && e.term == s.members[n].term
  }

  /** Win the election and append the first entry of the term. */
  ghost function Elect(s: System, n: NodeId, e: Entry): System
    requires CanElect(s, n, e)
  {
    var m := s.members[n];
    Put(s, n, m.(standing := Leader, votes := {}, log := m.log + [e], progress := map[]))
    .(reigns := s.reigns[m.term := Reign(n, m.votes, m.log + [e])],
      acks := s.acks[(m.term, n) := |m.log| + 1])
  }

  ghost predicate CanPropose(s: System, n: NodeId, e: Entry) {
    && n in s.members && s.members[n].standing == Leader
    && s.members[n].term in s.reigns
    && e.term == s.members[n].term
  }

  ghost function Propose(s: System, n: NodeId, e: Entry): System
    requires CanPropose(s, n, e)
  {
    var m := s.members[n];
    Put(s, n, m.(log := m.log + [e]))
    .(reigns := s.reigns[m.term := s.reigns[m.term].(log := m.log + [e])],
      acks := s.acks[(m.term, n) := |m.log| + 1])
  }

  ghost predicate CanAck(s: System, n: NodeId, k: nat) {
    && n in s.members && 1 <= k <= |s.members[n].log|
    && s.members[n].log[k - 1].term == s.members[n].term
  }

  ghost function AckedTo(s: System, t: nat, n: NodeId): nat {
    if (t, n) in s.acks then s.acks[(t, n)] else 0
  }

  /** A member announces that it holds its current term's entry at `k`. */
  ghost function Ack(s: System, n: NodeId, k: nat): System
    requires CanAck(s, n, k)
  {
    var t := s.members[n].term;
    s.(acks := s.acks[(t, n) := if AckedTo(s, t, n) > k then AckedTo(s, t, n) else k])
  }

  ghost predicate CanRecord(s: System, l: NodeId, n: NodeId, k: nat) {
    && l in s.members && s.members[l].standing == Leader && k <= |s.members[l].log|
    && (k >= 1 && s.members[l].log[k - 1].term == s.members[l].term ==> Acked(s, s.members[l].term, n, k))
  }

  ghost function Progress(m: Member, n: NodeId): nat {
    if n in m.progress then m.progress[n] else 0
  }

  /** The leader raises its record of `n`'s replication progress to `k`. */
  ghost function Record(s: System, l: NodeId, n: NodeId, k: nat): System
    requires CanRecord(s, l, n, k)
  {
    var m := s.members[l];
    Put(s, l, m.(progress := m.progress[n := if Progress(m, n) > k then Progress(m, n) else k]))
  }

  /** Voters the leader believes to hold index `k`. */
  ghost function Supporters(s: System, l: NodeId, k: nat): set<NodeId>
    requires l in s.members
  {
    set n | n in s.voters && (n == l || Progress(s.members[l], n) >= k)
  }

  ghost predicate CanAdvance(s: System, l: NodeId, k: nat) {
    && l in s.members && s.members[l].standing == Leader
    && 1 <= k <= |s.members[l].log|
    && s.members[l].log[k - 1].term == s.members[l].term
    && Majority(Supporters(s, l, k), s.voters)
  }

  ghost function Advance(s: System, l: NodeId, k: nat): System
    requires CanAdvance(s, l, k)
  {
    Put(s, l, s.members[l].(commit := k))
  }

  ghost predicate Follows(s: System, n: NodeId) {
    n in s.members && s.members[n].standing == Follower && s.members[n].term in s.reigns
  }

  ghost predicate CanExtend(s: System, n: NodeId, j: nat) {
    && Follows(s, n)
    && var m, r := s.members[n], s.reigns[s.members[n].term].log;
    && |m.log| <= j <= |r| && Agree(m.log, r, |m.log|)
  }

  /** Copy the leader's log up to `j`. */
  ghost function Extend(s: System, n: NodeId, j: nat): System
    requires CanExtend(s, n, j)
  {
    Put(s, n, s.members[n].(log := s.reigns[s.members[n].term].log[..j]))
  }

  ghost predicate CanTruncate(s: System, n: NodeId, j: nat) {
    && Follows(s, n) && j <= |s.members[n].log|
    && forall i {:trigger Agree(s.members[n].log, s.reigns[s.members[n].term].log, i)} ::
         0 <= i && Agree(s.members[n].log, s.reigns[s.members[n].term].log, i) ==> i <= j
  }

  /** Drop everything past `j`, which keeps every entry shared with the leader. */
  ghost function Truncate(s: System, n: NodeId, j: nat): System
    requires CanTruncate(s, n, j)
  {
    Put(s, n, s.members[n].(log := s.members[n].log[..j]))
  }

  ghost predicate CanLearn(s: System, n: NodeId, c: nat) {
    && Follows(s, n)
    && Agree(s.members[n].log, s.reigns[s.members[n].term].log, c)
    && Settled(s, s.members[n].term, s.reigns[s.members[n].term].log, c)
  }

  /** Accept the leader's commit index. */
  ghost function Learn(s: System, n: NodeId, c: nat): System
    requires CanLearn(s, n, c)
  {
    Put(s, n, s.members[n].(commit := c))
  }

  ghost predicate CanCrash(s: System, n: NodeId, c: nat) {
    n in s.members && c <= s.members[n].commit
  }

  /** Restart from durable state: term, vote and log survive; the commit index may fall. */
  ghost function Crash(s: System, n: NodeId, c: nat): System
    requires CanCrash(s, n, c)
  {
    Put(s, n, s.members[n].(standing := Follower, votes := {}, commit := c))
  }

  // ------------------------------------------------------------------
  // Invariant
  // ------------------------------------------------------------------

  /** Member `n` has announced, in term `t`, an entry of term `t` at index `k` or later. */
  ghost predicate Acked(s: System, t: nat, n: NodeId, k: nat) {
    AckedTo(s, t, n) >= k
  }

  /** Member `n` has acknowledged (t, k) or is still free to do so. */
  ghost predicate MayHold(s: System, n: NodeId, t: nat, k: nat) {
    Acked(s, t, n, k) || (n in s.members && s.members[n].term <= t)
  }

  ghost function Holders(s: System, t: nat, k: nat): set<NodeId> {
    set n | n in s.voters && MayHold(s, n, t, k)
  }

  ghost function Keepers(s: System, t: nat, k: nat): set<NodeId> {
    set n | n in s.voters && Acked(s, t, n, k)
  }

  /** Index `k` of term `t`'s reign is an entry of that very term. */
  ghost predicate OwnEntry(s: System, t: nat, k: nat) {
    t in s.reigns && 1 <= k <= |s.reigns[t].log| && s.reigns[t].log[k - 1].term == t
  }

  /** A majority has acknowledged, or may still acknowledge, (t, k): it is or may become committed. */
  ghost predicate Open(s: System, t: nat, k: nat) {
    OwnEntry(s, t, k) && Majority(Holders(s, t, k), s.voters)
  }

  /** A majority has acknowledged (t, k). */
  ghost predicate Chosen(s: System, t: nat, k: nat) {
    OwnEntry(s, t, k) && Majority(Keepers(s, t, k), s.voters)
  }

  ghost predicate Covers(s: System, t: nat, k: nat, log: seq<Entry>, c: nat) {
    Chosen(s, t, k) && c <= k && Agree(log, s.reigns[t].log, c)
  }

  /** The first `c` entries of `log` are covered by something chosen in a term up to `bound`. */
  ghost predicate Settled(s: System, bound: nat, log: seq<Entry>, c: nat) {
    c == 0 || exists t: nat, k: nat :: t <= bound && Covers(s, t, k, log, c)
  }

  /** Every entry of `log` was put there by its term's leader, after the same predecessors. */
  ghost predicate Grounded(s: System, log: seq<Entry>) {
    forall k {:trigger log[k]} :: 0 <= k < |log| ==>
      log[k].term in s.reigns && Agree(log, s.reigns[log[k].term].log, k + 1)
  }

  ghost predicate TermsBelow(log: seq<Entry>, bound: nat) {
    forall k :: 0 <= k < |log| ==> log[k].term < bound
  }

  ghost predicate BallotsOk(s: System) {
    && s.voters <= s.members.Keys
    && (forall t, n {:trigger (t, n) in s.ballots} :: (t, n) in s.ballots ==>
          && n in s.members && t <= s.members[n].term
          && (t, s.ballots[(t, n)]) in s.bids
          && (t == s.members[n].term ==> s.members[n].vote == Some(s.ballots[(t, n)])))
    && (forall n :: n in s.members && s.members[n].vote.Some? ==>
          (s.members[n].term, n) in s.ballots
          && s.ballots[(s.members[n].term, n)] == s.members[n].vote.value)
  }

  ghost predicate CandidateOk(s: System, n: NodeId)
    requires n in s.members
  {
    var m := s.members[n];
    && (forall v :: v in m.votes ==> (m.term, v) in s.ballots && s.ballots[(m.term, v)] == n)
    && (m.term, n) in s.bids && s.bids[(m.term, n)] == m.log
    && (m.term in s.reigns ==> s.reigns[m.term].leader != n)
  }

  ghost predicate CandidatesOk(s: System) {
    forall n :: n in s.members && s.members[n].standing == Candidate ==> CandidateOk(s, n)
  }

  ghost predicate BidsOk(s: System) {
    forall t, c {:trigger (t, c) in s.bids} :: (t, c) in s.bids ==>
      c in s.members && t <= s.members[c].term && TermsBelow(s.bids[(t, c)], t)
  }

  ghost predicate ReignOk(s: System, t: nat)
    requires t in s.reigns
  {
    var r := s.reigns[t];
    && r.leader in s.members && s.members[r.leader].term >= t
    && Majority(r.electors, s.voters)
    && (forall v :: v in r.electors ==> (t, v) in s.ballots && s.ballots[(t, v)] == r.leader)
    && (t, r.leader) in s.bids
    && var b := s.bids[(t, r.leader)];
    && |b| < |r.log| && r.log[..|b|] == b
    && (forall i :: |b| <= i < |r.log| ==> r.log[i].term == t)
  }

  ghost predicate ReignsOk(s: System) {
    forall t :: t in s.reigns ==> ReignOk(s, t)
  }

  ghost predicate LeaderOk(s: System, n: NodeId)
    requires n in s.members
  {
    var m := s.members[n];
    && m.term in s.reigns && s.reigns[m.term].leader == n && s.reigns[m.term].log == m.log
    && Acked(s, m.term, n, |m.log|)
    && (forall p :: p in m.progress ==>
          && m.progress[p] <= |m.log|
          && (m.progress[p] >= 1 && m.log[m.progress[p] - 1].term == m.term
              ==> Acked(s, m.term, p, m.progress[p])))
  }

  ghost predicate LeadersOk(s: System) {
    forall n :: n in s.members && s.members[n].standing == Leader ==> LeaderOk(s, n)
  }

  ghost predicate LogsOk(s: System) {
    forall n :: n in s.members ==> TermsBelow(s.members[n].log, s.members[n].term + 1)
  }

  ghost predicate AcksOk(s: System) {
    forall t, n {:trigger (t, n) in s.acks} :: (t, n) in s.acks ==>
      OwnEntry(s, t, s.acks[(t, n)]) && n in s.members && s.members[n].term >= t
  }

  /** Acknowledged entries that may be committed are never dropped. */
  ghost predicate HoldersKeep(s: System) {
    forall t: nat, k: nat, n {:trigger Open(s, t, k), n in s.members} ::
      Open(s, t, k) && n in s.members && Acked(s, t, n, k)
      ==> Agree(s.members[n].log, s.reigns[t].log, k)
  }

  /** Later leaders hold every entry that may be committed. */
  ghost predicate ReignsKeep(s: System) {
    forall t: nat, k: nat, u {:trigger Open(s, t, k), u in s.reigns} :: Open(s, t, k) && u in s.reigns && u > t
      ==> Agree(s.reigns[u].log, s.reigns[t].log, k)
  }

  /** Whoever holds an entry that may be committed votes only for candidates that hold it too. */
  ghost predicate BallotsKeep(s: System) {
    forall t: nat, k: nat, u: nat, n {:trigger Open(s, t, k), (u, n) in s.ballots} ::
      Open(s, t, k) && (u, n) in s.ballots && u > t && Acked(s, t, n, k) && (u, s.ballots[(u, n)]) in s.bids
      ==> Agree(s.bids[(u, s.ballots[(u, n)])], s.reigns[t].log, k)
  }

  ghost predicate CommitsOk(s: System) {
    forall n :: n in s.members ==> Settled(s, s.members[n].term, s.members[n].log, s.members[n].commit)
  }

  ghost predicate BooksOk(s: System) {
    BallotsOk(s) && CandidatesOk(s) && BidsOk(s) && ReignsOk(s) && LeadersOk(s) && LogsOk(s) && AcksOk(s)
  }

  /** All logs, present and recorded, are grounded. */
  ghost predicate GroundsOk(s: System) {
    && (forall n {:trigger Grounded(s, s.members[n].log)} :: n in s.members ==> Grounded(s, s.members[n].log))
    && (forall t, c {:trigger Grounded(s, s.bids[(t, c)])} :: (t, c) in s.bids ==> Grounded(s, s.bids[(t, c)]))
    && (forall t {:trigger Grounded(s, s.reigns[t].log)} :: t in s.reigns ==> Grounded(s, s.reigns[t].log))
  }

  ghost predicate HistoryOk(s: System) {
    BooksOk(s) && GroundsOk(s)
  }

  ghost predicate KeepOk(s: System) {
    HoldersKeep(s) && ReignsKeep(s) && BallotsKeep(s)
  }

  ghost predicate Inv(s: System) {
    HistoryOk(s) && KeepOk(s) && CommitsOk(s)
  }

  // ------------------------------------------------------------------
  // What one step may change
  // ------------------------------------------------------------------

  /** Reigns only appear and grow at their end. */
  ghost predicate ReignsGrow(s: System, s': System) {
    forall t :: t in s.reigns ==>
      && t in s'.reigns && s'.reigns[t].leader == s.reigns[t].leader
      && s'.reigns[t].electors == s.reigns[t].electors
      && s.reigns[t].log <= s'.reigns[t].log
  }

  lemma GroundedStays(s: System, s': System, log: seq<Entry>)
    requires ReignsGrow(s, s') && Grounded(s, log)
    ensures Grounded(s', log)
  {
    forall k | 0 <= k < |log|
      ensures log[k].term in s'.reigns && Agree(log, s'.reigns[log[k].term].log, k + 1)
    {
      var r, r' := s.reigns[log[k].term].log, s'.reigns[log[k].term].log;
      assert r == r'[..|r|];
      assert r'[..k + 1] == r[..k + 1];
    }
  }

  /** The part of a reign's log that its leader stood with is older than the reign. */
  lemma BidPart(s: System, t: nat)
    requires t in s.reigns && ReignOk(s, t) && BidsOk(s)
    ensures var b := s.bids[(t, s.reigns[t].leader)];
      forall i :: 0 <= i < |b| ==> s.reigns[t].log[i].term < t
  {
    var b := s.bids[(t, s.reigns[t].leader)];
    forall i | 0 <= i < |b| ensures s.reigns[t].log[i].term < t {
      assert s.reigns[t].log[i] == s.reigns[t].log[..|b|][i] == b[i];
    }
  }

  lemma GroundedPrefix(s: System, log: seq<Entry>, j: nat)
    requires Grounded(s, log) && j <= |log|
    ensures Grounded(s, log[..j])
  {
    forall k | 0 <= k < |log[..j]|
      ensures log[..j][k].term in s.reigns && Agree(log[..j], s.reigns[log[..j][k].term].log, k + 1)
    {
      assert log[..j][..k + 1] == log[..k + 1];
    }
  }

  lemma GroundedAppend(s: System, log: seq<Entry>, e: Entry)
    requires Grounded(s, log)
    requires e.term in s.reigns && Agree(log + [e], s.reigns[e.term].log, |log| + 1)
    ensures Grounded(s, log + [e])
  {
    forall k | 0 <= k < |log + [e]|
      ensures (log + [e])[k].term in s.reigns
      ensures Agree(log + [e], s.reigns[(log + [e])[k].term].log, k + 1)
    {
      if k < |log| {
        assert (log + [e])[..k + 1] == log[..k + 1];
      }
    }
  }
}
