/** Every protocol step keeps the bookkeeping half of the invariant. */
module ProtocolHistory {
  import opened Base
  import opened Quorums
  import opened Protocol

  /** `s'` comes after `s`: histories only grow, and only member `n` may have changed. */
  ghost predicate Moves(s: System, s': System, n: NodeId) {
    && s'.voters == s.voters && n in s.members && s'.members.Keys == s.members.Keys
    && (forall m :: m in s.members && m != n ==> s'.members[m] == s.members[m])
    && s.members[n].term <= s'.members[n].term
    && (forall b :: b in s.ballots ==> b in s'.ballots && s'.ballots[b] == s.ballots[b])
    && (forall b :: b in s.bids ==> b in s'.bids && s'.bids[b] == s.bids[b])
    && ReignsGrow(s, s')
    && (forall t :: t in s'.reigns ==>
          (t in s.reigns && s'.reigns[t] == s.reigns[t]) || s'.reigns[t].leader == n)
    && (forall t, m {:trigger AckedTo(s', t, m)} :: AckedTo(s, t, m) <= AckedTo(s', t, m))
  }

  /** Histories only grow and terms never fall: the part of `Moves` that composes. */
  ghost predicate Later(s: System, s': System) {
    && s'.voters == s.voters && s'.members.Keys == s.members.Keys
    && (forall m :: m in s.members ==> s.members[m].term <= s'.members[m].term)
    && (forall b :: b in s.ballots ==> b in s'.ballots && s'.ballots[b] == s.ballots[b])
    && (forall b :: b in s.bids ==> b in s'.bids && s'.bids[b] == s.bids[b])
    && ReignsGrow(s, s')
    && (forall t, m {:trigger AckedTo(s', t, m)} :: AckedTo(s, t, m) <= AckedTo(s', t, m))
  }

  lemma MovesLater(s: System, s': System, n: NodeId)
    requires Moves(s, s', n)
    ensures Later(s, s')
  {
  }

  lemma LaterTransitive(s: System, s': System, s'': System)
    requires Later(s, s') && Later(s', s'')
    ensures Later(s, s'')
  {
    forall t: nat, m: nat ensures AckedTo(s, t, m) <= AckedTo(s'', t, m) {
      assert AckedTo(s, t, m) <= AckedTo(s', t, m);
    }
    forall t | t in s.reigns ensures s.reigns[t].log <= s''.reigns[t].log {
      assert s.reigns[t].log <= s'.reigns[t].log <= s''.reigns[t].log;
    }
  }

  /** Reigns that are not as before are in order. */
  ghost predicate ReignsMove(s: System, s': System) {
    forall t :: t in s'.reigns ==> (t in s.reigns && s'.reigns[t] == s.reigns[t]) || ReignOk(s', t)
  }

  /** The only new acknowledgement is one by `n` in its own term. */
  ghost predicate AcksMove(s: System, s': System, n: NodeId) {
    n in s'.members &&
    forall t, m {:trigger (t, m) in s'.acks} :: (t, m) in s'.acks ==>
      || ((t, m) in s.acks && s'.acks[(t, m)] == s.acks[(t, m)])
      || (m == n && t == s'.members[n].term && OwnEntry(s', t, s'.acks[(t, m)]))
  }

  // One lemma for each clause: it survives a step that leaves its ingredients alone.

  lemma BallotsStay(s: System, s': System, n: NodeId)
    requires BallotsOk(s) && Moves(s, s', n) && s'.ballots == s.ballots
    requires s'.members[n].term == s.members[n].term ==> s'.members[n].vote == s.members[n].vote
    requires s'.members[n].term > s.members[n].term ==> s'.members[n].vote == None
    ensures BallotsOk(s')
  {
  }

  lemma CandidatesStay(s: System, s': System, n: NodeId)
    requires CandidatesOk(s) && Moves(s, s', n)
    requires s'.members[n].standing == Candidate ==> CandidateOk(s', n)
    ensures CandidatesOk(s')
  {
  }

  lemma BidsStay(s: System, s': System, n: NodeId)
    requires BidsOk(s) && Moves(s, s', n) && s'.bids == s.bids
    ensures BidsOk(s')
  {
  }

  lemma ReignsStay(s: System, s': System, n: NodeId)
    requires ReignsOk(s) && Moves(s, s', n)
    requires ReignsMove(s, s')
    ensures ReignsOk(s')
  {
  }

  lemma LeadersStay(s: System, s': System, n: NodeId)
    requires LeadersOk(s) && Moves(s, s', n)
    requires s'.members[n].standing == Leader ==> LeaderOk(s', n)
    ensures LeadersOk(s')
  {
    forall m | m in s'.members && s'.members[m].standing == Leader ensures LeaderOk(s', m) {
      if m != n {
        AckedStays(s, s', n);
      }
    }
  }

  lemma LogsStay(s: System, s': System, n: NodeId)
    requires LogsOk(s) && Moves(s, s', n)
    requires TermsBelow(s'.members[n].log, s'.members[n].term + 1)
    ensures LogsOk(s')
  {
  }

  lemma AcksStay(s: System, s': System, n: NodeId)
    requires AcksOk(s) && Moves(s, s', n)
    requires AcksMove(s, s', n)
    ensures AcksOk(s')
  {
  }

  lemma AckedStays(s: System, s': System, n: NodeId)
    requires Moves(s, s', n)
    ensures forall t, m, k :: Acked(s, t, m, k) ==> Acked(s', t, m, k)
  {
    forall t, m, k | Acked(s, t, m, k) ensures Acked(s', t, m, k) {
      assert AckedTo(s, t, m) <= AckedTo(s', t, m);
    }
  }

  /** All clauses at once, given that the stepping member and the new records are in order. */
  lemma BooksStay(s: System, s': System, n: NodeId)
    requires BooksOk(s) && Moves(s, s', n)
    requires BallotsOk(s') && BidsOk(s')
    requires s'.members[n].standing == Candidate ==> CandidateOk(s', n)
    requires s'.members[n].standing == Leader ==> LeaderOk(s', n)
    requires TermsBelow(s'.members[n].log, s'.members[n].term + 1)
    requires ReignsMove(s, s')
    requires AcksMove(s, s', n)
    ensures BooksOk(s')
  {
    CandidatesStay(s, s', n);
    ReignsStay(s, s', n);
    LeadersStay(s, s', n);
    LogsStay(s, s', n);
    AcksStay(s, s', n);
  }

  lemma MemberMoves(s: System, n: NodeId, m: Member)
    requires n in s.members && m.term >= s.members[n].term
    ensures Moves(s, Put(s, n, m), n)
  {
  }

  /** A step that changes one member and no history. */
  lemma MemberBooks(s: System, s': System, n: NodeId)
    requires BooksOk(s) && n in s.members && n in s'.members && s' == Put(s, n, s'.members[n])
    requires s'.members[n].term >= s.members[n].term
    requires s'.members[n].term == s.members[n].term ==> s'.members[n].vote == s.members[n].vote
    requires s'.members[n].term > s.members[n].term ==> s'.members[n].vote == None
    requires s'.members[n].standing == Candidate ==> CandidateOk(s', n)
    requires s'.members[n].standing == Leader ==> LeaderOk(s', n)
    requires TermsBelow(s'.members[n].log, s'.members[n].term + 1)
    ensures BooksOk(s') && Moves(s, s', n)
  {
    MemberMoves(s, n, s'.members[n]);
    BallotsStay(s, s', n);
    BidsStay(s, s', n);
    BooksStay(s, s', n);
  }

  lemma AdoptTermBooks(s: System, n: NodeId, t: nat)
    requires BooksOk(s) && CanAdoptTerm(s, n, t)
    ensures BooksOk(AdoptTerm(s, n, t)) && Moves(s, AdoptTerm(s, n, t), n)
  {
    MemberBooks(s, AdoptTerm(s, n, t), n);
  }

  lemma StepDownBooks(s: System, n: NodeId)
    requires BooksOk(s) && n in s.members
    ensures BooksOk(StepDown(s, n)) && Moves(s, StepDown(s, n), n)
  {
    MemberBooks(s, StepDown(s, n), n);
  }

  lemma StandMoves(s: System, n: NodeId)
    requires BallotsOk(s) && BidsOk(s) && n in s.members
    ensures Moves(s, Stand(s, n), n)
  {
    assert (s.members[n].term + 1, n) !in s.ballots;
    assert (s.members[n].term + 1, n) !in s.bids;
  }

  lemma StandBallots(s: System, n: NodeId)
    requires BallotsOk(s) && n in s.members
    ensures BallotsOk(Stand(s, n))
  {
  }

  lemma StandBids(s: System, n: NodeId)
    requires BidsOk(s) && LogsOk(s) && n in s.members
    ensures BidsOk(Stand(s, n))
  {
  }

  lemma StandBooks(s: System, n: NodeId)
    requires BooksOk(s) && n in s.members
    ensures BooksOk(Stand(s, n)) && Moves(s, Stand(s, n), n)
  {
    StandMoves(s, n);
    StandBallots(s, n);
    StandBids(s, n);
    BooksStay(s, Stand(s, n), n);
  }

  lemma CastMoves(s: System, n: NodeId, c: NodeId)
    requires BallotsOk(s) && CanCast(s, n, c)
    ensures Moves(s, Cast(s, n, c), n) && BallotsOk(Cast(s, n, c))
  {
  }

  lemma CastStanding(s: System, n: NodeId, c: NodeId)
    requires CandidatesOk(s) && LeadersOk(s) && CanCast(s, n, c) && Moves(s, Cast(s, n, c), n)
    ensures s.members[n].standing == Candidate ==> CandidateOk(Cast(s, n, c), n)
    ensures s.members[n].standing == Leader ==> LeaderOk(Cast(s, n, c), n)
  {
    assert s.members[n].standing == Leader ==> LeaderOk(s, n);
    AckedStays(s, Cast(s, n, c), n);
  }

  lemma CastBooks(s: System, n: NodeId, c: NodeId)
    requires BooksOk(s) && CanCast(s, n, c)
    ensures BooksOk(Cast(s, n, c)) && Moves(s, Cast(s, n, c), n)
  {
    hide Moves, BallotsOk, BidsOk, ReignsOk, AcksOk, CandidateOk, LeaderOk, CandidatesOk, LeadersOk, ReignOk;
    CastMoves(s, n, c);
    CastStanding(s, n, c);
    BidsStay(s, Cast(s, n, c), n);
    BooksStay(s, Cast(s, n, c), n);
  }

  lemma CollectBooks(s: System, n: NodeId, v: NodeId)
    requires BooksOk(s) && CanCollect(s, n, v)
    ensures BooksOk(Collect(s, n, v)) && Moves(s, Collect(s, n, v), n)
  {
    MemberBooks(s, Collect(s, n, v), n);
  }

  /** The heart of election safety: a term that has a leader elects no other, and none twice. */
  lemma ElectFresh(s: System, n: NodeId, e: Entry)
    requires CandidatesOk(s) && ReignsOk(s) && CanElect(s, n, e)
    ensures s.members[n].term !in s.reigns
  {
    var t := s.members[n].term;
    if t in s.reigns {
      var v := MajoritiesMeet(s.members[n].votes, s.reigns[t].electors, s.voters);
      assert false;
    }
  }

  lemma ElectMoves(s: System, n: NodeId, e: Entry)
    requires AcksOk(s) && CanElect(s, n, e) && s.members[n].term !in s.reigns
    ensures Moves(s, Elect(s, n, e), n)
  {
    var t, s' := s.members[n].term, Elect(s, n, e);
    assert AckedTo(s, t, n) == 0;
    forall u: nat, m: nat ensures AckedTo(s, u, m) <= AckedTo(s', u, m) {
      if (u, m) != (t, n) {
        assert AckedTo(s, u, m) == AckedTo(s', u, m);
      }
    }
  }

  lemma ElectRecords(s: System, n: NodeId, e: Entry)
    requires CanElect(s, n, e) && CandidateOk(s, n)
    ensures LeaderOk(Elect(s, n, e), n) && ReignOk(Elect(s, n, e), e.term)
    ensures OwnEntry(Elect(s, n, e), e.term, |s.members[n].log| + 1)
  {
  }

  lemma ElectBooks(s: System, n: NodeId, e: Entry)
    requires BooksOk(s) && CanElect(s, n, e)
    ensures BooksOk(Elect(s, n, e)) && Moves(s, Elect(s, n, e), n)
  {
    var s' := Elect(s, n, e);
    ElectFresh(s, n, e);
    ElectMoves(s, n, e);
    ElectRecords(s, n, e);
    BallotsStay(s, s', n);
    BidsStay(s, s', n);
    BooksStay(s, s', n);
  }

  lemma ProposeMoves(s: System, n: NodeId, e: Entry)
    requires AcksOk(s) && CanPropose(s, n, e) && LeaderOk(s, n)
    ensures Moves(s, Propose(s, n, e), n)
  {
    var t, s' := s.members[n].term, Propose(s, n, e);
    forall u: nat, m: nat ensures AckedTo(s, u, m) <= AckedTo(s', u, m) {
      if (u, m) != (t, n) {
        assert AckedTo(s, u, m) == AckedTo(s', u, m);
      }
    }
  }

  lemma ProposeLeader(s: System, n: NodeId, e: Entry)
    requires CanPropose(s, n, e) && LeaderOk(s, n) && Moves(s, Propose(s, n, e), n)
    ensures LeaderOk(Propose(s, n, e), n)
  {
    AckedStays(s, Propose(s, n, e), n);
  }

  lemma ProposeReign(s: System, n: NodeId, e: Entry)
    requires ReignsOk(s) && CanPropose(s, n, e) && LeaderOk(s, n)
    ensures ReignOk(Propose(s, n, e), e.term)
    ensures OwnEntry(Propose(s, n, e), e.term, |s.members[n].log| + 1)
  {
    var r, r' := s.reigns[e.term].log, Propose(s, n, e).reigns[e.term].log;
    assert r' == r + [e];
    assert ReignOk(s, e.term);
  }

  lemma ProposeRecords(s: System, n: NodeId, e: Entry)
    requires ReignsOk(s) && CanPropose(s, n, e) && LeaderOk(s, n)
    ensures ReignsMove(s, Propose(s, n, e)) && AcksMove(s, Propose(s, n, e), n)
  {
    hide ReignsOk, ReignOk, LeaderOk;
    ProposeReign(s, n, e);
  }

  lemma ProposeShape(s: System, n: NodeId, e: Entry)
    requires CanPropose(s, n, e) && LogsOk(s)
    ensures var s', m := Propose(s, n, e), s.members[n];
      && n in s'.members && s'.ballots == s.ballots && s'.bids == s.bids && s'.members[n].standing == Leader
      && s'.members[n].term == m.term && s'.members[n].vote == m.vote && TermsBelow(s'.members[n].log, m.term + 1)
  {
  }

  lemma ProposeBooks(s: System, n: NodeId, e: Entry)
    requires BooksOk(s) && CanPropose(s, n, e)
    ensures BooksOk(Propose(s, n, e)) && Moves(s, Propose(s, n, e), n)
  {
    var s' := Propose(s, n, e);
    hide Moves, BallotsOk, BidsOk, ReignsOk, AcksOk, CandidateOk, LeaderOk, CandidatesOk, ReignOk, AcksMove, ReignsMove,
      Propose, LogsOk;
    assert LeaderOk(s, n);
    ProposeShape(s, n, e);
    ProposeMoves(s, n, e);
    ProposeLeader(s, n, e);
    ProposeRecords(s, n, e);
    BallotsStay(s, s', n);
    BidsStay(s, s', n);
    BooksStay(s, s', n);
  }

  lemma AckMoves(s: System, n: NodeId, k: nat)
    requires CanAck(s, n, k)
    ensures Moves(s, Ack(s, n, k), n)
  {
    var t, s' := s.members[n].term, Ack(s, n, k);
    forall u: nat, m: nat ensures AckedTo(s, u, m) <= AckedTo(s', u, m) {
      if (u, m) != (t, n) {
        assert AckedTo(s, u, m) == AckedTo(s', u, m);
      }
    }
  }

  lemma AckOwn(s: System, n: NodeId, k: nat)
    requires CanAck(s, n, k) && Grounded(s, s.members[n].log)
    ensures OwnEntry(s, s.members[n].term, k)
  {
    var m := s.members[n];
    assert Agree(m.log, s.reigns[m.log[k - 1].term].log, k);
    AgreeAt(m.log, s.reigns[m.term].log, k, k - 1);
  }

  lemma AckLeader(s: System, n: NodeId, k: nat)
    requires CanAck(s, n, k) && Moves(s, Ack(s, n, k), n)
    requires s.members[n].standing == Leader ==> LeaderOk(s, n)
    requires s.members[n].standing == Candidate ==> CandidateOk(s, n)
    ensures s.members[n].standing == Leader ==> LeaderOk(Ack(s, n, k), n)
    ensures s.members[n].standing == Candidate ==> CandidateOk(Ack(s, n, k), n)
  {
    AckedStays(s, Ack(s, n, k), n);
  }

  lemma AckRecords(s: System, n: NodeId, k: nat)
    requires CanAck(s, n, k) && AcksOk(s) && OwnEntry(s, s.members[n].term, k)
    ensures AcksMove(s, Ack(s, n, k), n)
  {
  }

  lemma AckBooks(s: System, n: NodeId, k: nat)
    requires BooksOk(s) && CanAck(s, n, k)
    requires Grounded(s, s.members[n].log)
    ensures BooksOk(Ack(s, n, k)) && Moves(s, Ack(s, n, k), n)
  {
    var s' := Ack(s, n, k);
    hide Moves, BallotsOk, BidsOk, ReignsOk, AcksOk, CandidateOk, LeaderOk, ReignOk, Grounded, AcksMove;
    AckOwn(s, n, k);
    AckMoves(s, n, k);
    AckLeader(s, n, k);
    AckRecords(s, n, k);
    BallotsStay(s, s', n);
    BidsStay(s, s', n);
    BooksStay(s, s', n);
  }

  lemma RecordLeader(s: System, l: NodeId, n: NodeId, k: nat)
    requires CanRecord(s, l, n, k) && LeaderOk(s, l)
    ensures LeaderOk(Record(s, l, n, k), l)
  {
  }

  lemma RecordBooks(s: System, l: NodeId, n: NodeId, k: nat)
    requires BooksOk(s) && CanRecord(s, l, n, k)
    ensures BooksOk(Record(s, l, n, k)) && Moves(s, Record(s, l, n, k), l)
  {
    RecordLeader(s, l, n, k);
    MemberBooks(s, Record(s, l, n, k), l);
  }

  lemma CommitStanding(s: System, n: NodeId, c: nat)
    requires n in s.members
    requires s.members[n].standing == Leader ==> LeaderOk(s, n)
    requires s.members[n].standing == Candidate ==> CandidateOk(s, n)
    ensures s.members[n].standing == Leader ==> LeaderOk(Put(s, n, s.members[n].(commit := c)), n)
    ensures s.members[n].standing == Candidate ==> CandidateOk(Put(s, n, s.members[n].(commit := c)), n)
  {
  }

  lemma CommitBooks(s: System, n: NodeId, c: nat)
    requires BooksOk(s) && n in s.members
    ensures BooksOk(Put(s, n, s.members[n].(commit := c)))
    ensures Moves(s, Put(s, n, s.members[n].(commit := c)), n)
  {
    CommitStanding(s, n, c);
    MemberBooks(s, Put(s, n, s.members[n].(commit := c)), n);
  }

  lemma CrashBooks(s: System, n: NodeId, c: nat)
    requires BooksOk(s) && CanCrash(s, n, c)
    ensures BooksOk(Crash(s, n, c)) && Moves(s, Crash(s, n, c), n)
  {
    MemberBooks(s, Crash(s, n, c), n);
  }

  /** Replacing a follower's log. */
  lemma LogBooks(s: System, n: NodeId, log: seq<Entry>)
    requires BooksOk(s) && n in s.members && s.members[n].standing == Follower
    requires TermsBelow(log, s.members[n].term + 1)
    ensures BooksOk(Put(s, n, s.members[n].(log := log)))
    ensures Moves(s, Put(s, n, s.members[n].(log := log)), n)
  {
    MemberBooks(s, Put(s, n, s.members[n].(log := log)), n);
  }

  // ------------------------------------------------------------------
  // Grounding
  // ------------------------------------------------------------------

  lemma GroundsStay(s: System, s': System, n: NodeId)
    requires GroundsOk(s) && Moves(s, s', n)
    requires Grounded(s', s'.members[n].log)
    requires forall t, c {:trigger (t, c) in s'.bids} ::
      (t, c) in s'.bids && (t, c) !in s.bids
      ==> s'.bids[(t, c)] == s'.members[n].log
    requires forall t ::
      t in s'.reigns && (t !in s.reigns || s'.reigns[t] != s.reigns[t])
      ==> s'.reigns[t].log == s'.members[n].log
    ensures GroundsOk(s')
  {
    forall m | m in s'.members ensures Grounded(s', s'.members[m].log) {
      if m != n {
        GroundedStays(s, s', s.members[m].log);
      }
    }
    forall t, c | (t, c) in s'.bids ensures Grounded(s', s'.bids[(t, c)]) {
      if (t, c) in s.bids {
        GroundedStays(s, s', s.bids[(t, c)]);
      }
    }
    forall t | t in s'.reigns ensures Grounded(s', s'.reigns[t].log) {
      if t in s.reigns && s'.reigns[t] == s.reigns[t] {
        GroundedStays(s, s', s.reigns[t].log);
      }
    }
  }

  /** A step that leaves the stepping member's log alone. */
  lemma QuietGrounds(s: System, s': System, n: NodeId)
    requires GroundsOk(s) && Moves(s, s', n) && s'.members[n].log == s.members[n].log
    requires s'.reigns == s.reigns
    requires forall t, c {:trigger (t, c) in s'.bids} ::
      (t, c) in s'.bids && (t, c) !in s.bids
      ==> s'.bids[(t, c)] == s'.members[n].log
    ensures GroundsOk(s')
  {
    GroundedStays(s, s', s.members[n].log);
    GroundsStay(s, s', n);
  }

  /** A leader's new entry is grounded in its own reign. */
  lemma AppendGrounds(s: System, s': System, n: NodeId, e: Entry)
    requires GroundsOk(s) && Moves(s, s', n)
    requires s'.members[n].log == s.members[n].log + [e]
    requires e.term in s'.reigns && s'.reigns[e.term].log == s'.members[n].log
    requires forall t :: t in s'.reigns && t != e.term ==> t in s.reigns && s'.reigns[t] == s.reigns[t]
    requires s'.bids == s.bids
    ensures GroundsOk(s')
  {
    GroundedStays(s, s', s.members[n].log);
    GroundedAppend(s', s.members[n].log, e);
    GroundsStay(s, s', n);
  }

  /** A prefix of a grounded log replaces the member's log. */
  lemma PrefixGrounds(s: System, s': System, n: NodeId, log: seq<Entry>, j: nat)
    requires GroundsOk(s) && Moves(s, s', n) && Grounded(s, log) && j <= |log|
    requires s'.members[n].log == log[..j] && s'.reigns == s.reigns && s'.bids == s.bids
    ensures GroundsOk(s')
  {
    GroundedPrefix(s, log, j);
    GroundedStays(s, s', log[..j]);
    GroundsStay(s, s', n);
  }
}
