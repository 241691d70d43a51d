/** The invariant is kept by every protocol step. */
module ProtocolSteps {
  import opened Base
  import opened Quorums
  import opened Protocol
  import opened ProtocolHistory
  import opened ProtocolSafety

  /** A quiet step that casts no vote and leaves commit indices alone. */
  lemma QuietInv(s: System, s': System, n: NodeId)
    requires Inv(s) && Quiet(s, s', n) && BooksOk(s')
    requires s'.ballots == s.ballots && s'.bids == s.bids && s'.members[n].commit == s.members[n].commit
    ensures Inv(s')
  {
    QuietGrounds(s, s', n);
    QuietKeeps(s, s', n);
    QuietCommits(s, s', n);
  }

  lemma AdoptTermInv(s: System, n: NodeId, t: nat)
    requires Inv(s) && CanAdoptTerm(s, n, t)
    ensures Inv(AdoptTerm(s, n, t)) && Later(s, AdoptTerm(s, n, t))
  {
    AdoptTermBooks(s, n, t);
    MovesLater(s, AdoptTerm(s, n, t), n);
    QuietInv(s, AdoptTerm(s, n, t), n);
  }

  lemma StepDownInv(s: System, n: NodeId)
    requires Inv(s) && n in s.members
    ensures Inv(StepDown(s, n)) && Later(s, StepDown(s, n))
  {
    StepDownBooks(s, n);
    MovesLater(s, StepDown(s, n), n);
    QuietInv(s, StepDown(s, n), n);
  }

  lemma CollectInv(s: System, n: NodeId, v: NodeId)
    requires Inv(s) && CanCollect(s, n, v)
    ensures Inv(Collect(s, n, v)) && Later(s, Collect(s, n, v))
  {
    CollectBooks(s, n, v);
    MovesLater(s, Collect(s, n, v), n);
    QuietInv(s, Collect(s, n, v), n);
  }

  lemma RecordInv(s: System, l: NodeId, n: NodeId, k: nat)
    requires Inv(s) && CanRecord(s, l, n, k)
    ensures Inv(Record(s, l, n, k)) && Later(s, Record(s, l, n, k))
  {
    RecordBooks(s, l, n, k);
    MovesLater(s, Record(s, l, n, k), l);
    QuietInv(s, Record(s, l, n, k), l);
  }

  // ------------------------------------------------------------------
  // Commit index changes
  // ------------------------------------------------------------------

  lemma CommitInv(s: System, s': System, n: NodeId)
    requires Inv(s) && Quiet(s, s', n) && BooksOk(s')
    requires s'.ballots == s.ballots && s'.bids == s.bids && s'.members[n].term == s.members[n].term
    requires Settled(s, s.members[n].term, s.members[n].log, s'.members[n].commit)
    ensures Inv(s')
  {
    QuietGrounds(s, s', n);
    QuietKeeps(s, s', n);
    MovesLater(s, s', n);
    SettledStays(s, s', s.members[n].term, s.members[n].term, s.members[n].log, s'.members[n].commit);
    CommitsStay(s, s', n);
  }

  /** A majority of recorded progress at a current-term entry is a majority of acknowledgements. */
  lemma AdvanceChosen(s: System, l: NodeId, k: nat)
    requires CanAdvance(s, l, k) && LeaderOk(s, l) && ReignsOk(s) && BidsOk(s)
    ensures Chosen(s, s.members[l].term, k)
  {
    var m := s.members[l];
    var b := s.bids[(m.term, l)];
    BidPart(s, m.term);
    forall v | v in Supporters(s, l, k) ensures v in Keepers(s, m.term, k) {
      if v != l {
        assert v in m.progress && m.progress[v] >= k;
        assert m.log[m.progress[v] - 1].term == m.term;
      }
    }
    MajorityGrows(Supporters(s, l, k), Keepers(s, m.term, k), s.voters);
  }

  lemma AdvanceInv(s: System, l: NodeId, k: nat)
    requires Inv(s) && CanAdvance(s, l, k)
    ensures Inv(Advance(s, l, k)) && Later(s, Advance(s, l, k))
  {
    var m := s.members[l];
    AdvanceChosen(s, l, k);
    assert Covers(s, m.term, k, m.log, k);
    CommitBooks(s, l, k);
    MovesLater(s, Advance(s, l, k), l);
    CommitInv(s, Advance(s, l, k), l);
  }

  lemma LearnInv(s: System, n: NodeId, c: nat)
    requires Inv(s) && CanLearn(s, n, c)
    ensures Inv(Learn(s, n, c)) && Later(s, Learn(s, n, c))
  {
    var m := s.members[n];
    SettledAgree(s, m.term, s.reigns[m.term].log, m.log, c);
    CommitBooks(s, n, c);
    MovesLater(s, Learn(s, n, c), n);
    CommitInv(s, Learn(s, n, c), n);
  }

  lemma SettledShorter(s: System, bound: nat, log: seq<Entry>, c: nat, c': nat)
    requires Settled(s, bound, log, c) && c' <= c
    ensures Settled(s, bound, log, c')
  {
    if c' > 0 {
      var t: nat, k: nat :| t <= bound && Covers(s, t, k, log, c);
      AgreeShorter(log, s.reigns[t].log, c, c');
      assert Covers(s, t, k, log, c');
    }
  }

  lemma CrashInv(s: System, n: NodeId, c: nat)
    requires Inv(s) && CanCrash(s, n, c)
    ensures Inv(Crash(s, n, c)) && Later(s, Crash(s, n, c))
  {
    var m := s.members[n];
    SettledShorter(s, m.term, m.log, m.commit, c);
    CrashBooks(s, n, c);
    MovesLater(s, Crash(s, n, c), n);
    CommitInv(s, Crash(s, n, c), n);
  }

  // ------------------------------------------------------------------
  // Votes
  // ------------------------------------------------------------------

  /** A quiet step that casts the one vote `(u, n)`. */
  lemma VoteInv(s: System, s': System, n: NodeId, u: nat)
    requires Inv(s) && Quiet(s, s', n) && BooksOk(s') && s'.members[n].commit == s.members[n].commit
    requires forall t, c {:trigger (t, c) in s'.bids} ::
      (t, c) in s'.bids && (t, c) !in s.bids
      ==> s'.bids[(t, c)] == s.members[n].log
    requires forall b :: b in s'.ballots && b !in s.ballots ==> b == (u, n)
    requires (u, n) in s'.ballots
    requires forall t: nat, k: nat ::
      Open(s, t, k) && u > t && Acked(s, t, n, k)
      ==> Agree(s'.bids[(u, s'.ballots[(u, n)])], s.reigns[t].log, k)
    ensures Inv(s')
  {
    QuietGrounds(s, s', n);
    QuietCommits(s, s', n);
    QuietHolders(s, s', n);
    QuietFresh(s, s', n);
    ReignsKeepStays(s, s', n);
    BallotsKeepStays(s, s', n);
  }

  lemma StandInv(s: System, n: NodeId)
    requires Inv(s) && n in s.members
    ensures Inv(Stand(s, n)) && Later(s, Stand(s, n))
  {
    StandBooks(s, n);
    MovesLater(s, Stand(s, n), n);
    VoteInv(s, Stand(s, n), n, s.members[n].term + 1);
  }

  /** Entries of a grounded log have terms no greater than its last. */
  lemma GroundedTerms(s: System, log: seq<Entry>, i: nat)
    requires Grounded(s, log) && ReignsOk(s) && BidsOk(s) && i < |log|
    ensures log[i].term <= LastTerm(log)
  {
    var u := LastTerm(log);
    assert log[|log| - 1].term == u;
    assert Agree(log, s.reigns[u].log, |log|);
    AgreeAt(log, s.reigns[u].log, |log|, i);
    assert ReignOk(s, u);
    BidPart(s, u);
  }

  /** A log whose last entry is of term `u` is a prefix of `u`'s reign. */
  lemma GroundedTail(s: System, log: seq<Entry>)
    requires Grounded(s, log) && |log| > 0
    ensures LastTerm(log) in s.reigns && Agree(log, s.reigns[LastTerm(log)].log, |log|)
  {
    assert log[|log| - 1].term == LastTerm(log);
  }

  /**
   The up-to-date check: a candidate at least as up to date as a voter that holds an
   entry which may be committed holds that entry as well.
   */
  lemma UpToDateHolds(s: System, candidate: seq<Entry>, voter: seq<Entry>, t: nat, k: nat)
    requires ReignsOk(s) && BidsOk(s) && ReignsKeep(s) && Grounded(s, candidate) && Grounded(s, voter)
    requires UpToDate(candidate, voter) && Open(s, t, k) && Agree(voter, s.reigns[t].log, k)
    ensures Agree(candidate, s.reigns[t].log, k)
  {
    hide Majority, Holders, BidsOk, ReignOk;
    AgreeAt(voter, s.reigns[t].log, k, k - 1);
    GroundedTerms(s, voter, k - 1);
    GroundedTail(s, voter);
    GroundedTail(s, candidate);
    var u := LastTerm(candidate);
    var r := s.reigns[u].log;
    if u == LastTerm(voter) {
      AgreeShorter(candidate, r, |candidate|, k);
      AgreeShorter(voter, r, |voter|, k);
    } else {
      assert Agree(r, s.reigns[t].log, k);
      assert |candidate| >= k by {
        if |candidate| < k {
          AgreeAt(candidate, r, |candidate|, |candidate| - 1);
          AgreeAt(r, s.reigns[t].log, k, |candidate| - 1);
          OwnTerms(s, t, |candidate| - 1);
          assert false;
        }
      }
      AgreeShorter(candidate, r, |candidate|, k);
    }
  }

  lemma OwnTerms(s: System, t: nat, i: nat)
    requires ReignsOk(s) && BidsOk(s) && t in s.reigns && i < |s.reigns[t].log|
    ensures s.reigns[t].log[i].term <= t
  {
    assert ReignOk(s, t);
    var r, b := s.reigns[t].log, s.bids[(t, s.reigns[t].leader)];
    if i < |b| {
      assert r[i] == r[..|b|][i] == b[i];
    }
  }

  lemma CastKeeps(s: System, n: NodeId, c: NodeId)
    requires Inv(s) && CanCast(s, n, c)
    ensures forall t: nat, k: nat ::
      Open(s, t, k) && s.members[n].term > t && Acked(s, t, n, k)
      ==> Agree(s.bids[(s.members[n].term, c)], s.reigns[t].log, k)
  {
    var m := s.members[n];
    var b := s.bids[(m.term, c)];
    assert Grounded(s, b) && Grounded(s, m.log);
    forall t: nat, k: nat | Open(s, t, k) && m.term > t && Acked(s, t, n, k)
      ensures Agree(b, s.reigns[t].log, k)
    {
      UpToDateHolds(s, b, m.log, t, k);
    }
  }

  lemma CastInv(s: System, n: NodeId, c: NodeId)
    requires Inv(s) && CanCast(s, n, c)
    ensures Inv(Cast(s, n, c)) && Later(s, Cast(s, n, c))
  {
    CastBooks(s, n, c);
    CastKeeps(s, n, c);
    MovesLater(s, Cast(s, n, c), n);
    VoteInv(s, Cast(s, n, c), n, s.members[n].term);
  }

  // ------------------------------------------------------------------
  // Leaders appending
  // ------------------------------------------------------------------

  /** The stepping member's log and reign grow by one entry, which it acknowledges at once. */
  ghost predicate Appends(s: System, s': System, n: NodeId, e: Entry) {
    && Moves(s, s', n) && e.term == s.members[n].term == s'.members[n].term
    && s'.members[n].log == s.members[n].log + [e]
    && s'.members[n].commit == s.members[n].commit
    && s'.ballots == s.ballots && s'.bids == s.bids
    && e.term in s'.reigns && s'.reigns[e.term].log == s'.members[n].log
    && (forall t :: t in s'.reigns && t != e.term ==> t in s.reigns && s'.reigns[t] == s.reigns[t])
    && (forall t, m {:trigger (t, m) in s'.acks} :: (t, m) != (e.term, n) ==>
          ((t, m) in s'.acks <==> (t, m) in s.acks)
          && ((t, m) in s.acks ==> s'.acks[(t, m)] == s.acks[(t, m)]))
  }

  lemma AppendsFresh(s: System, s': System, n: NodeId, e: Entry)
    requires Appends(s, s', n, e)
    ensures FreshAcks(s, s', n) && FreshEntries(s, s', n)
  {
    forall t: nat, m: nat ensures (t, m) != (e.term, n) ==> AckedTo(s', t, m) == AckedTo(s, t, m) {
      assert (t, m) != (e.term, n) ==> ((t, m) in s'.acks <==> (t, m) in s.acks);
    }
  }

  lemma AppendsHolders(s: System, s': System, n: NodeId, e: Entry)
    requires Appends(s, s', n, e) && HoldersKeep(s) && AcksOk(s)
    ensures HoldersKeep(s')
  {
    AppendsFresh(s, s', n, e);
    forall t: nat, k: nat | Open(s', t, k) && Acked(s', t, n, k)
      ensures Agree(s'.members[n].log, s'.reigns[t].log, k)
    {
      if t != e.term {
        assert OwnEntry(s, t, k);
        OpenStays(s, s', n, t, k);
        assert Agree(s.members[n].log, s.reigns[t].log, k);
        AgreeBothGrow(s.members[n].log, s'.members[n].log, s.reigns[t].log, s'.reigns[t].log, k);
      }
    }
    HoldersStay(s, s', n);
  }

  lemma AppendsInv(s: System, s': System, n: NodeId, e: Entry)
    requires Inv(s) && Appends(s, s', n, e) && BooksOk(s')
    requires forall t: nat, k: nat ::
      Open(s, t, k) && e.term !in s.reigns && e.term > t
      ==> Agree(s.members[n].log, s.reigns[t].log, k)
    ensures Inv(s')
  {
    AppendGrounds(s, s', n, e);
    AppendsHolders(s, s', n, e);
    AppendsFresh(s, s', n, e);
    forall t: nat, k: nat, u | Open(s, t, k) && u in s'.reigns && u !in s.reigns && u > t
      ensures Agree(s'.reigns[u].log, s.reigns[t].log, k)
    {
      AgreeBothGrow(s.members[n].log, s'.members[n].log, s.reigns[t].log, s.reigns[t].log, k);
    }
    ReignsKeepStays(s, s', n);
    BallotsKeepStays(s, s', n);
    AppendsCommits(s, s', n, e);
  }

  lemma AppendsCommits(s: System, s': System, n: NodeId, e: Entry)
    requires CommitsOk(s) && Appends(s, s', n, e)
    ensures CommitsOk(s')
  {
    var m, m' := s.members[n], s'.members[n];
    MovesLater(s, s', n);
    SettledStays(s, s', m.term, m'.term, m.log, m.commit);
    SettledLength(s, m.term, m.log, m.commit);
    assert m'.log[..m.commit] == m.log[..m.commit];
    SettledAgree(s', m'.term, m.log, m'.log, m.commit);
    CommitsStay(s, s', n);
  }

  lemma SettledLength(s: System, bound: nat, log: seq<Entry>, c: nat)
    requires Settled(s, bound, log, c)
    ensures c <= |log|
  {
  }

  /** A newly elected leader's log holds every entry that may be committed in an earlier term. */
  lemma ElectKeeps(s: System, n: NodeId, e: Entry)
    requires Inv(s) && CanElect(s, n, e)
    ensures forall t: nat, k: nat :: Open(s, t, k) && e.term > t ==> Agree(s.members[n].log, s.reigns[t].log, k)
  {
    var m := s.members[n];
    assert CandidateOk(s, n);
    forall t: nat, k: nat | Open(s, t, k) && e.term > t
      ensures Agree(m.log, s.reigns[t].log, k)
    {
      var v := MajoritiesMeet(m.votes, Holders(s, t, k), s.voters);
      assert (m.term, v) in s.ballots && s.ballots[(m.term, v)] == n;
      assert Acked(s, t, v, k);
    }
  }

  lemma ElectAppends(s: System, n: NodeId, e: Entry)
    requires CanElect(s, n, e) && Moves(s, Elect(s, n, e), n)
    ensures Appends(s, Elect(s, n, e), n, e)
  {
  }

  lemma ElectInv(s: System, n: NodeId, e: Entry)
    requires Inv(s) && CanElect(s, n, e)
    ensures Inv(Elect(s, n, e)) && Later(s, Elect(s, n, e))
  {
    ElectBooks(s, n, e);
    MovesLater(s, Elect(s, n, e), n);
    ElectAppends(s, n, e);
    ElectKeeps(s, n, e);
    AppendsInv(s, Elect(s, n, e), n, e);
  }

  lemma ProposeAppends(s: System, n: NodeId, e: Entry)
    requires CanPropose(s, n, e) && Moves(s, Propose(s, n, e), n)
    ensures Appends(s, Propose(s, n, e), n, e)
  {
  }

  lemma ProposeInv(s: System, n: NodeId, e: Entry)
    requires Inv(s) && CanPropose(s, n, e)
    ensures Inv(Propose(s, n, e)) && Later(s, Propose(s, n, e))
  {
    ProposeBooks(s, n, e);
    MovesLater(s, Propose(s, n, e), n);
    ProposeAppends(s, n, e);
    AppendsInv(s, Propose(s, n, e), n, e);
  }

  // ------------------------------------------------------------------
  // Acknowledging
  // ------------------------------------------------------------------

  lemma AckFresh(s: System, n: NodeId, k: nat)
    requires CanAck(s, n, k)
    ensures FreshAcks(s, Ack(s, n, k), n) && FreshEntries(s, Ack(s, n, k), n)
  {
    var s', t := Ack(s, n, k), s.members[n].term;
    forall u: nat, m: nat | AckedTo(s', u, m) != AckedTo(s, u, m) ensures u == t && m == n {
      assert (u, m) != (t, n) ==> AckedTo(s', u, m) == AckedTo(s, u, m);
    }
    forall u: nat, j: nat ensures OwnEntry(s', u, j) == OwnEntry(s, u, j) {}
  }

  lemma AckHolders(s: System, n: NodeId, k: nat)
    requires CanAck(s, n, k) && HoldersKeep(s) && AcksOk(s) && Grounded(s, s.members[n].log)
    requires Moves(s, Ack(s, n, k), n)
    ensures HoldersKeep(Ack(s, n, k))
  {
    var s', m := Ack(s, n, k), s.members[n];
    AckFresh(s, n, k);
    assert m.log[k - 1].term == m.term;
    assert Agree(m.log, s.reigns[m.term].log, k);
    forall u: nat, j: nat | Open(s', u, j) && Acked(s', u, n, j)
      ensures Agree(s'.members[n].log, s'.reigns[u].log, j)
    {
      assert OwnEntry(s, u, j);
      OpenStays(s, s', n, u, j);
      if u == m.term && j <= k {
        AgreeShorter(m.log, s.reigns[m.term].log, k, j);
      } else {
        assert Acked(s, u, n, j);
      }
    }
    HoldersStay(s, s', n);
  }

  lemma AckInv(s: System, n: NodeId, k: nat)
    requires Inv(s) && CanAck(s, n, k)
    ensures Inv(Ack(s, n, k)) && Later(s, Ack(s, n, k))
  {
    var s' := Ack(s, n, k);
    assert Grounded(s, s.members[n].log);
    AckBooks(s, n, k);
    MovesLater(s, s', n);
    AckFresh(s, n, k);
    AckHolders(s, n, k);
    QuietGrounds(s, s', n);
    ReignsKeepStays(s, s', n);
    BallotsKeepStays(s, s', n);
    SettledStays(s, s', s.members[n].term, s.members[n].term, s.members[n].log, s.members[n].commit);
    CommitsStay(s, s', n);
  }

  // ------------------------------------------------------------------
  // Followers copying and truncating
  // ------------------------------------------------------------------

  /** Only the stepping follower's log differs. */
  ghost predicate Replaces(s: System, s': System, n: NodeId, log: seq<Entry>) {
    n in s.members && s.members[n].standing == Follower && s' == Put(s, n, s.members[n].(log := log))
  }

  /** Everything of the old log that may be committed or is settled is also in the new one. */
  ghost predicate KeepsShared(s: System, n: NodeId, log: seq<Entry>) {
    && Follows(s, n)
    && forall k: nat :: Agree(s.members[n].log, s.reigns[s.members[n].term].log, k) ==> Agree(log, s.members[n].log, k)
  }

  lemma ReplaceHolders(s: System, s': System, n: NodeId, log: seq<Entry>)
    requires Replaces(s, s', n, log) && KeepsShared(s, n, log) && Moves(s, s', n)
    requires HoldersKeep(s) && ReignsKeep(s) && AcksOk(s)
    ensures HoldersKeep(s')
  {
    var m := s.members[n];
    forall t: nat, v: nat ensures AckedTo(s', t, v) == AckedTo(s, t, v) {}
    forall t: nat, k: nat | Open(s', t, k) && Acked(s', t, n, k)
      ensures Agree(s'.members[n].log, s'.reigns[t].log, k)
    {
      OpenStays(s, s', n, t, k);
      assert (t, n) in s.acks && t <= m.term;
      assert Agree(m.log, s.reigns[t].log, k);
      assert Agree(m.log, s.reigns[m.term].log, k);
      AgreeTransitive(log, m.log, s.reigns[t].log, k);
    }
    HoldersStay(s, s', n);
  }

  lemma ReplaceKeeps(s: System, s': System, n: NodeId, log: seq<Entry>)
    requires Replaces(s, s', n, log) && KeepsShared(s, n, log) && Moves(s, s', n)
    requires KeepOk(s) && BooksOk(s) && BooksOk(s')
    ensures KeepOk(s')
  {
    forall t: nat, v: nat ensures AckedTo(s', t, v) == AckedTo(s, t, v) {}
    forall t: nat, k: nat ensures OwnEntry(s', t, k) == OwnEntry(s, t, k) {}
    ReplaceHolders(s, s', n, log);
    ReignsKeepStays(s, s', n);
    BallotsKeepStays(s, s', n);
  }

  lemma ReplaceCommits(s: System, s': System, n: NodeId, log: seq<Entry>)
    requires Replaces(s, s', n, log) && KeepsShared(s, n, log) && Moves(s, s', n)
    requires CommitsOk(s) && ReignsKeep(s)
    ensures CommitsOk(s')
  {
    var m := s.members[n];
    SettledInReign(s, m.term, m.log, m.commit);
    SettledAgree(s, m.term, m.log, log, m.commit);
    MovesLater(s, s', n);
    SettledStays(s, s', m.term, m.term, log, m.commit);
    CommitsStay(s, s', n);
  }

  lemma ReplaceInv(s: System, n: NodeId, log: seq<Entry>, base: seq<Entry>, j: nat)
    requires Inv(s) && Follows(s, n) && KeepsShared(s, n, log)
    requires Grounded(s, base) && j <= |base| && log == base[..j]
    requires TermsBelow(log, s.members[n].term + 1)
    ensures Inv(Put(s, n, s.members[n].(log := log))) && Later(s, Put(s, n, s.members[n].(log := log)))
  {
    var s' := Put(s, n, s.members[n].(log := log));
    LogBooks(s, n, log);
    MovesLater(s, s', n);
    PrefixGrounds(s, s', n, base, j);
    ReplaceKeeps(s, s', n, log);
    ReplaceCommits(s, s', n, log);
  }

  lemma ExtendInv(s: System, n: NodeId, j: nat)
    requires Inv(s) && CanExtend(s, n, j)
    ensures Inv(Extend(s, n, j)) && Later(s, Extend(s, n, j))
  {
    var m := s.members[n];
    var r := s.reigns[m.term].log;
    var log := r[..j];
    assert Grounded(s, r);
    forall k: nat | Agree(m.log, r, k) ensures Agree(log, m.log, k) {
      assert log[..k] == r[..k];
    }
    forall i | 0 <= i < |log| ensures log[i].term < m.term + 1 {
      OwnTerms(s, m.term, i);
    }
    ReplaceInv(s, n, log, r, j);
  }

  lemma TruncateInv(s: System, n: NodeId, j: nat)
    requires Inv(s) && CanTruncate(s, n, j)
    ensures Inv(Truncate(s, n, j)) && Later(s, Truncate(s, n, j))
  {
    hide KeepOk, CommitsOk, Later;
    var m := s.members[n];
    assert Grounded(s, m.log);
    forall k: nat | Agree(m.log, s.reigns[m.term].log, k) ensures Agree(m.log[..j], m.log, k) {
      assert m.log[..j][..k] == m.log[..k];
    }
    ReplaceInv(s, n, m.log[..j], m.log, j);
  }
}
