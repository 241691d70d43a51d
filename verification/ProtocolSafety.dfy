/** Every protocol step keeps the safety half of the invariant. */
module ProtocolSafety {
  import opened Base
  import opened Quorums
  import opened Protocol
  import opened ProtocolHistory

  /** Only the stepping member may acknowledge, and only in the term it is in. */
  ghost predicate FreshAcks(s: System, s': System, n: NodeId) {
    && n in s.members && n in s'.members
    && forall t, m {:trigger AckedTo(s', t, m)} :: AckedTo(s', t, m) != AckedTo(s, t, m)
         ==> m == n && t == s.members[n].term && t == s'.members[n].term
  }

  /** New entries of a reign belong to the stepping member's current term. */
  ghost predicate FreshEntries(s: System, s': System, n: NodeId) {
    && n in s'.members
    && forall t: nat, k: nat :: OwnEntry(s', t, k) && !OwnEntry(s, t, k) ==> t == s'.members[n].term
  }

  /** An acknowledged own entry was already there before the step, unless the stepping member just made it. */
  lemma AckedEntry(s: System, s': System, n: NodeId, t: nat, m: NodeId, k: nat)
    requires Moves(s, s', n) && AcksOk(s) && Acked(s, t, m, k) && OwnEntry(s', t, k)
    ensures OwnEntry(s, t, k)
  {
    assert (t, m) in s.acks;
    assert s.reigns[t].log[k - 1] == s'.reigns[t].log[k - 1];
  }

  /** Nothing opens for an old entry. */
  lemma OpenStays(s: System, s': System, n: NodeId, t: nat, k: nat)
    requires Moves(s, s', n) && FreshAcks(s, s', n) && OwnEntry(s, t, k) && Open(s', t, k)
    ensures Open(s, t, k)
  {
    forall v | v in Holders(s', t, k) ensures v in Holders(s, t, k) {
      if !Acked(s, t, v, k) && Acked(s', t, v, k) {
        assert AckedTo(s', t, v) != AckedTo(s, t, v);
      }
    }
    MajorityGrows(Holders(s', t, k), Holders(s, t, k), s.voters);
  }

  /** An entry added to a reign after a later leader was elected can never be committed. */
  lemma LateEntryClosed(s: System, s': System, n: NodeId, t: nat, k: nat, u: nat)
    requires Moves(s, s', n) && FreshAcks(s, s', n) && FreshEntries(s, s', n)
    requires AcksOk(s) && BallotsOk(s') && u in s'.reigns && ReignOk(s', u)
    requires OwnEntry(s', t, k) && !OwnEntry(s, t, k) && u > t
    ensures !Open(s', t, k)
  {
    if Open(s', t, k) {
      var v := MajoritiesMeet(Holders(s', t, k), s'.reigns[u].electors, s'.voters);
      assert (u, v) in s'.ballots;
      assert Acked(s', t, v, k) && v != n;
      assert AckedTo(s', t, v) == AckedTo(s, t, v);
      AckedEntry(s, s', n, t, v, k);
    }
  }

  lemma AgreeGrows(a: seq<Entry>, b: seq<Entry>, b': seq<Entry>, k: nat)
    requires Agree(a, b, k) && b <= b'
    ensures Agree(a, b', k)
  {
    assert b == b'[..|b|];
    assert b'[..k] == b[..k];
  }

  lemma AgreeBothGrow(a: seq<Entry>, a': seq<Entry>, b: seq<Entry>, b': seq<Entry>, k: nat)
    requires Agree(a, b, k) && a <= a' && b <= b'
    ensures Agree(a', b', k)
  {
    AgreeGrows(a, b, b', k);
    assert a == a'[..|a|];
    assert a'[..k] == a[..k];
  }

  lemma HoldersStay(s: System, s': System, n: NodeId)
    requires HoldersKeep(s) && Moves(s, s', n) && FreshAcks(s, s', n) && AcksOk(s)
    requires forall t: nat, k: nat {:trigger Open(s', t, k)} ::
      Open(s', t, k) && Acked(s', t, n, k)
      ==> Agree(s'.members[n].log, s'.reigns[t].log, k)
    ensures HoldersKeep(s')
  {
    forall t: nat, k: nat, m | Open(s', t, k) && m in s'.members && Acked(s', t, m, k)
      ensures Agree(s'.members[m].log, s'.reigns[t].log, k)
    {
      if m != n {
        assert AckedTo(s', t, m) == AckedTo(s, t, m);
        AckedEntry(s, s', n, t, m, k);
        OpenStays(s, s', n, t, k);
        AgreeGrows(s.members[m].log, s.reigns[t].log, s'.reigns[t].log, k);
      }
    }
  }

  lemma ReignKept(s: System, s': System, n: NodeId, t: nat, k: nat, u: nat)
    requires Moves(s, s', n) && FreshAcks(s, s', n) && FreshEntries(s, s', n)
    requires AcksOk(s) && BallotsOk(s')
    requires Open(s', t, k) && u in s'.reigns && u > t && ReignOk(s', u)
    requires Open(s, t, k) && u in s.reigns ==> Agree(s.reigns[u].log, s.reigns[t].log, k)
    requires Open(s, t, k) && u !in s.reigns ==> Agree(s'.reigns[u].log, s.reigns[t].log, k)
    ensures Agree(s'.reigns[u].log, s'.reigns[t].log, k)
  {
    if !OwnEntry(s, t, k) {
      LateEntryClosed(s, s', n, t, k, u);
    } else {
      OpenStays(s, s', n, t, k);
      var a := if u in s.reigns then s.reigns[u].log else s'.reigns[u].log;
      AgreeBothGrow(a, s'.reigns[u].log, s.reigns[t].log, s'.reigns[t].log, k);
    }
  }

  lemma ReignsKeepStays(s: System, s': System, n: NodeId)
    requires ReignsKeep(s) && Moves(s, s', n) && FreshAcks(s, s', n) && FreshEntries(s, s', n)
    requires AcksOk(s) && BallotsOk(s') && ReignsOk(s')
    requires forall t: nat, k: nat, u {:trigger Open(s, t, k), u in s'.reigns} ::
      Open(s, t, k) && u in s'.reigns && u !in s.reigns && u > t
      ==> Agree(s'.reigns[u].log, s.reigns[t].log, k)
    ensures ReignsKeep(s')
  {
    forall t: nat, k: nat, u | Open(s', t, k) && u in s'.reigns && u > t
      ensures Agree(s'.reigns[u].log, s'.reigns[t].log, k)
    {
      ReignKept(s, s', n, t, k, u);
    }
  }

  lemma BallotsKeepStays(s: System, s': System, n: NodeId)
    requires BallotsKeep(s) && Moves(s, s', n) && FreshAcks(s, s', n)
    requires AcksOk(s) && BallotsOk(s) && BallotsOk(s')
    requires forall t: nat, k: nat, u: nat {:trigger Open(s, t, k), (u, n) in s'.ballots} ::
      Open(s, t, k) && (u, n) in s'.ballots && (u, n) !in s.ballots && u > t && Acked(s, t, n, k)
      ==> Agree(s'.bids[(u, s'.ballots[(u, n)])], s.reigns[t].log, k)
    requires forall b :: b in s'.ballots && b !in s.ballots ==> b.1 == n
    ensures BallotsKeep(s')
  {
    forall t: nat, k: nat, u: nat, m | Open(s', t, k) && (u, m) in s'.ballots && u > t && Acked(s', t, m, k)
      && (u, s'.ballots[(u, m)]) in s'.bids
      ensures Agree(s'.bids[(u, s'.ballots[(u, m)])], s'.reigns[t].log, k)
    {
      BallotKeepStays(s, s', n, t, k, u, m);
    }
  }

  /** A ballot that was there keeps its bid; a new one is by `n`. */
  lemma BallotBid(s: System, s': System, n: NodeId, t: nat, k: nat, u: nat, m: NodeId)
    requires BallotsKeep(s) && Moves(s, s', n) && BallotsOk(s) && (u, m) in s.ballots
    requires Open(s, t, k) && u > t && Acked(s, t, m, k) && (u, s'.ballots[(u, m)]) in s'.bids
    ensures Agree(s'.bids[(u, s'.ballots[(u, m)])], s.reigns[t].log, k)
  {
    hide Open, Acked;
    assert s'.ballots[(u, m)] == s.ballots[(u, m)];
  }

  lemma BallotKeepStays(s: System, s': System, n: NodeId, t: nat, k: nat, u: nat, m: NodeId)
    requires BallotsKeep(s) && Moves(s, s', n) && FreshAcks(s, s', n)
    requires AcksOk(s) && BallotsOk(s) && BallotsOk(s')
    requires Open(s', t, k) && (u, m) in s'.ballots && u > t && Acked(s', t, m, k) && (u, s'.ballots[(u, m)]) in s'.bids
    requires m == n || (u, m) in s.ballots
    requires Open(s, t, k) && (u, m) !in s.ballots && Acked(s, t, n, k)
             ==> Agree(s'.bids[(u, s'.ballots[(u, n)])], s.reigns[t].log, k)
    ensures Agree(s'.bids[(u, s'.ballots[(u, m)])], s'.reigns[t].log, k)
  {
    assert AckedTo(s', t, m) == AckedTo(s, t, m);
    AckedEntry(s, s', n, t, m, k);
    OpenStays(s, s', n, t, k);
    var b := s'.bids[(u, s'.ballots[(u, m)])];
    if (u, m) in s.ballots {
      BallotBid(s, s', n, t, k, u, m);
    }
    AgreeGrows(b, s.reigns[t].log, s'.reigns[t].log, k);
  }

  // ------------------------------------------------------------------
  // Commit indices
  // ------------------------------------------------------------------

  lemma ChosenOpen(s: System, t: nat, k: nat)
    requires Chosen(s, t, k)
    ensures Open(s, t, k)
  {
    MajorityGrows(Keepers(s, t, k), Holders(s, t, k), s.voters);
  }

  /** What is chosen stays chosen. */
  lemma ChosenStays(s: System, s': System, t: nat, k: nat)
    requires Later(s, s') && Chosen(s, t, k)
    ensures Chosen(s', t, k)
  {
    forall v | v in Keepers(s, t, k) ensures v in Keepers(s', t, k) {
      assert AckedTo(s, t, v) <= AckedTo(s', t, v);
    }
    MajorityGrows(Keepers(s, t, k), Keepers(s', t, k), s.voters);
    assert s.reigns[t].log[k - 1] == s'.reigns[t].log[k - 1];
  }

  lemma SettledStays(s: System, s': System, bound: nat, bound': nat, log: seq<Entry>, c: nat)
    requires Later(s, s') && bound <= bound' && Settled(s, bound, log, c)
    ensures Settled(s', bound', log, c)
  {
    if c > 0 {
      var t: nat, k: nat :| t <= bound && Covers(s, t, k, log, c);
      ChosenStays(s, s', t, k);
      AgreeGrows(log, s.reigns[t].log, s'.reigns[t].log, c);
      assert Covers(s', t, k, log, c);
    }
  }

  lemma AgreeTransitive(a: seq<Entry>, b: seq<Entry>, d: seq<Entry>, k: nat)
    requires Agree(a, b, k) && Agree(b, d, k)
    ensures Agree(a, d, k)
  {
  }

  /** Settledness only looks at the first `c` entries. */
  lemma SettledAgree(s: System, bound: nat, log: seq<Entry>, log': seq<Entry>, c: nat)
    requires Settled(s, bound, log, c) && Agree(log', log, c)
    ensures Settled(s, bound, log', c)
  {
    if c > 0 {
      var t: nat, k: nat :| t <= bound && Covers(s, t, k, log, c);
      AgreeTransitive(log', log, s.reigns[t].log, c);
      assert Covers(s, t, k, log', c);
    }
  }

  /** Whatever is settled by term `u` is in the log of `u`'s leader. */
  lemma SettledInReign(s: System, u: nat, log: seq<Entry>, c: nat)
    requires ReignsKeep(s) && u in s.reigns && Settled(s, u, log, c)
    ensures Agree(log, s.reigns[u].log, c)
  {
    if c > 0 {
      var t: nat, k: nat :| t <= u && Covers(s, t, k, log, c);
      ChosenOpen(s, t, k);
      if t < u {
        AgreeShorter(s.reigns[u].log, s.reigns[t].log, k, c);
        AgreeTransitive(log, s.reigns[t].log, s.reigns[u].log, c);
      }
    }
  }

  lemma CommitsStay(s: System, s': System, n: NodeId)
    requires CommitsOk(s) && Moves(s, s', n)
    requires Settled(s', s'.members[n].term, s'.members[n].log, s'.members[n].commit)
    ensures CommitsOk(s')
  {
    MovesLater(s, s', n);
    forall m | m in s'.members
      ensures Settled(s', s'.members[m].term, s'.members[m].log, s'.members[m].commit)
    {
      if m != n {
        SettledStays(s, s', s.members[m].term, s.members[m].term, s.members[m].log, s.members[m].commit);
      }
    }
  }

  // ------------------------------------------------------------------
  // Steps that touch neither logs nor acknowledgements
  // ------------------------------------------------------------------

  /** Everything but ballots and bids is as before, up to the stepping member's flags. */
  ghost predicate Quiet(s: System, s': System, n: NodeId) {
    && Moves(s, s', n) && s'.acks == s.acks && s'.reigns == s.reigns
    && s'.members[n].log == s.members[n].log
  }

  lemma QuietFresh(s: System, s': System, n: NodeId)
    requires Quiet(s, s', n)
    ensures FreshAcks(s, s', n) && FreshEntries(s, s', n)
  {
    forall t: nat, m: nat ensures AckedTo(s', t, m) == AckedTo(s, t, m) {}
  }

  lemma QuietHolders(s: System, s': System, n: NodeId)
    requires Quiet(s, s', n) && HoldersKeep(s) && AcksOk(s)
    ensures HoldersKeep(s')
  {
    QuietFresh(s, s', n);
    forall t: nat, k: nat | Open(s', t, k) && Acked(s', t, n, k)
      ensures Agree(s'.members[n].log, s'.reigns[t].log, k)
    {
      OpenStays(s, s', n, t, k);
    }
    HoldersStay(s, s', n);
  }

  /** Quiet steps that cast no vote. */
  lemma QuietKeeps(s: System, s': System, n: NodeId)
    requires Quiet(s, s', n) && KeepOk(s) && BooksOk(s) && BooksOk(s') && s'.ballots == s.ballots
    ensures KeepOk(s')
  {
    QuietFresh(s, s', n);
    QuietHolders(s, s', n);
    ReignsKeepStays(s, s', n);
    BallotsKeepStays(s, s', n);
  }

  lemma QuietCommits(s: System, s': System, n: NodeId)
    requires Quiet(s, s', n) && CommitsOk(s) && s'.members[n].commit == s.members[n].commit
    ensures CommitsOk(s')
  {
    MovesLater(s, s', n);
    SettledStays(s, s', s.members[n].term, s'.members[n].term, s.members[n].log, s.members[n].commit);
    CommitsStay(s, s', n);
  }
}
