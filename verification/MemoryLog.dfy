/**
 The in-memory log: a vector of entries with separately kept start and end
 offsets, which together should be one contiguous sequence.
 */
module MemoryLog {

  datatype LogEntry = LogEntry(offset: nat, term: nat, payload: seq<bv8>)

  datatype Log = Log(entries: seq<LogEntry>, start: nat, end: nat)

  /** The entries are numbered from the start offset to the end offset without gap. */
  ghost predicate Contiguous(log: Log) {
    && log.end == log.start + |log.entries|
    && forall i :: 0 <= i < |log.entries| ==> log.entries[i].offset == log.start + i
  }

  // ------------------------------------------------------------------
  // Changing the log
  // ------------------------------------------------------------------

  /** The entries below (`keepLow`) or from `at` on. */
  function Retain(entries: seq<LogEntry>, at: nat, keepLow: bool): seq<LogEntry> {
    if entries == [] then []
    else (if (entries[0].offset < at) == keepLow then [entries[0]] else []) + Retain(entries[1..], at, keepLow)
  }

  function Appended(log: Log, more: seq<LogEntry>): Log {
    Log(log.entries + more, log.start, if more == [] then log.end else more[|more| - 1].offset + 1)
  }

  function SuffixTruncated(log: Log, from: nat): Log {
    var kept := Retain(log.entries, from, true);
    Log(kept, log.start, if kept == [] then 0 else kept[|kept| - 1].offset + 1)
  }

  function PrefixTruncated(log: Log, upTo: nat): Log {
    Log(Retain(log.entries, upTo, false), upTo, log.end)
  }

  /** How many of the log's entries lie below `at`. */
  function Below(log: Log, at: nat): (k: nat)
    ensures k <= |log.entries|
  {
    if at <= log.start then 0 else if at - log.start < |log.entries| then at - log.start else |log.entries|
  }

  /** Retaining cuts a contiguous log in two. */
  lemma {:induction false} RetainCuts(entries: seq<LogEntry>, start: nat, at: nat)
    requires forall i :: 0 <= i < |entries| ==> entries[i].offset == start + i
    ensures var k := Below(Log(entries, start, 0), at);
      Retain(entries, at, true) == entries[..k] && Retain(entries, at, false) == entries[k..]
    decreases |entries|
  {
    if entries != [] {
      var rest := entries[1..];
      RetainCuts(rest, start + 1, at);
      var k := Below(Log(rest, start + 1, 0), at);
      SliceCons(entries, k);
      if start < at {
        assert Retain(entries, at, true) == [entries[0]] + rest[..k];
        assert Retain(entries, at, false) == [] + rest[k..] == rest[k..];
      } else {
        assert k == 0 && rest[k..] == rest;
        assert Retain(entries, at, true) == [] + rest[..k] == [];
        assert Retain(entries, at, false) == [entries[0]] + rest == entries;
      }
    }
  }

  lemma SliceCons(entries: seq<LogEntry>, k: nat)
    requires k < |entries|
    ensures [entries[0]] + entries[1..][..k] == entries[..k + 1] && entries[1..][k..] == entries[k + 1..]
    ensures [entries[0]] + entries[1..] == entries
  {
  }

  /** Dropping a suffix keeps the log contiguous exactly when something is left, or the log starts at 0. */
  lemma SuffixTruncation(log: Log, from: nat)
    requires Contiguous(log)
    ensures SuffixTruncated(log, from).entries == log.entries[..Below(log, from)]
    ensures Contiguous(SuffixTruncated(log, from)) <==> log.start == 0 || (from > log.start && log.entries != [])
  {
    hide Retain;
    RetainCuts(log.entries, log.start, from);
    var k := Below(log, from);
    assert k == Below(Log(log.entries, log.start, 0), from);
    assert k > 0 ==> log.entries[..k][k - 1] == log.entries[k - 1];
  }

  /** Dropping a prefix keeps the log contiguous exactly when the new start lies between the old start and the end. */
  lemma PrefixTruncation(log: Log, upTo: nat)
    requires Contiguous(log)
    ensures PrefixTruncated(log, upTo).entries == log.entries[Below(log, upTo)..]
    ensures Contiguous(PrefixTruncated(log, upTo)) <==> log.start <= upTo <= log.end
  {
    hide Retain;
    RetainCuts(log.entries, log.start, upTo);
  }

  /** Appending keeps the log contiguous exactly when the new entries continue its numbering. */
  lemma Appending(log: Log, more: seq<LogEntry>)
    requires Contiguous(log)
    ensures Contiguous(Appended(log, more))
       <==> forall i :: 0 <= i < |more| ==> more[i].offset == log.end + i
  {
    var log' := Appended(log, more);
    if Contiguous(log') {
      forall i | 0 <= i < |more| ensures more[i].offset == log.end + i {
        assert log'.entries[|log.entries| + i] == more[i];
      }
    }
  }

  /** A compacted log cut back to nothing loses its place: its next offset becomes 0. */
  lemma CompactedLogCutToNothing()
    ensures var log := Log([LogEntry(5, 1, [])], 5, 6);
      Contiguous(log) && SuffixTruncated(log, 5) == Log([], 5, 0) && !Contiguous(SuffixTruncated(log, 5))
  {
    RetainCuts([LogEntry(5, 1, [])], 5, 5);
  }

  // ------------------------------------------------------------------
  // Bounded reads
  // ------------------------------------------------------------------

  /** Size of an entry on the wire: payload and fixed overhead. */
  function Size(e: LogEntry): nat {
    |e.payload| + 24
  }

  function TotalSize(entries: seq<LogEntry>): nat {
    if entries == [] then 0 else TotalSize(entries[..|entries| - 1]) + Size(entries[|entries| - 1])
  }

  /** The entries from `from` on. */
  ghost function Tail(log: Log, from: nat): seq<LogEntry> {
    log.entries[Below(log, from)..]
  }

  /** Within the entry limit, and within the byte limit (0 means none) unless a single entry. */
  ghost predicate Fits(batch: seq<LogEntry>, maxEntries: nat, maxBytes: nat) {
    |batch| <= maxEntries && (maxBytes > 0 && |batch| > 1 ==> TotalSize(batch) <= maxBytes)
  }

  lemma SliceJoin(entries: seq<LogEntry>, a: nat, b: nat, c: nat)
    requires a <= b <= c <= |entries|
    ensures entries[a..b] + entries[b..c] == entries[a..c]
  {
  }

  /** The offset after a batch is where the rest of the tail begins. */
  lemma PullStep(log: Log, next: nat, batch: seq<LogEntry>)
    requires Contiguous(log) && batch != [] && batch <= Tail(log, next)
    ensures Below(log, batch[|batch| - 1].offset + 1) == Below(log, next) + |batch|
    ensures batch == log.entries[Below(log, next)..Below(log, next) + |batch|]
  {
    var k := Below(log, next);
    assert batch[|batch| - 1] == Tail(log, next)[|batch| - 1] == log.entries[k + |batch| - 1];
  }

  // ------------------------------------------------------------------
  // Epochs
  // ------------------------------------------------------------------

  ghost predicate TermsRise(entries: seq<LogEntry>) {
    forall i, j :: 0 <= i < j < |entries| ==> entries[i].term <= entries[j].term
  }

  /** Everything below `at` is of `epoch` or older, everything from `at` on is newer. */
  ghost predicate SplitsAt(log: Log, epoch: nat, at: nat) {
    forall i :: 0 <= i < |log.entries| ==> (log.entries[i].offset < at <==> log.entries[i].term <= epoch)
  }

  /** The lookup skips a newer entry at offset 0. */
  predicate StartsNewer(log: Log, epoch: nat) {
    log.start == 0 && log.entries != [] && log.entries[0].term > epoch
  }

  /** The first newer entry past offset 0 splits the log unless the lookup has skipped one. */
  lemma EpochSplit(log: Log, epoch: nat, i: nat)
    requires Contiguous(log) && TermsRise(log.entries) && i <= |log.entries|
    requires forall j :: 0 <= j < i ==> log.entries[j].term <= epoch || log.entries[j].offset == 0
    requires i < |log.entries| ==> log.entries[i].term > epoch && log.entries[i].offset > 0
    ensures SplitsAt(log, epoch, log.start + i) <==> !StartsNewer(log, epoch)
    ensures StartsNewer(log, epoch) ==> log.start + i == 1
  {
    if StartsNewer(log, epoch) {
      assert i >= 1 && log.entries[0].offset < log.start + i;
      assert |log.entries| > 1 ==> log.entries[0].term <= log.entries[1].term;
    }
  }

  // ------------------------------------------------------------------
  // The object
  // ------------------------------------------------------------------

  class InMemoryLog {
    var entries: seq<LogEntry>
    var startOffset: nat
    var endOffset: nat

    ghost function Value(): Log
      reads this
    {
      Log(entries, startOffset, endOffset)
    }

    constructor ()
      ensures Value() == Log([], 0, 0) && Contiguous(Value())
    {
      entries, startOffset, endOffset := [], 0, 0;
    }

    /** A contiguous log stays one exactly when the new entries continue its numbering. */
    method Append(more: seq<LogEntry>)
      modifies this
      ensures Value() == Appended(old(Value()), more)
      ensures old(Contiguous(Value())) ==>
        (Contiguous(Value()) <==> forall i :: 0 <= i < |more| ==> more[i].offset == old(endOffset) + i)
    {
      if Contiguous(Value()) {
        Appending(Value(), more);
      }
      for i := 0 to |more|
        modifies this`entries
        invariant entries == old(entries) + more[..i]
      {
        entries := entries + [more[i]];
      }
      assert more[..|more|] == more;
      if more != [] {
        endOffset := more[|more| - 1].offset + 1;
      }
    }

    /** What is below `from` stays; a contiguous log stays one exactly when something is left or it starts at 0. */
    method TruncateSuffix(from: nat)
      modifies this
      ensures Value() == SuffixTruncated(old(Value()), from)
      ensures old(Contiguous(Value())) ==>
        && startOffset == old(startOffset) && entries == old(entries[..Below(Value(), from)])
        && (Contiguous(Value()) <==> startOffset == 0 || (from > startOffset && old(entries) != []))
    {
      if Contiguous(Value()) {
        SuffixTruncation(Value(), from);
      }
      entries := Retain(entries, from, true);
      endOffset := if entries == [] then 0 else entries[|entries| - 1].offset + 1;
    }

    /** What is not below `upTo` stays; a contiguous log stays one exactly when `upTo` lies within it. */
    method TruncatePrefix(upTo: nat)
      modifies this
      ensures Value() == PrefixTruncated(old(Value()), upTo)
      ensures old(Contiguous(Value())) ==>
        && endOffset == old(endOffset) && entries == old(entries[Below(Value(), upTo)..])
        && (Contiguous(Value()) <==> old(startOffset) <= upTo <= endOffset)
    {
      if Contiguous(Value()) {
        PrefixTruncation(Value(), upTo);
      }
      entries := Retain(entries, upTo, false);
      startOffset := upTo;
    }

    /**
     A prefix of what is stored from `from` on that respects both limits; it stops short
     only where one more entry would break one of them.
     */
    method ReadBounded(from: nat, maxEntries: nat, maxBytes: nat) returns (batch: seq<LogEntry>)
      requires Contiguous(Value())
      ensures batch <= Tail(Value(), from) && Fits(batch, maxEntries, maxBytes)
      ensures var tail := Tail(Value(), from);
        |batch| < |tail| ==> !Fits(tail[..|batch| + 1], maxEntries, maxBytes)
      ensures maxEntries > 0 && Tail(Value(), from) != [] ==> batch != []
    {
      batch := [];
      var total := 0;
      ghost var tail, k := Tail(Value(), from), Below(Value(), from);
      for i := 0 to |entries|
        invariant k + |batch| <= |entries| && batch == entries[k..k + |batch|]
        invariant if i <= k then batch == [] else i == k + |batch|
        invariant total == TotalSize(batch) && Fits(batch, maxEntries, maxBytes)
      {
        var entry := entries[i];
        if entry.offset >= from {
          assert tail[..|batch| + 1] == batch + [entry];
          assert (batch + [entry])[..|batch|] == batch;
          if |batch| >= maxEntries {
            break;
          }
          var size := Size(entry);
          if maxBytes > 0 && total + size > maxBytes && batch != [] {
            break;
          }
          total := total + size;
          batch := batch + [entry];
        }
      }
    }

    /** Pull batch after batch, each from the offset after the last: the whole tail, in finitely many pulls. */
    method PullAll(from: nat, maxEntries: nat, maxBytes: nat) returns (all: seq<LogEntry>)
      requires Contiguous(Value()) && maxEntries > 0
      ensures all == Tail(Value(), from)
    {
      hide Contiguous, Below, Fits;
      all := [];
      var next: nat := from;
      ghost var log, k := Value(), Below(Value(), from);
      var batch := ReadBounded(next, maxEntries, maxBytes);
      while batch != []
        invariant k + |all| <= |log.entries| && all == log.entries[k..k + |all|] && Below(log, next) == k + |all|
        invariant batch <= Tail(log, next) && (batch == [] ==> Tail(log, next) == [])
        decreases |log.entries| - |all|, |batch|
      {
        PullStep(log, next, batch);
        SliceJoin(log.entries, k, k + |all|, k + |all| + |batch|);
        all := all + batch;
        next := batch[|batch| - 1].offset + 1;
        batch := ReadBounded(next, maxEntries, maxBytes);
      }
      assert k + |all| == |log.entries|;
    }

    /** The offset of the first entry newer than `epoch`, or the end of the log. */
    method EpochEndOffset(epoch: nat) returns (at: nat)
      requires Contiguous(Value()) && TermsRise(entries)
      ensures SplitsAt(Value(), epoch, at) <==> !StartsNewer(Value(), epoch)
      ensures StartsNewer(Value(), epoch) ==> at == 1
      ensures startOffset <= at <= endOffset || StartsNewer(Value(), epoch)
    {
      for i := 0 to |entries|
        invariant forall j :: 0 <= j < i ==> entries[j].term <= epoch || entries[j].offset == 0
      {
        var entry := entries[i];
        if entry.term > epoch && entry.offset > 0 {
          EpochSplit(Value(), epoch, i);
          return entry.offset;
        }
      }
      EpochSplit(Value(), epoch, |entries|);
      return endOffset;
    }
  }

  /** A miss: an entry of term 2 at offset 0 is newer than epoch 1, yet the lookup places it below the split. */
  method NewerEntrySkipped() returns (at: nat)
    ensures var log := Log([LogEntry(0, 2, [])], 0, 1);
      at == 1 && Contiguous(log) && !SplitsAt(log, 1, at) && SplitsAt(log, 1, 0)
  {
    var log := new InMemoryLog();
    log.Append([LogEntry(0, 2, [])]);
    assert log.Value() == Log([LogEntry(0, 2, [])], 0, 1);
    at := log.EpochEndOffset(1);
    assert log.Value().entries[0].offset == 0;
  }
}
