/**
 Reading a snapshot in chunks, from any byte offset and for any number of bytes:
 what the chunks contain, when they announce the end, and how a transfer in
 windows puts the payload together again.
 */
module SnapshotReader {
  import opened Base
  import opened Messages

  type Bytes = seq<bv8>

  datatype Item = Item(index: nat, data: Bytes, done: bool, metadata: Option<SnapshotMeta>)

  /** The chunk size used when none is given: 1 MiB. */
  const DEFAULT_CHUNK_SIZE: nat := 1024 * 1024

  function ChunkSize(requested: nat): (n: nat)
    ensures n > 0
  {
    if requested == 0 then DEFAULT_CHUNK_SIZE else requested
  }

  /** The requested part of the payload; no limit, or a limit of 0, means up to its end. */
  function Window(payload: Bytes, offset: nat, maxBytes: Option<nat>): Bytes {
    if offset >= |payload| then []
    else if maxBytes.Some? && maxBytes.value > 0 && offset + maxBytes.value < |payload|
    then payload[offset..offset + maxBytes.value] else payload[offset..]
  }

  /** Cut into pieces of `size` bytes, the last possibly shorter. */
  function Split(data: Bytes, size: nat): (parts: seq<Bytes>)
    requires size > 0
    ensures |parts| > 0
    decreases |data|
  {
    if |data| <= size then [data] else [data[..size]] + Split(data[size..], size)
  }

  /**
    The pieces as items: numbered from `index`, the last marked when the payload ends there, the
    first with metadata.
   */
  function Items(parts: seq<Bytes>, index: nat, atEnd: bool, metadata: Option<SnapshotMeta>): (items: seq<Item>)
    ensures |items| == |parts|
  {
    if parts == [] then []
    else [Item(index, parts[0], atEnd && |parts| == 1, metadata)] + Items(parts[1..], index + 1, atEnd, None)
  }

  /** Number of the first item: the chunk the offset falls in, or 0 for an empty payload. */
  function FirstIndex(payload: Bytes, offset: nat, size: nat): nat
    requires size > 0
  {
    if payload == [] then 0 else offset / size
  }

  /** Everything a read yields. */
  function Chunks(payload: Bytes, meta: SnapshotMeta, requested: nat, offset: nat, maxBytes: Option<nat>): seq<Item> {
    var size, window := ChunkSize(requested), Window(payload, offset, maxBytes);
    Items(Split(window, size), FirstIndex(payload, offset, size), offset + |window| >= |payload|, Some(meta))
  }

  /** The bytes of the items, in order. */
  function Content(items: seq<Item>): Bytes {
    if items == [] then [] else items[0].data + Content(items[1..])
  }

  // ------------------------------------------------------------------
  // What a read yields
  // ------------------------------------------------------------------

  lemma {:induction false} SplitItems(data: Bytes, size: nat, index: nat, atEnd: bool, metadata: Option<SnapshotMeta>)
    requires size > 0
    ensures Content(Items(Split(data, size), index, atEnd, metadata)) == data
    decreases |data|
  {
    var items := Items(Split(data, size), index, atEnd, metadata);
    if |data| > size {
      SplitItems(data[size..], size, index + 1, atEnd, None);
      assert items[1..] == Items(Split(data[size..], size), index + 1, atEnd, None);
    } else {
      assert items[1..] == [];
    }
  }

  /** The chunks together are exactly the requested window. */
  lemma ChunksAreWindow(payload: Bytes, meta: SnapshotMeta, requested: nat, offset: nat, maxBytes: Option<nat>)
    ensures Content(Chunks(payload, meta, requested, offset, maxBytes)) == Window(payload, offset, maxBytes)
  {
    var size, window := ChunkSize(requested), Window(payload, offset, maxBytes);
    SplitItems(window, size, FirstIndex(payload, offset, size), offset + |window| >= |payload|, Some(meta));
  }

  lemma {:induction false} ItemAt(parts: seq<Bytes>, index: nat, atEnd: bool, metadata: Option<SnapshotMeta>, i: nat)
    requires i < |parts|
    ensures Items(parts, index, atEnd, metadata)[i]
         == Item(index + i, parts[i], atEnd && i == |parts| - 1, if i == 0 then metadata else None)
  {
    if i > 0 {
      ItemAt(parts[1..], index + 1, atEnd, None, i - 1);
    }
  }

  /** `done` is on the last chunk alone, and only when that chunk reaches the end of the payload. */
  lemma DoneMeansEnd(payload: Bytes, meta: SnapshotMeta, requested: nat, offset: nat, maxBytes: Option<nat>, i: nat)
    requires i < |Chunks(payload, meta, requested, offset, maxBytes)|
    ensures var items := Chunks(payload, meta, requested, offset, maxBytes);
      && (items[i].done <==> i == |items| - 1 && offset + |Window(payload, offset, maxBytes)| >= |payload|)
      && items[i].metadata == (if i == 0 then Some(meta) else None)
  {
    var size, window := ChunkSize(requested), Window(payload, offset, maxBytes);
    ItemAt(Split(window, size), FirstIndex(payload, offset, size), offset + |window| >= |payload|, Some(meta), i);
  }

  /** Every piece but the last is full, and none is empty unless it is the only one. */
  lemma {:induction false} SplitSizes(data: Bytes, size: nat, i: nat)
    requires size > 0 && i < |Split(data, size)|
    ensures var parts := Split(data, size);
      |parts[i]| <= size && (i < |parts| - 1 ==> |parts[i]| == size) && (data != [] ==> parts[i] != [])
    decreases |data|
  {
    if i > 0 {
      SplitSizes(data[size..], size, i - 1);
    }
  }

  // ------------------------------------------------------------------
  // Resuming
  // ------------------------------------------------------------------

  lemma {:induction false} SplitDrop(data: Bytes, size: nat, k: nat)
    requires size > 0 && k * size < |data|
    ensures k < |Split(data, size)| && Split(data[k * size..], size) == Split(data, size)[k..]
    decreases k
  {
    if k == 0 {
      assert data[0 * size..] == data;
    } else {
      var j := k - 1;
      assert k * size == j * size + size;
      SplitDrop(data[size..], size, j);
      assert data[size..][j * size..] == data[k * size..];
      assert Split(data, size)[1..] == Split(data[size..], size);
    }
  }

  lemma {:induction false} ItemsDrop(parts: seq<Bytes>, index: nat, atEnd: bool, metadata: Option<SnapshotMeta>, k: nat)
    requires k < |parts|
    ensures var rest := Items(parts[k..], index + k, atEnd, metadata);
      rest == [rest[0]] + Items(parts, index, atEnd, metadata)[k + 1..]
      && rest[0] == Items(parts, index, atEnd, metadata)[k].(metadata := metadata)
  {
    if k == 0 {
      assert parts[0..] == parts;
    } else {
      ItemsDrop(parts[1..], index + 1, atEnd, None, k - 1);
      assert parts[1..][k - 1..] == parts[k..];
      var all := Items(parts, index, atEnd, metadata);
      assert all[1..] == Items(parts[1..], index + 1, atEnd, None);
      var rest, plain := Items(parts[k..], index + k, atEnd, metadata), Items(parts[k..], index + k, atEnd, None);
      assert rest[1..] == plain[1..];
    }
  }

  /** Resuming at a chunk boundary yields the rest of the full read; only the first chunk carries metadata again. */
  lemma AlignedResume(payload: Bytes, meta: SnapshotMeta, requested: nat, k: nat)
    requires k * ChunkSize(requested) < |payload|
    ensures var size := ChunkSize(requested);
      var full, rest := Chunks(payload, meta, requested, 0, None), Chunks(payload, meta, requested, k * size, None);
      k < |full| && rest == [full[k].(metadata := Some(meta))] + full[k + 1..]
  {
    hide Split, Items;
    var size := ChunkSize(requested);
    assert payload[0..] == payload;
    SplitDrop(payload, size, k);
    BoundaryIndex(k, size);
    BoundaryIndex(0, size);
    ItemsDrop(Split(payload, size), 0, true, Some(meta), k);
  }

  lemma ProductGrows(a: int, size: int)
    requires a >= 1 && size > 0
    ensures a * size >= size
  {
  }

  lemma QuotientBounds(n: int, size: int)
    requires size > 0
    ensures (n / size) * size <= n < (n / size) * size + size
  {
  }

  lemma OneMultiple(n: int, size: int, k: int, q: int)
    requires size > 0 && n == k * size && q * size <= n < q * size + size
    ensures k == q
  {
    assert (k - q) * size == k * size - q * size && (q - k) * size == q * size - k * size;
    if k > q {
      ProductGrows(k - q, size);
    } else if k < q {
      ProductGrows(q - k, size);
    }
  }

  /** A byte offset at a chunk boundary falls in the chunk that begins there. */
  lemma BoundaryIndex(k: nat, size: nat)
    requires size > 0
    ensures (k * size) / size == k
  {
    QuotientBounds(k * size, size);
    OneMultiple(k * size, size, k, (k * size) / size);
  }

  // ------------------------------------------------------------------
  // The reader and a transfer
  // ------------------------------------------------------------------

  /** Chunk `i` is the last of `n` bytes exactly when the rounded-up division says so. */
  lemma CeilingDivision(n: nat, size: nat, i: nat)
    requires size > 0 && i * size < n
    ensures i == (n + size - 1) / size - 1 <==> n <= i * size + size
  {
    var c := (n + size - 1) / size;
    QuotientBounds(n + size - 1, size);
    assert c * size - i * size == (c - i) * size;
    if c - i >= 2 {
      ProductGrows(c - i - 1, size);
      assert (c - i - 1) * size == (c - i) * size - size;
    } else if c - i <= 0 {
      ProductFalls(c - i, size);
    }
  }

  lemma ProductFalls(a: int, size: int)
    requires a <= 0 && size > 0
    ensures a * size <= 0
  {
  }

  lemma {:induction false} SplitSnoc(data: Bytes, size: nat, i: nat)
    requires size > 0 && i * size < |data|
    ensures i < |Split(data, size)|
    ensures Split(data, size)[i]
         == if i * size + size < |data| then data[i * size..i * size + size] else data[i * size..]
    ensures i == |Split(data, size)| - 1 <==> |data| <= i * size + size
  {
    SplitDrop(data, size, i);
    var rest := data[i * size..];
    assert Split(rest, size)[0] == Split(data, size)[i];
    assert |Split(rest, size)| == 1 <==> |rest| <= size;
  }

  lemma OneItem(index: nat, size: nat, meta: SnapshotMeta)
    requires size > 0
    ensures Items(Split([], size), index, true, Some(meta)) == [Item(index, [], true, Some(meta))]
  {
  }

  /**
   The reader of the snapshot store. `stored` is what loading the snapshot gave; without
   one the read fails.
   */
  method ReadFromOffset(stored: Option<(SnapshotMeta, Bytes)>, requested: nat, offset: nat, maxBytes: Option<nat>)
    returns (items: Option<seq<Item>>)
    ensures items == if stored.None? then None
                     else Some(Chunks(stored.value.1, stored.value.0, requested, offset, maxBytes))
  {
    hide Items, Split;
    var size := ChunkSize(requested);
    if stored.None? {
      return None;
    }
    var (meta, payload) := stored.value;
    if offset >= |payload| && (offset > 0 || payload == []) {
      var index := if payload != [] then offset / size else 0;
      OneItem(index, size, meta);
      return Some([Item(index, [], true, Some(meta))]);
    }
    var data := Window(payload, offset, maxBytes);
    var first := offset / size;
    var coversTail := offset + |data| >= |payload|;
    var total := (|data| + size - 1) / size;
    var chunks := ReadChunks(data, size, first, coversTail, total, meta);
    return Some(chunks);
  }

  /** The item that belongs to byte offset `i * size`. */
  lemma NextItem(data: Bytes, size: nat, first: nat, coversTail: bool, total: nat, meta: SnapshotMeta, i: nat)
    requires size > 0 && i * size < |data| && total == (|data| + size - 1) / size
    ensures var all, at := Items(Split(data, size), first, coversTail, Some(meta)), i * size;
      var piece := if at + size < |data| then data[at..at + size] else data[at..];
      && i < |all| && (at + size >= |data| <==> i + 1 == |all|) && (i + 1) * size == at + size
      && all[i] == Item(first + i, piece, i == total - 1 && coversTail, if i == 0 then Some(meta) else None)
  {
    hide Split, Items;
    SplitSnoc(data, size, i);
    CeilingDivision(|data|, size, i);
    ItemAt(Split(data, size), first, coversTail, Some(meta), i);
  }

  method ReadChunks(data: Bytes, size: nat, first: nat, coversTail: bool, total: nat, meta: SnapshotMeta)
    returns (chunks: seq<Item>)
    requires size > 0 && data != [] && total == (|data| + size - 1) / size
    ensures chunks == Items(Split(data, size), first, coversTail, Some(meta))
  {
    hide Split, Items;
    chunks := [];
    ghost var all := Items(Split(data, size), first, coversTail, Some(meta));
    var i, at := 0, 0;
    while at < |data|
      invariant at == i * size && i == |chunks| <= |all| && chunks == all[..i]
      invariant at >= |data| ==> i == |all|
      decreases |data| - at
    {
      NextItem(data, size, first, coversTail, total, meta, i);
      var piece := if at + size < |data| then data[at..at + size] else data[at..];
      chunks := chunks + [Item(first + i, piece, i == total - 1 && coversTail, if i == 0 then Some(meta) else None)];
      i, at := i + 1, at + size;
    }
  }

  /** One window of a transfer: the bytes received grow by it, and it is marked done exactly when they are all. */
  lemma WindowStep(payload: Bytes, meta: SnapshotMeta, requested: nat, offset: nat, maxBytes: nat)
    requires maxBytes > 0 && offset <= |payload|
    ensures var items := Chunks(payload, meta, requested, offset, Some(maxBytes));
      var next := offset + |Content(items)|;
      && items != [] && next <= |payload| && payload[..offset] + Content(items) == payload[..next]
      && (items[|items| - 1].done <==> next == |payload|) && (next == offset ==> next == |payload|)
  {
    hide Items, Split;
    var items := Chunks(payload, meta, requested, offset, Some(maxBytes));
    var window := Window(payload, offset, Some(maxBytes));
    ChunksAreWindow(payload, meta, requested, offset, Some(maxBytes));
    DoneMeansEnd(payload, meta, requested, offset, Some(maxBytes), |items| - 1);
    assert payload[..offset] + window == payload[..offset + |window|];
  }

  /** A transfer in windows of `maxBytes`: read, keep the bytes, ask from where they ended, until told it is done. */
  method Transfer(payload: Bytes, meta: SnapshotMeta, requested: nat, maxBytes: nat) returns (received: Bytes)
    requires maxBytes > 0
    ensures received == payload
  {
    hide Chunks, Content;
    received := [];
    var done := false;
    while !done
      invariant |received| <= |payload| && received == payload[..|received|]
      invariant done ==> |received| == |payload|
      decreases |payload| - |received|, if done then 0 else 1
    {
      WindowStep(payload, meta, requested, |received|, maxBytes);
      var read := ReadFromOffset(Some((meta, payload)), requested, |received|, Some(maxBytes));
      var items := read.value;
      received := received + Content(items);
      done := items[|items| - 1].done;
    }
  }
}
