/** Splitting an S3 object into byte ranges, and putting the pieces back in any arrival order. */
module S3Parts {
  import opened ClusterTypes
  import opened Rounding

  const CHUNK_SIZE: nat := 33554432

  type Bytes = seq<bv8>

  function ChunkCount(size: nat): nat {
    DivCeil(size, CHUNK_SIZE)
  }

  function Lo(i: nat): nat {
    i * CHUNK_SIZE
  }

  /** One past the last byte of a chunk; the range requested is the inclusive `Lo(i)` to `Hi(i) - 1`. */
  function Hi(size: nat, i: nat): nat {
    if Lo(i) + CHUNK_SIZE <= size then Lo(i) + CHUNK_SIZE else size
  }

  predicate InRange(size: nat, i: nat, b: nat) {
    Lo(i) <= b <= Hi(size, i) - 1
  }

  /** The inclusive ranges are never empty, and every byte is in exactly one of them. */
  lemma RangesPartition(size: nat, b: nat)
    requires b < size
    ensures b / CHUNK_SIZE < ChunkCount(size)
    ensures forall i: nat :: i < ChunkCount(size) ==> (InRange(size, i, b) <==> i == b / CHUNK_SIZE)
    ensures forall i: nat :: i < ChunkCount(size) ==> Lo(i) <= Hi(size, i) - 1 < size
  {}

  // ---- groups ----------------------------------------------------------------------------

  function Chunks<T>(s: seq<T>, n: nat): seq<seq<T>>
    requires n > 0
  {
    if s == [] then [] else if |s| <= n then [s] else [s[..n]] + Chunks(s[n..], n)
  }

  function Flatten<T>(groups: seq<seq<T>>): seq<T> {
    if groups == [] then [] else groups[0] + Flatten(groups[1..])
  }

  lemma {:induction false} FlattenChunks<T>(s: seq<T>, n: nat)
    requires n > 0
    ensures Flatten(Chunks(s, n)) == s
    decreases |s|
  {
    if |s| > n {
      FlattenChunks(s[n..], n);
      assert ([s[..n]] + Chunks(s[n..], n))[1..] == Chunks(s[n..], n);
    } else if s != [] {
      assert Flatten([s]) == s + Flatten<T>([]);
    }
  }

  /** Where the first `k` chunks of `total` elements end. */
  function Cut(total: nat, n: nat, k: nat): (c: nat)
    ensures c <= total
  {
    if k * n <= total then k * n else total
  }

  lemma CutStep(total: nat, n: nat, k: nat)
    requires total > n > 0 && k > 0
    ensures Cut(total, n, k) == n + Cut(total - n, n, k - 1)
  {
    assert k * n == n + (k - 1) * n;
  }

  lemma CutEnds(total: nat, n: nat)
    requires n > 0
    ensures Cut(total, n, 0) == 0 && (total <= n ==> Cut(total, n, 1) == total)
  {}

  /** The first chunks are the first elements, the others the rest, and all are needed for the whole. */
  lemma {:induction false} ChunksTake<T>(s: seq<T>, n: nat, k: nat)
    requires n > 0 && k <= |Chunks(s, n)|
    ensures Flatten(Chunks(s, n)[..k]) == s[..Cut(|s|, n, k)]
    ensures Flatten(Chunks(s, n)[k..]) == s[Cut(|s|, n, k)..]
    ensures Cut(|s|, n, k) == |s| <==> k == |Chunks(s, n)|
    decreases |s|
  {
    hide Cut;
    CutEnds(|s|, n);
    var chunks := Chunks(s, n);
    if k == 0 {
      FlattenChunks(s, n);
      assert chunks[..0] == [] && chunks[0..] == chunks;
    } else if |s| <= n {
      assert chunks[..1] == [s] && chunks[1..] == [];
      assert Flatten([s]) == s + Flatten<T>([]);
    } else {
      var rest, cut := Chunks(s[n..], n), Cut(|s| - n, n, k - 1);
      ChunksTake(s[n..], n, k - 1);
      CutStep(|s|, n, k);
      hide Chunks;
      assert chunks[..k] == [s[..n]] + rest[..k - 1] && chunks[k..] == rest[k - 1..];
      assert ([s[..n]] + rest[..k - 1])[1..] == rest[..k - 1];
      assert s[..n + cut] == s[..n] + s[n..][..cut];
    }
  }

  /** Every group is full but the last, which is not empty. */
  lemma {:induction false} ChunkSizes<T>(s: seq<T>, n: nat)
    requires n > 0
    ensures forall i :: 0 <= i < |Chunks(s, n)| - 1 ==> |Chunks(s, n)[i]| == n
    ensures s != [] ==> Chunks(s, n) != [] && 1 <= |Chunks(s, n)[|Chunks(s, n)| - 1]| <= n
    decreases |s|
  {
    if |s| > n {
      ChunkSizes(s[n..], n);
    }
  }

  lemma {:induction false} FlattenJoin<T>(a: seq<seq<T>>, b: seq<seq<T>>)
    ensures Flatten(a + b) == Flatten(a) + Flatten(b)
    decreases |a|
  {
    if a == [] {
      assert a + b == b;
    } else {
      FlattenJoin(a[1..], b);
      assert (a + b)[1..] == a[1..] + b;
    }
  }

  lemma {:induction false} ChunksCount<T>(s: seq<T>, n: nat)
    requires n > 0
    ensures |Chunks(s, n)| == DivCeil(|s|, n)
    decreases |s|
  {
    if |s| > n {
      ChunksCount(s[n..], n);
      DivCeilStep(|s|, n);
    } else if s != [] {
      DivCeilOne(|s|, n);
    }
  }

  function Indices(n: nat): (r: seq<nat>)
    ensures |r| == n && forall i :: 0 <= i < n ==> r[i] == i
  {
    seq(n, i requires 0 <= i < n => i)
  }

  function DownloadThreads(size: nat, concurrency: nat): nat {
    if concurrency < ChunkCount(size) then concurrency else ChunkCount(size)
  }

  function DownloadGroups(size: nat, concurrency: nat): seq<seq<nat>>
    requires size > CHUNK_SIZE && concurrency >= 1
  {
    var per := DivCeil(ChunkCount(size), DownloadThreads(size, concurrency));
    Chunks(Indices(ChunkCount(size)), if per > 1 then per else 1)
  }

  /** A download is split into at most `concurrency` groups that together take each chunk once, in order. */
  lemma DownloadSplit(size: nat, concurrency: nat)
    requires size > CHUNK_SIZE && concurrency >= 1
    ensures |DownloadGroups(size, concurrency)| <= concurrency
    ensures Flatten(DownloadGroups(size, concurrency)) == Indices(ChunkCount(size))
    ensures var per := DivCeil(ChunkCount(size), if concurrency < ChunkCount(size) then concurrency else ChunkCount(size));
      var groups := DownloadGroups(size, concurrency);
      forall i :: 0 <= i < |groups| ==> 1 <= |groups[i]| <= per && (i < |groups| - 1 ==> |groups[i]| == per)
  {
    hide DivCeil;
    DivCeilLeast(size, CHUNK_SIZE, 0);
    var n, threads := ChunkCount(size), DownloadThreads(size, concurrency);
    var per := DivCeil(n, threads);
    DivCeilLeast(n, threads, 0);
    FlattenChunks(Indices(n), per);
    ChunksCount(Indices(n), per);
    ChunkSizes(Indices(n), per);
    DivCeilLeast(n, threads, per);
    DivCeilLeast(n, per, threads);
    assert threads * per == per * threads;
  }

  function UploadThreads(size: nat, concurrency: nat): nat {
    if concurrency < size then concurrency else size
  }

  /** Uploads cut the chunk list into runs of `threads` chunks, not into `threads` runs. */
  function UploadGroups(size: nat, concurrency: nat): seq<seq<nat>>
    requires size > CHUNK_SIZE && concurrency >= 1
  {
    Chunks(Indices(ChunkCount(size)), UploadThreads(size, concurrency))
  }

  /** An upload stays within `concurrency` groups exactly when its chunks fit `threads * concurrency`. */
  lemma UploadSplit(size: nat, concurrency: nat)
    requires size > CHUNK_SIZE && concurrency >= 1
    ensures |UploadGroups(size, concurrency)| <= concurrency
       <==> ChunkCount(size) <= (if concurrency < size then concurrency else size) * concurrency
    ensures Flatten(UploadGroups(size, concurrency)) == Indices(ChunkCount(size))
    ensures var groups := UploadGroups(size, concurrency);
      forall i :: 0 <= i < |groups| - 1 ==> |groups[i]| == if concurrency < size then concurrency else size
  {
    ChunkSizes(Indices(ChunkCount(size)), UploadThreads(size, concurrency));
    hide DivCeil;
    FlattenChunks(Indices(ChunkCount(size)), UploadThreads(size, concurrency));
    ChunksCount(Indices(ChunkCount(size)), UploadThreads(size, concurrency));
    DivCeilLeast(ChunkCount(size), UploadThreads(size, concurrency), concurrency);
  }

  /** Two chunks at concurrency 1 already make two groups. */
  lemma UploadOverSplit()
    ensures |UploadGroups(CHUNK_SIZE + 1, 1)| == 2
  {
    ChunksCount(Indices(2), 1);
    assert ChunkCount(CHUNK_SIZE + 1) == 2;
  }

  // ---- putting the pieces together ---------------------------------------------------------

  function Piece(content: Bytes, i: nat): Bytes
    requires i < ChunkCount(|content|)
  {
    content[Lo(i)..Hi(|content|, i)]
  }

  /** The groups run side by side: their sends interleave in any way, each chunk once. */
  ghost predicate Interleaved(order: seq<nat>, groups: seq<seq<nat>>) {
    multiset(order) == multiset(Flatten(groups))
  }

  lemma EachOnce(order: seq<nat>, groups: seq<seq<nat>>, n: nat)
    requires Interleaved(order, groups) && Flatten(groups) == Indices(n)
    ensures forall i: nat :: i in order <==> i < n
    ensures forall j, k :: 0 <= j < k < |order| ==> order[j] != order[k]
  {
    forall i: nat
      ensures i in order <==> i < n
    {
      assert i in order <==> i in multiset(order);
      assert i in Indices(n) <==> i in multiset(Indices(n));
      assert i < n ==> Indices(n)[i] == i;
    }
    forall j, k | 0 <= j < k < |order|
      ensures order[j] != order[k]
    {
      NoRepeat(order, j, k);
      IndexOnce(n, order[j]);
    }
  }

  lemma NoRepeat(s: seq<nat>, j: nat, k: nat)
    requires j < k < |s|
    ensures s[j] == s[k] ==> multiset(s)[s[j]] >= 2
  {
    assert s == s[..j] + [s[j]] + s[j + 1..k] + [s[k]] + s[k + 1..];
  }

  lemma {:induction false} IndexOnce(n: nat, i: nat)
    ensures multiset(Indices(n))[i] <= 1
  {
    if n > 0 {
      IndexOnce(n - 1, i);
      assert Indices(n) == Indices(n - 1) + [n - 1];
      if i == n - 1 {
        assert i !in Indices(n - 1);
      }
    }
  }

  /** The buffer filled in arrival order is the content, whatever that order was. */
  method Reassemble(order: seq<nat>, bodies: seq<Bytes>, size: nat, concurrency: nat, ghost content: Bytes)
    returns (result: array<bv8>)
    requires size == |content| > CHUNK_SIZE && concurrency >= 1
    requires Interleaved(order, DownloadGroups(size, concurrency)) && |bodies| == |order|
    requires forall k :: 0 <= k < |order| && order[k] < ChunkCount(size) ==> bodies[k] == Piece(content, order[k])
    ensures result[..] == content
  {
    hide ChunkCount, DownloadGroups, Interleaved;
    DownloadSplit(size, concurrency);
    EachOnce(order, DownloadGroups(size, concurrency), ChunkCount(size));
    result := new bv8[size](_ => 0);
    for k := 0 to |order|
      invariant forall j, b: nat :: 0 <= j < k && b < size && InRange(size, order[j], b) ==> result[b] == content[b]
    {
      assert order[k] in order;
      RangeFits(size, order[k]);
      var lo, chunk := order[k] * CHUNK_SIZE, bodies[k];
      var hi := if lo + |chunk| < size then lo + |chunk| else size;
      forall b | lo <= b < hi {
        result[b] := chunk[b - lo];
      }
    }
    forall b | 0 <= b < size
      ensures result[b] == content[b]
    {
      RangesCover(size, b);
      assert b / CHUNK_SIZE in order;
    }
  }

  lemma RangeFits(size: nat, i: nat)
    requires i < ChunkCount(size)
    ensures Lo(i) <= Hi(size, i) <= size
  {}

  lemma RangesCover(size: nat, b: nat)
    requires b < size
    ensures b / CHUNK_SIZE < ChunkCount(size) && InRange(size, b / CHUNK_SIZE, b)
  {}

  datatype Part = Part(number: nat, body: Bytes)

  /** Every slot is filled exactly once, and slot `i` with part `i + 1`. */
  method CollectParts(order: seq<nat>, arrived: seq<Part>, data: Bytes, concurrency: nat) returns (parts: seq<Part>)
    requires |data| > CHUNK_SIZE && concurrency >= 1
    requires Interleaved(order, UploadGroups(|data|, concurrency)) && |arrived| == |order|
    requires forall k :: 0 <= k < |order| && order[k] < ChunkCount(|data|) ==>
      arrived[k] == Part(order[k] + 1, Piece(data, order[k]))
    ensures |parts| == ChunkCount(|data|)
    ensures forall i :: 0 <= i < |parts| ==> parts[i] == Part(i + 1, Piece(data, i))
  {
    hide ChunkCount, UploadGroups, Interleaved, Piece;
    UploadSplit(|data|, concurrency);
    EachOnce(order, UploadGroups(|data|, concurrency), ChunkCount(|data|));
    var n := ChunkCount(|data|);
    var slots := new Option<Part>[n](_ => None);
    for k := 0 to |order|
      invariant forall i :: 0 <= i < n ==>
        slots[i] == if i in order[..k] then Some(Part(i + 1, Piece(data, i))) else None
    {
      assert order[k] in order;
      assert order[..k + 1] == order[..k] + [order[k]];
      assert slots[order[k]].None?;
      slots[order[k]] := Some(arrived[k]);
    }
    assert order[..|order|] == order;
    parts := seq(n, i requires 0 <= i < n && slots[i].Some? reads slots => slots[i].value);
  }

  function JoinBodies(parts: seq<Part>): Bytes {
    if parts == [] then [] else JoinBodies(parts[..|parts| - 1]) + parts[|parts| - 1].body
  }

  lemma {:induction false} PartsJoin(data: Bytes, parts: seq<Part>)
    requires |parts| <= ChunkCount(|data|)
    requires forall i :: 0 <= i < |parts| ==> parts[i] == Part(i + 1, Piece(data, i))
    ensures JoinBodies(parts) == data[..if |parts| == 0 then 0 else Hi(|data|, |parts| - 1)]
    decreases |parts|
  {
    if |parts| > 0 {
      PartsJoin(data, parts[..|parts| - 1]);
    }
  }

  /** The parts as listed are the object that was uploaded. */
  lemma UploadedWhole(data: Bytes, parts: seq<Part>)
    requires |parts| == ChunkCount(|data|)
    requires forall i :: 0 <= i < |parts| ==> parts[i] == Part(i + 1, Piece(data, i))
    ensures JoinBodies(parts) == data
  {
    PartsJoin(data, parts);
    assert data[..|data|] == data;
  }
}
