/**
  Reading an artifact while it is being written, replaced and deleted. A read is a series of
  separate commands, so each one sees the store at its own moment of the run.
*/
module ArtifactReads {
  import opened ClusterTypes
  import opened S3Parts
  import opened ArtifactStore

  ghost predicate Follows(a: Store, b: Store) {
    exists c :: CanRun(a, c) && b == Ran(a, c)
  }

  /** A run of the store; older writers' debris may lie at the final key at its start. */
  ghost predicate Trace(tr: seq<Store>) {
    && |tr| > 0 && StoreSound(tr[0])
    && forall i :: 0 <= i < |tr| - 1 ==> Follows(tr[i], tr[i + 1])
  }

  /** The moments at which a reader's commands run. */
  datatype Times = Times(marker: nat, len: nat, inline: nat, again: nat, chunk: nat -> nat, last: nat)

  ghost predicate InOrder(tr: seq<Store>, at: Times) {
    && at.marker <= at.len <= at.inline <= at.again <= at.last < |tr|
    && forall i :: at.again <= at.chunk(i) <= at.last
  }

  datatype ReadResult = Got(bytes: Bytes) | NotThere | Failed

  /** The marker field, if there is a hash and it has one. */
  function Marker(s: Store): Option<nat> {
    if s.chunked.Some? then s.chunked.value.count else None
  }

  function HashLength(s: Store): nat {
    if s.chunked.Some? then FieldCount(s.chunked.value) else 0
  }

  function Field(s: Store, i: nat): Option<Bytes> {
    if s.chunked.Some? && i in s.chunked.value.fields then Some(s.chunked.value.fields[i]) else None
  }

  /** The chunk count of the first lookup: the marker's, or the number of fields. */
  function FirstCount(tr: seq<Store>, at: Times): nat
    requires InOrder(tr, at)
  {
    if Marker(tr[at.marker]).Some? then Marker(tr[at.marker]).value else HashLength(tr[at.len])
  }

  function SecondCount(tr: seq<Store>, at: Times): nat
    requires InOrder(tr, at)
  {
    if Marker(tr[at.again]).Some? then Marker(tr[at.again]).value else 0
  }

  ghost predicate AllThere(tr: seq<Store>, at: Times, n: nat)
    requires InOrder(tr, at)
  {
    forall i :: 0 <= i < n ==> Field(tr[at.chunk(i)], i).Some?
  }

  ghost function ReadChunks(tr: seq<Store>, at: Times, n: nat): ReadResult
    requires InOrder(tr, at)
  {
    if AllThere(tr, at, n)
    then Got(Flatten(seq(n,
            i requires 0 <= i < n && AllThere(tr, at, n) && InOrder(tr, at) => Field(tr[at.chunk(i)], i).value)))
    else Failed
  }

  /** `par_download_file`. */
  ghost function Read(tr: seq<Store>, at: Times): ReadResult
    requires InOrder(tr, at)
  {
    if FirstCount(tr, at) > 0 then ReadChunks(tr, at, FirstCount(tr, at))
    else if tr[at.inline].inline.Some? then Got(tr[at.inline].inline.value.data)
    else if SecondCount(tr, at) > 0 then ReadChunks(tr, at, SecondCount(tr, at))
    else NotThere
  }

  // ---- runs ----------------------------------------------------------------------------------

  lemma {:induction false} TraceSound(tr: seq<Store>, t: nat)
    requires Trace(tr) && t < |tr|
    ensures StoreSound(tr[t])
    ensures Clean(tr[0]) ==> Clean(tr[t])
  {
    hide StoreSound, Clean, CanRun, Ran;
    if t > 0 {
      TraceSound(tr, t - 1);
      assert Follows(tr[t - 1], tr[t]);
      var c :| CanRun(tr[t - 1], c) && tr[t] == Ran(tr[t - 1], c);
      CommandKeeps(tr[t - 1], c);
      if Clean(tr[0]) { CommandKeepsClean(tr[t - 1], c); }
    }
  }

  /**
    What is ever uploaded stays on record, without a publication the hash can only vanish, and no
    unmarked hash ever appears.
  */
  ghost predicate Later(a: Store, b: Store) {
    && a.uploads <= b.uploads && a.puts <= b.puts && a.version <= b.version && (NoDebris(a) ==> NoDebris(b))
    && (a.version == b.version && Published(b) ==> b.chunked == a.chunked && b.owner == a.owner)
  }

  lemma FollowsLater(a: Store, b: Store)
    requires Follows(a, b)
    ensures Later(a, b)
  {}

  lemma {:induction false} TraceLater(tr: seq<Store>, lo: nat, t: nat)
    requires Trace(tr) && lo <= t < |tr|
    ensures Later(tr[lo], tr[t])
    decreases t - lo
  {
    hide StoreSound, Follows;
    if lo < t {
      TraceLater(tr, lo, t - 1);
      FollowsLater(tr[t - 1], tr[t]);
    }
  }

  /**
    In every run a published hash is all of one upload's chunks, in place, and it stays that very
    hash until it is removed: two looks at the same version see the same hash.
  */
  lemma PublishedIsOneUpload(tr: seq<Store>, t: nat, u: nat)
    requires Trace(tr) && t <= u < |tr| && Published(tr[t])
    ensures tr[t].owner < |tr[t].uploads|
    ensures var pieces := Pieces(tr[t].uploads[tr[t].owner]);
      && tr[t].chunked.value.count == Some(|pieces|) && Whole(tr[t].chunked.value.fields, pieces)
      && Flatten(pieces) == tr[t].uploads[tr[t].owner].data
    ensures Published(tr[u]) && tr[u].version == tr[t].version ==> tr[u].chunked == tr[t].chunked
  {
    hide Trace;
    TraceSound(tr, t);
    TraceLater(tr, t, u);
    FlattenChunks(tr[t].uploads[tr[t].owner].data, tr[t].uploads[tr[t].owner].size);
  }

  /** In every run without debris the two forms never coexist, and only staging is on the staging TTL. */
  lemma OneRepresentation(tr: seq<Store>, t: nat)
    requires Trace(tr) && Clean(tr[0]) && t < |tr|
    ensures tr[t].inline.None? || tr[t].chunked.None?
    ensures forall a :: a in tr[t].staged ==> tr[t].staged[a].ttl.StagingTtl?
    ensures tr[t].chunked.Some? ==> !tr[t].chunked.value.ttl.StagingTtl?
    ensures tr[t].inline.Some? ==> !tr[t].inline.value.ttl.StagingTtl?
  {
    hide Trace;
    TraceSound(tr, t);
  }

  /** The moment the chunk count a read goes by was looked up; None if it reads no chunks. */
  function CountedAt(tr: seq<Store>, at: Times): Option<nat>
    requires InOrder(tr, at)
  {
    if FirstCount(tr, at) > 0 then Some(if Marker(tr[at.marker]).Some? then at.marker else at.len)
    else if tr[at.inline].inline.None? && SecondCount(tr, at) > 0 then Some(at.again)
    else None
  }

  /** Nothing is published between the look-up of the count and the last chunk. */
  predicate CountHolds(tr: seq<Store>, at: Times)
    requires InOrder(tr, at)
  {
    CountedAt(tr, at).Some? ==> tr[at.last].version == tr[CountedAt(tr, at).value].version
  }

  /** The chunk count a read goes by. */
  function CountUsed(tr: seq<Store>, at: Times): nat
    requires InOrder(tr, at)
  {
    if FirstCount(tr, at) > 0 then FirstCount(tr, at) else SecondCount(tr, at)
  }

  // ---- whose chunks a reader gets --------------------------------------------------------------

  /** The upload whose hash is at the final key. */
  function Owner(s: Store): Upload
    requires s.owner < |s.uploads|
  {
    s.uploads[s.owner]
  }

  /** Each of the first `n` chunks read is that chunk of the upload published at that moment. */
  ghost predicate FromOwners(tr: seq<Store>, at: Times, n: nat)
    requires InOrder(tr, at)
  {
    forall i :: 0 <= i < n ==> FromOwner(tr[at.chunk(i)], i)
  }

  predicate FromOwner(s: Store, i: nat) {
    s.owner < |s.uploads| && i < |Pieces(Owner(s))| && Field(s, i) == Some(Pieces(Owner(s))[i])
  }

  ghost function OwnersPieces(tr: seq<Store>, at: Times, n: nat): seq<Bytes>
    requires InOrder(tr, at) && FromOwners(tr, at, n)
  {
    seq(n, i requires 0 <= i < n && InOrder(tr, at) && FromOwners(tr, at, n) => Pieces(Owner(tr[at.chunk(i)]))[i])
  }

  lemma ReadChunksAre(tr: seq<Store>, at: Times, pieces: seq<Bytes>)
    requires InOrder(tr, at) && forall i :: 0 <= i < |pieces| ==> Field(tr[at.chunk(i)], i) == Some(pieces[i])
    ensures AllThere(tr, at, |pieces|) && ReadChunks(tr, at, |pieces|) == Got(Flatten(pieces))
  {
    var n := |pieces|;
    assert AllThere(tr, at, n);
    assert seq(n, i requires 0 <= i < n && AllThere(tr, at, n) && InOrder(tr, at) =>
          Field(tr[at.chunk(i)], i).value) == pieces;
  }

  /**
    In every run a chunked read that succeeds joins, chunk by chunk, pieces of the uploads published
    at the moments its chunks were read, each in its place; whatever count it goes by.
  */
  lemma ChunksFromOwners(tr: seq<Store>, at: Times, n: nat)
    requires Trace(tr) && InOrder(tr, at) && NoDebris(tr[at.again]) && AllThere(tr, at, n)
    ensures FromOwners(tr, at, n)
    ensures ReadChunks(tr, at, n) == Got(Flatten(OwnersPieces(tr, at, n)))
  {
    hide Trace, Follows, ReadChunks;
    forall i | 0 <= i < n
      ensures FromOwner(tr[at.chunk(i)], i)
    {
      assert Field(tr[at.chunk(i)], i).Some?;
      TraceSound(tr, at.chunk(i));
      TraceLater(tr, at.again, at.chunk(i));
    }
    ReadChunksAre(tr, at, OwnersPieces(tr, at, n));
  }

  /** Chunks `lo` to `hi - 1` are all read while upload `x` is the one published. */
  ghost predicate OneSource(tr: seq<Store>, at: Times, lo: nat, hi: nat, x: Upload)
    requires InOrder(tr, at)
  {
    forall i :: lo <= i < hi ==> var s := tr[at.chunk(i)]; s.owner < |s.uploads| && Owner(s) == x
  }

  /** Where the first `k` chunks of an upload end. */
  function CutOf(u: Upload, k: nat): (c: nat)
    ensures c <= |u.data|
  {
    Cut(|u.data|, u.size, k)
  }

  /** The chunks from one to another are the bytes from cut to cut; all are needed to reach the end. */
  lemma PiecesBetween(u: Upload, k: nat, n: nat)
    requires k <= n <= |Pieces(u)|
    ensures CutOf(u, k) <= CutOf(u, n) && Flatten(Pieces(u)[k..n]) == u.data[CutOf(u, k)..CutOf(u, n)]
    ensures CutOf(u, n) == |u.data| <==> n == |Pieces(u)|
    ensures CutOf(u, 0) == 0
  {
    hide Chunks;
    CutEnds(|u.data|, u.size);
    ChunksTake(u.data, u.size, k);
    ChunksTake(u.data, u.size, n);
    hide Cut;
    var pieces := Pieces(u);
    FlattenJoin(pieces[..k], pieces[k..n]);
    assert pieces[..n] == pieces[..k] + pieces[k..n];
    var before, upTo := u.data[..CutOf(u, k)], u.data[..CutOf(u, n)];
    assert upTo == before + Flatten(pieces[k..n]);
    assert upTo[|before|..] == Flatten(pieces[k..n]);
  }

  /** The first `k` chunks of one upload, then those of another up to `n`. */
  function Spliced(x: Upload, y: Upload, k: nat, n: nat): Bytes
    requires k <= |Pieces(x)| && k <= n <= |Pieces(y)|
  {
    Flatten(Pieces(x)[..k]) + Flatten(Pieces(y)[k..n])
  }

  /**
    What a splice is, byte by byte; that it is the old upload exactly when the rests agree; that it
    is the new one, if the count fits that, exactly when the beginnings agree; and that with nothing
    of the old it is the new one exactly when the count fits.
  */
  lemma SplicedIs(x: Upload, y: Upload, k: nat, n: nat)
    requires k <= |Pieces(x)| && k <= n <= |Pieces(y)|
    ensures CutOf(y, k) <= CutOf(y, n)
    ensures Spliced(x, y, k, n) == x.data[..CutOf(x, k)] + y.data[CutOf(y, k)..CutOf(y, n)]
    ensures Spliced(x, y, k, n) == x.data <==> x.data[CutOf(x, k)..] == y.data[CutOf(y, k)..CutOf(y, n)]
    ensures n == |Pieces(y)| ==> (Spliced(x, y, k, n) == y.data <==> x.data[..CutOf(x, k)] == y.data[..CutOf(y, k)])
    ensures k == 0 ==> Spliced(x, y, k, n) == y.data[..CutOf(y, n)]
    ensures k == 0 ==> (Spliced(x, y, k, n) == y.data <==> n == |Pieces(y)|)
  {
    hide CutOf, Pieces;
    PiecesBetween(x, 0, k);
    PiecesBetween(y, k, n);
    assert Pieces(x)[0..k] == Pieces(x)[..k];
    var first, rest := x.data[..CutOf(x, k)], y.data[CutOf(y, k)..CutOf(y, n)];
    Halves(first, rest, x.data, CutOf(x, k));
    if n == |Pieces(y)| {
      Ends(first, rest, y.data, CutOf(y, k));
    }
  }

  lemma Halves(first: Bytes, rest: Bytes, data: Bytes, cut: nat)
    requires cut <= |data| && first == data[..cut]
    ensures first + rest == data <==> data[cut..] == rest
  {
    assert data == data[..cut] + data[cut..];
    assert (first + rest)[cut..] == rest;
  }

  lemma Ends(first: Bytes, rest: Bytes, data: Bytes, cut: nat)
    requires cut <= |data| && rest == data[cut..]
    ensures first + rest == data <==> first == data[..cut]
  {
    assert data == data[..cut] + data[cut..];
    if first + rest == data {
      assert |first| == cut;
      assert (first + rest)[..cut] == first;
    }
  }

  lemma ChunksOfTwo(tr: seq<Store>, at: Times, n: nat, x: Upload, y: Upload, k: nat)
    requires InOrder(tr, at) && FromOwners(tr, at, n) && k <= n <= |Pieces(y)|
    requires OneSource(tr, at, 0, k, x) && OneSource(tr, at, k, n, y)
    ensures k <= |Pieces(x)| && ReadChunks(tr, at, n) == Got(Spliced(x, y, k, n))
  {
    hide ReadChunks, Pieces, Field;
    if k > 0 {
      assert FromOwner(tr[at.chunk(k - 1)], k - 1) && Owner(tr[at.chunk(k - 1)]) == x;
    }
    var pieces := Pieces(x)[..k] + Pieces(y)[k..n];
    forall i | 0 <= i < n
      ensures Field(tr[at.chunk(i)], i) == Some(pieces[i])
    {
      assert FromOwner(tr[at.chunk(i)], i);
    }
    ReadChunksAre(tr, at, pieces);
    FlattenJoin(Pieces(x)[..k], Pieces(y)[k..n]);
  }

  /** A chunked read that meets two uploads, one after the other, returns their splice. */
  lemma ReadOfTwo(tr: seq<Store>, at: Times, x: Upload, y: Upload, k: nat)
    requires Trace(tr) && InOrder(tr, at) && NoDebris(tr[at.again]) && CountedAt(tr, at).Some?
    requires AllThere(tr, at, CountUsed(tr, at)) && k <= CountUsed(tr, at) <= |Pieces(y)|
    requires OneSource(tr, at, 0, k, x) && OneSource(tr, at, k, CountUsed(tr, at), y)
    ensures k <= |Pieces(x)| && Read(tr, at) == Got(Spliced(x, y, k, CountUsed(tr, at)))
  {
    hide Trace, ReadChunks, Pieces, Spliced, FromOwners, OneSource;
    ChunksFromOwners(tr, at, CountUsed(tr, at));
    ChunksOfTwo(tr, at, CountUsed(tr, at), x, y, k);
  }

  /** One that meets a single upload returns it from its start, and whole exactly when the count is its own. */
  lemma ReadOfOne(tr: seq<Store>, at: Times, x: Upload)
    requires Trace(tr) && InOrder(tr, at) && NoDebris(tr[at.again]) && CountedAt(tr, at).Some?
    requires AllThere(tr, at, CountUsed(tr, at)) && OneSource(tr, at, 0, CountUsed(tr, at), x)
    ensures CountUsed(tr, at) <= |Pieces(x)|
    ensures Read(tr, at) == Got(x.data[..CutOf(x, CountUsed(tr, at))])
    ensures Read(tr, at) == Got(x.data) <==> CountUsed(tr, at) == |Pieces(x)|
  {
    hide Trace, Follows, ReadChunks, Pieces, CutOf;
    var n := CountUsed(tr, at);
    ChunksFromOwners(tr, at, n);
    assert FromOwner(tr[at.chunk(n - 1)], n - 1) && Owner(tr[at.chunk(n - 1)]) == x;
    ReadOfTwo(tr, at, x, x, 0);
    SplicedIs(x, x, 0, n);
  }

  // ---- when that is one upload -------------------------------------------------------------------

  /** Bytes some upload, chunked or inline, was given. */
  ghost predicate Uploaded(s: Store, data: Bytes) {
    data in s.puts || exists a :: 0 <= a < |s.uploads| && s.uploads[a].data == data
  }

  /** With no publication after the count, all chunks come from the upload that was counted. */
  lemma CountedSource(tr: seq<Store>, at: Times, t: nat)
    requires Trace(tr) && InOrder(tr, at) && NoDebris(tr[at.again])
    requires CountedAt(tr, at) == Some(t) && CountHolds(tr, at) && Published(tr[t])
    requires AllThere(tr, at, CountUsed(tr, at))
    ensures tr[t].owner < |tr[t].uploads| && OneSource(tr, at, 0, CountUsed(tr, at), Owner(tr[t]))
  {
    hide Trace, Follows, ReadChunks, Pieces;
    TraceSound(tr, t);
    ChunksFromOwners(tr, at, CountUsed(tr, at));
    forall i | 0 <= i < CountUsed(tr, at)
      ensures var s := tr[at.chunk(i)]; s.owner < |s.uploads| && Owner(s) == Owner(tr[t])
    {
      assert FromOwner(tr[at.chunk(i)], i);
      TraceLater(tr, t, at.chunk(i));
      TraceLater(tr, at.chunk(i), at.last);
      TraceLater(tr, at.again, at.chunk(i));
    }
  }

  /**
    A reader whose count is not overtaken by a publication returns one upload's full bytes or
    fails; it never returns a mix or a part, whatever else happens to the artifact meanwhile.
    Debris at the final key matters only to a count taken by HLEN.
  */
  lemma ReadIsOneUpload(tr: seq<Store>, at: Times)
    requires Trace(tr) && InOrder(tr, at) && CountHolds(tr, at) && NoDebris(tr[at.len])
    ensures Read(tr, at).Got? ==> Uploaded(tr[at.last], Read(tr, at).bytes)
  {
    hide Trace, Follows;
    TraceSound(tr, at.inline);
    TraceLater(tr, at.inline, at.last);
    TraceLater(tr, at.len, at.again);
    if CountedAt(tr, at).Some? && AllThere(tr, at, CountUsed(tr, at)) {
      CountedRead(tr, at, CountedAt(tr, at).value);
    }
  }

  /** A count taken by HLEN from a published hash is one too many, so that read fails. */
  lemma CountedRead(tr: seq<Store>, at: Times, t: nat)
    requires Trace(tr) && InOrder(tr, at) && NoDebris(tr[at.again])
    requires CountedAt(tr, at) == Some(t) && CountHolds(tr, at) && Published(tr[t])
    requires AllThere(tr, at, CountUsed(tr, at))
    ensures Read(tr, at).Got? && Uploaded(tr[at.last], Read(tr, at).bytes)
  {
    hide Trace, Follows, ReadChunks;
    TraceSound(tr, t);
    TraceLater(tr, t, at.last);
    CountedSource(tr, at, t);
    var x := Owner(tr[t]);
    ReadOfOne(tr, at, x);
    CountIsWhole(tr[t].chunked.value.fields, Pieces(x));
    assert tr[at.last].uploads[tr[t].owner] == x;
  }

  /** An undisturbed read succeeds exactly when the artifact is there, and returns what is stored. */
  lemma StillRead(tr: seq<Store>, at: Times)
    requires Trace(tr) && Clean(tr[0]) && InOrder(tr, at)
    requires forall t :: at.marker <= t <= at.last ==> tr[t] == tr[at.marker]
    ensures Read(tr, at) == if Stored(tr[at.marker]).Some? then Got(Stored(tr[at.marker]).value) else NotThere
  {
    hide Trace, ReadChunks, Follows;
    TraceSound(tr, at.marker);
    if tr[at.marker].chunked.Some? {
      var n := FirstCount(tr, at);
      assert forall i :: 0 <= i < n ==> tr[at.chunk(i)] == tr[at.marker];
      assert AllThere(tr, at, n);
      ReadOfOne(tr, at, Owner(tr[at.marker]));
    }
  }

  // ---- what one publication more would allow --------------------------------------------------

  /** Deleted after its count was read and published again by another upload: the run, for any moment of it. */
  function Republished(s: Store, b: UploadId): seq<Store>
    requires b < |s.uploads|
  {
    [s, Ran(s, DropChunked), Ran(Ran(s, DropChunked), Publish(b, false))]
  }

  /** A reader that counts first and reads `k` chunks before and the others after. */
  function Overtaken(k: nat): Times {
    Times(0, 0, 0, 0, i => if i < k then 0 else 2, 2)
  }

  lemma RepublishedRuns(s: Store, b: UploadId)
    requires StoreSound(s) && Published(s) && b in s.staged && b < |s.uploads|
    requires Whole(s.staged[b].fields, Pieces(s.uploads[b]))
    ensures var tr := Republished(s, b);
      && Trace(tr) && Published(tr[2]) && tr[2].chunked.value.fields == s.staged[b].fields
      && tr[2].owner == b && tr[2].version == s.version + 1 && tr[2].uploads == s.uploads && tr[2].puts == s.puts
  {
    var gone := Ran(s, DropChunked);
    CountIsWhole(s.staged[b].fields, Pieces(s.uploads[b]));
    hide Pieces;
    var tr := Republished(s, b);
    assert CanRun(s, DropChunked) && CanRun(gone, Publish(b, false));
    assert Follows(tr[0], tr[1]) && Follows(tr[1], tr[2]);
  }

  /**
    Overtaken after `k` of its `n` chunks, a read fails exactly when the new upload is too short to
    supply the others; otherwise it returns the splice as a success, whatever the new upload's size.
  */
  lemma OvertakenRead(s: Store, b: UploadId, k: nat)
    requires StoreSound(s) && Published(s) && b in s.staged && b < |s.uploads| && s.owner < |s.uploads|
    requires Whole(s.staged[b].fields, Pieces(s.uploads[b])) && k < |Pieces(Owner(s))|
    ensures var tr, at, n := Republished(s, b), Overtaken(k), |Pieces(Owner(s))|;
      && Trace(tr) && InOrder(tr, at) && !CountHolds(tr, at)
      && (Read(tr, at).Failed? <==> |Pieces(s.uploads[b])| < n)
      && (n <= |Pieces(s.uploads[b])| ==> Read(tr, at) == Got(Spliced(Owner(s), s.uploads[b], k, n)))
  {
    hide Pieces, Follows;
    RepublishedRuns(s, b);
    hide Trace;
    var tr, at, n := Republished(s, b), Overtaken(k), |Pieces(Owner(s))|;
    hide Ran;
    assert CountedAt(tr, at) == Some(0) && CountUsed(tr, at) == n;
    if n <= |Pieces(s.uploads[b])| {
      assert AllThere(tr, at, n);
      ReadOfTwo(tr, at, Owner(s), s.uploads[b], k);
    } else {
      assert Field(tr[at.chunk(n - 1)], n - 1).None?;
      assert !AllThere(tr, at, n);
    }
  }

  /** Bytes given to the store otherwise than by certain chunked attempts. */
  ghost predicate UploadedByOthers(s: Store, data: Bytes, but: set<UploadId>) {
    data in s.puts || exists a: nat :: a < |s.uploads| && a !in but && s.uploads[a].data == data
  }

  lemma UploadedBy(s: Store, t: Store, b: UploadId, data: Bytes)
    requires s.owner < |s.uploads| && b < |s.uploads| && t.uploads == s.uploads && t.puts == s.puts
    ensures Uploaded(t, data) <==>
      data == Owner(s).data || data == s.uploads[b].data || UploadedByOthers(s, data, {s.owner, b})
  {
    if Uploaded(t, data) && data !in s.puts {
      var a :| 0 <= a < |t.uploads| && t.uploads[a].data == data;
      assert a in {s.owner, b} || UploadedByOthers(s, data, {s.owner, b});
    }
  }

  /**
    Two incarnations of as many chunks can mix. What is then returned is an upload only by luck:
    exactly when the beginnings agree, the rests agree, or some third writer uploaded the mix itself.
  */
  lemma TwoIncarnationsMix(s: Store, b: UploadId, k: nat)
    requires StoreSound(s) && Published(s) && b in s.staged && b < |s.uploads| && s.owner < |s.uploads|
    requires Whole(s.staged[b].fields, Pieces(s.uploads[b])) && k < |Pieces(Owner(s))| == |Pieces(s.uploads[b])|
    ensures var x, y, read := Owner(s), s.uploads[b], Read(Republished(s, b), Overtaken(k));
      && read.Got?
      && (!Uploaded(Republished(s, b)[2], read.bytes) <==>
        && x.data[..CutOf(x, k)] != y.data[..CutOf(y, k)] && x.data[CutOf(x, k)..] != y.data[CutOf(y, k)..]
        && !UploadedByOthers(s, read.bytes, {s.owner, b}))
  {
    hide Pieces, Read, Ran, CutOf, Uploaded, UploadedByOthers;
    var x, y, n := Owner(s), s.uploads[b], |Pieces(Owner(s))|;
    OvertakenRead(s, b, k);
    RepublishedRuns(s, b);
    SplicedIs(x, y, k, n);
    PiecesBetween(y, k, n);
    UploadedBy(s, Republished(s, b)[2], b, Spliced(x, y, k, n));
  }

  /**
    An incarnation of more chunks is read short: overtaken before its first chunk, a read returns
    only the beginning of the new upload, and returns it as a success. That is never the new upload,
    and an upload at all only if it is the old one or a third writer's.
  */
  lemma LongerIncarnationReadShort(s: Store, b: UploadId)
    requires StoreSound(s) && Published(s) && b in s.staged && b < |s.uploads| && s.owner < |s.uploads|
    requires Whole(s.staged[b].fields, Pieces(s.uploads[b])) && 0 < |Pieces(Owner(s))| < |Pieces(s.uploads[b])|
    ensures var x, y := Owner(s), s.uploads[b];
      var short := y.data[..CutOf(y, |Pieces(x)|)];
      && Read(Republished(s, b), Overtaken(0)) == Got(short) && short < y.data
      && (!Uploaded(Republished(s, b)[2], short) <==> short != x.data && !UploadedByOthers(s, short, {s.owner, b}))
  {
    hide Pieces, Read, Ran, CutOf, Uploaded, UploadedByOthers;
    var x, y, n := Owner(s), s.uploads[b], |Pieces(Owner(s))|;
    OvertakenRead(s, b, 0);
    RepublishedRuns(s, b);
    SplicedIs(x, y, 0, n);
    PiecesBetween(y, 0, n);
    UploadedBy(s, Republished(s, b)[2], b, y.data[..CutOf(y, n)]);
  }

  /** The artifact is there, in one form or the other, at every moment of the window. */
  ghost predicate AlwaysThere(tr: seq<Store>, lo: nat, hi: nat)
    requires lo <= hi < |tr|
  {
    forall t :: lo <= t <= hi ==> tr[t].inline.Some? || tr[t].chunked.Some?
  }

  /** Chunked stays chunked: no switch back to inline in the window. */
  ghost predicate NoSwitchBack(tr: seq<Store>, lo: nat, hi: nat)
    requires lo <= hi < |tr|
  {
    forall t, u :: lo <= t <= u <= hi && tr[t].chunked.Some? ==> tr[u].chunked.Some?
  }

  /**
    An artifact that is always there is reported missing exactly when the reader's two counts fall
    outside a chunked spell and its inline look-up inside it.
  */
  lemma MissingExactly(tr: seq<Store>, at: Times)
    requires Trace(tr) && Clean(tr[0]) && InOrder(tr, at) && AlwaysThere(tr, at.marker, at.again)
    ensures Read(tr, at).NotThere? <==>
      && tr[at.marker].chunked.None? && tr[at.len].chunked.None?
      && tr[at.inline].chunked.Some? && tr[at.again].chunked.None?
  {
    hide Trace, StoreSound, Follows;
    OneRepresentation(tr, at.inline);
    assert tr[at.inline].inline.Some? || tr[at.inline].chunked.Some?;
    if tr[at.marker].chunked.Some? { PublishedCounts(tr, at.marker); }
    if tr[at.len].chunked.Some? { PublishedCounts(tr, at.len); }
    if tr[at.again].chunked.Some? { PublishedCounts(tr, at.again); }
  }

  /** So a reader racing an inline-to-chunked overwrite never reports the artifact missing. */
  lemma OverwriteIsNeverMissing(tr: seq<Store>, at: Times)
    requires Trace(tr) && Clean(tr[0]) && InOrder(tr, at)
    requires AlwaysThere(tr, at.marker, at.again) && NoSwitchBack(tr, at.marker, at.again)
    ensures !Read(tr, at).NotThere?
  {
    hide Trace, StoreSound, Follows, Read;
    MissingExactly(tr, at);
  }

  lemma PublishedCounts(tr: seq<Store>, t: nat)
    requires Trace(tr) && Clean(tr[0]) && t < |tr| && tr[t].chunked.Some?
    ensures Marker(tr[t]).Some? && Marker(tr[t]).value > 0
  {
    hide Trace;
    TraceSound(tr, t);
  }

  /** Switched to chunked and back in mid-read, an artifact that is always there is reported missing. */
  lemma SwitchingBackHides(s: Store, b: UploadId, data: Bytes)
    requires StoreSound(s) && Clean(s) && s.inline.Some? && b in s.staged
    requires Whole(s.staged[b].fields, Pieces(s.uploads[b]))
    ensures var mid := Ran(s, Publish(b, false));
      var tr := [s, mid, Ran(mid, PutInline(data, false))];
      var at := Times(0, 0, 1, 2, i => 2, 2);
      Trace(tr) && InOrder(tr, at) && AlwaysThere(tr, 0, 2) && Read(tr, at) == NotThere
  {
    CountIsWhole(s.staged[b].fields, Pieces(s.uploads[b]));
    var mid := Ran(s, Publish(b, false));
    var tr := [s, mid, Ran(mid, PutInline(data, false))];
    assert CanRun(s, Publish(b, false)) && CanRun(mid, PutInline(data, false));
    assert Follows(tr[0], tr[1]) && Follows(tr[1], tr[2]);
  }

  /** The reader's collection loop: chunks land in their slots in any order and are joined in index order. */
  method CollectChunks(order: seq<nat>, arrived: seq<Bytes>, total: nat, ghost pieces: seq<Bytes>)
    returns (result: Bytes)
    requires |arrived| == |order| && |pieces| == total
    requires forall k :: 0 <= k < |order| ==> order[k] < total && arrived[k] == pieces[order[k]]
    requires forall i: nat :: i < total ==> i in order
    ensures result == Flatten(pieces)
  {
    var chunks := new Bytes[total](_ => []);
    for k := 0 to |order|
      invariant forall i :: 0 <= i < total && i in order[..k] ==> chunks[i] == pieces[i]
    {
      assert order[..k + 1] == order[..k] + [order[k]];
      chunks[order[k]] := arrived[k];
    }
    assert order[..|order|] == order;
    assert chunks[..] == pieces;
    result := [];
    var i := total;
    while i > 0
      invariant 0 <= i <= total && chunks[..] == pieces
      invariant result == Flatten(pieces[i..])
    {
      i := i - 1;
      assert pieces[i..][1..] == pieces[i + 1..];
      result := chunks[i] + result;
    }
    assert pieces[0..] == pieces;
  }
}
