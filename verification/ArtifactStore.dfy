/**
  One artifact in the Redis store: an inline value or a chunk hash, and a private staging hash
  per upload attempt. Every command is atomic on the server; clients may be cancelled between any
  two of theirs, and commands already sent may still land later, in any order.
*/
module ArtifactStore {
  import opened ClusterTypes
  import opened Rounding
  import opened S3Parts

  type UploadId = nat

  type Positive = n: nat | n > 0 witness 1

  /** One chunked attempt: its bytes and its writer's chunk size, which is a setting of that process. */
  datatype Upload = Upload(data: Bytes, size: Positive)

  datatype Ttl = StagingTtl | Retention | NoExpiry

  /** A hash of numbered chunks; `count` is the marker field a publish adds. */
  datatype Hash = Hash(fields: map<nat, Bytes>, count: Option<nat>, ttl: Ttl)

  datatype Inline = Inline(data: Bytes, ttl: Ttl)

  /**
    `uploads` holds each chunked attempt and `puts` those of every inline write;
    `version` counts publications and `owner` is the attempt last published. All four are histories.
  */
  datatype Store = Store(
    inline: Option<Inline>,
    chunked: Option<Hash>,
    staged: map<UploadId, Hash>,
    uploads: seq<Upload>,
    puts: set<Bytes>,
    version: nat,
    owner: UploadId)

  function Pieces(u: Upload): seq<Bytes> {
    Chunks(u.data, u.size)
  }

  /** HLEN. */
  function FieldCount(h: Hash): nat {
    |h.fields| + if h.count.Some? then 1 else 0
  }

  function TtlFor(program: bool): Ttl {
    if program then NoExpiry else Retention
  }

  datatype Command =
    | Begin(upload: Upload)
    | StageChunk(attempt: UploadId, index: nat)
    | Publish(attempt: UploadId, program: bool)
    | PutInline(data: Bytes, program: bool)
    | DropStaging(attempt: UploadId)    // reclaimed or expired
    | DropInline                       // deleted or expired
    | DropChunked                      // deleted or expired

  predicate CanRun(s: Store, c: Command) {
    match c
    case Begin(u) => |u.data| > u.size
    case StageChunk(a, i) => a < |s.uploads| && i < |Pieces(s.uploads[a])|
    case Publish(a, _) => a < |s.uploads|
    case _ => true
  }

  predicate Published(s: Store) {
    s.chunked.Some? && s.chunked.value.count.Some?
  }

  function StagedCount(s: Store, a: UploadId): nat {
    if a in s.staged then FieldCount(s.staged[a]) else 0
  }

  /** The publish script's reply: 2 kept the first copy, 1 published, 0 found the staging incomplete. */
  function PublishReply(s: Store, a: UploadId): nat
    requires a < |s.uploads|
  {
    if Published(s) then 2
    else if StagedCount(s, a) != |Pieces(s.uploads[a])| then 0
    else 1
  }

  function Ran(s: Store, c: Command): Store
    requires CanRun(s, c)
  {
    match c
    case Begin(u) => s.(uploads := s.uploads + [u])
    case StageChunk(a, i) =>
      var fields := if a in s.staged then s.staged[a].fields else map[];
      var count := if a in s.staged then s.staged[a].count else None;
      s.(staged := s.staged[a := Hash(fields[i := Pieces(s.uploads[a])[i]], count, StagingTtl)])
    case Publish(a, program) =>
      (match PublishReply(s, a)
       case 2 => s.(staged := s.staged - {a}, inline := None)
       case 0 => s.(staged := s.staged - {a})
       case _ =>
         var fields := if a in s.staged then s.staged[a].fields else map[];
         s.(staged := s.staged - {a}, inline := None,
            chunked := Some(Hash(fields, Some(|Pieces(s.uploads[a])|), TtlFor(program))),
            version := s.version + 1, owner := a))
    case PutInline(data, program) =>
      s.(inline := Some(Inline(data, TtlFor(program))), chunked := None, puts := s.puts + {data})
    case DropStaging(a) => s.(staged := s.staged - {a})
    case DropInline => s.(inline := None)
    case DropChunked => s.(chunked := None)
  }

  // ---- what every command keeps --------------------------------------------------------------

  /** A staging hash holds some of its own attempt's chunks, each in its place, on the short TTL. */
  ghost predicate StagingSound(s: Store) {
    forall a :: a in s.staged ==>
      && a < |s.uploads| && s.staged[a].count.None? && s.staged[a].ttl.StagingTtl?
      && PartOf(s.staged[a].fields, Pieces(s.uploads[a]))
  }

  predicate PartOf(fields: map<nat, Bytes>, pieces: seq<Bytes>) {
    forall i :: i in fields ==> i < |pieces| && fields[i] == pieces[i]
  }

  predicate Whole(fields: map<nat, Bytes>, pieces: seq<Bytes>) {
    PartOf(fields, pieces) && forall i: nat :: i < |pieces| ==> i in fields
  }

  /** A published hash is one attempt's chunks, all of them, on the artifact's own retention. */
  ghost predicate PublishedSound(s: Store) {
    Published(s) ==>
      && s.owner < |s.uploads|
      && s.chunked.value.count == Some(|Pieces(s.uploads[s.owner])|)
      && Whole(s.chunked.value.fields, Pieces(s.uploads[s.owner]))
      && !s.chunked.value.ttl.StagingTtl?
  }

  /** An inline value is on record and on the artifact's own retention. */
  predicate InlineSound(s: Store) {
    s.inline.Some? ==> !s.inline.value.ttl.StagingTtl? && s.inline.value.data in s.puts
  }

  /** No chunk hash without its marker, as writers that filled the final key directly left behind. */
  predicate NoDebris(s: Store) {
    s.chunked.Some? ==> Published(s)
  }

  /** No debris at the final key, and never both representations. */
  predicate Clean(s: Store) {
    NoDebris(s) && (s.chunked.Some? ==> s.inline.None?)
  }

  ghost predicate StoreSound(s: Store) {
    && StagingSound(s) && PublishedSound(s) && InlineSound(s)
    && forall a :: 0 <= a < |s.uploads| ==> |s.uploads[a].data| > s.uploads[a].size
  }

  lemma {:induction false} AtMost(keys: set<nat>, n: nat)
    requires forall i :: i in keys ==> i < n
    ensures |keys| <= n
    ensures |keys| == n ==> forall i: nat :: i < n ==> i in keys
    decreases n
  {
    if n > 0 {
      AtMost(keys - {n - 1}, n - 1);
      forall i: nat | i < n && |keys| == n
        ensures i in keys
      {
        assert n - 1 !in keys ==> keys - {n - 1} == keys;
        assert i < n - 1 ==> i in keys - {n - 1};
      }
    } else {
      assert keys == {};
    }
  }

  lemma {:induction false} AtLeast(keys: set<nat>, n: nat)
    requires forall i: nat :: i < n ==> i in keys
    ensures |keys| >= n
    decreases n
  {
    if n > 0 {
      AtLeast(keys - {n - 1}, n - 1);
    }
  }

  /** Counting the fields is enough: a staging hash with as many as its attempt has chunks has them all. */
  lemma CountIsWhole(fields: map<nat, Bytes>, pieces: seq<Bytes>)
    requires PartOf(fields, pieces)
    ensures |fields| == |pieces| <==> Whole(fields, pieces)
  {
    AtMost(fields.Keys, |pieces|);
    if Whole(fields, pieces) {
      AtLeast(fields.Keys, |pieces|);
    }
  }

  lemma StagingKeeps(s: Store, c: Command)
    requires StagingSound(s) && CanRun(s, c)
    ensures StagingSound(Ran(s, c))
  {
    hide Pieces;
  }

  lemma PublishedKeeps(s: Store, c: Command)
    requires StagingSound(s) && PublishedSound(s) && CanRun(s, c)
    ensures PublishedSound(Ran(s, c))
  {
    hide Pieces;
    if c.Publish? && PublishReply(s, c.attempt) == 1 {
      CountIsWhole(if c.attempt in s.staged then s.staged[c.attempt].fields else map[], Pieces(s.uploads[c.attempt]));
    }
  }

  lemma CommandKeeps(s: Store, c: Command)
    requires StoreSound(s) && CanRun(s, c)
    ensures StoreSound(Ran(s, c))
  {
    hide StagingSound, PublishedSound, Pieces;
    StagingKeeps(s, c);
    PublishedKeeps(s, c);
  }

  lemma CommandKeepsClean(s: Store, c: Command)
    requires Clean(s) && CanRun(s, c)
    ensures Clean(Ran(s, c))
  {}

  /** No command makes an unmarked hash: one that is there was there before, field for field. */
  lemma DebrisIsOld(s: Store, c: Command)
    requires CanRun(s, c) && !NoDebris(Ran(s, c))
    ensures s.chunked == Ran(s, c).chunked
  {}

  /** A published hash never changes: any command leaves it as it is or removes it whole. */
  lemma PublishedIsImmutable(s: Store, c: Command)
    requires Published(s) && CanRun(s, c)
    ensures Ran(s, c).chunked == s.chunked || Ran(s, c).chunked == None
    ensures Ran(s, c).version == s.version && Ran(s, c).owner == s.owner
  {}

  /** A publish succeeds exactly when nothing is published yet and every chunk of the attempt is staged. */
  lemma PublishesOnlyWhole(s: Store, a: UploadId)
    requires StoreSound(s) && a < |s.uploads|
    ensures PublishReply(s, a) == 1 <==> !Published(s) && a in s.staged && Whole(s.staged[a].fields, Pieces(s.uploads[a]))
  {
    if a in s.staged {
      CountIsWhole(s.staged[a].fields, Pieces(s.uploads[a]));
    }
  }

  /** A program is kept without expiry, anything else for the retention period, and only what is being staged for less. */
  lemma RetentionByKind(s: Store, a: UploadId, i: nat, data: Bytes, program: bool)
    requires a < |s.uploads|
    ensures Ran(s, PutInline(data, program)).inline.value.ttl == if program then NoExpiry else Retention
    ensures PublishReply(s, a) == 1 ==>
      Ran(s, Publish(a, program)).chunked.value.ttl == if program then NoExpiry else Retention
    ensures i < |Pieces(s.uploads[a])| ==> Ran(s, StageChunk(a, i)).staged[a].ttl == StagingTtl
  {
    hide Chunks;
  }

  lemma StageEffect(s: Store, a: UploadId, i: nat)
    requires CanRun(s, StageChunk(a, i))
    ensures var t := Ran(s, StageChunk(a, i));
      && t == s.(staged := t.staged) && a in t.staged && t.staged - {a} == s.staged - {a}
      && t.staged[a].fields.Keys == (if a in s.staged then s.staged[a].fields.Keys else {}) + {i}
  {
    hide Chunks;
  }

  lemma StagedParts(s: Store)
    requires StoreSound(s)
    ensures forall a :: a in s.staged ==> a < |s.uploads| && PartOf(s.staged[a].fields, Pieces(s.uploads[a]))
    ensures forall a :: 0 <= a < |s.uploads| ==> Pieces(s.uploads[a]) != []
  {}

  /** The bytes the artifact stands for: the published upload's, or the inline value's. */
  function Stored(s: Store): Option<Bytes> {
    if Published(s) && s.owner < |s.uploads| then Some(s.uploads[s.owner].data)
    else if s.inline.Some? then Some(s.inline.value.data)
    else None
  }

  /** The chunks a reader asks a hash for, by its marker or else by its length; a missing one is empty here. */
  function Slots(chunked: Option<Hash>): seq<Bytes> {
    if chunked.None? then [] else
      var h := chunked.value;
      seq(if h.count.Some? then h.count.value else FieldCount(h), i => if i in h.fields then h.fields[i] else [])
  }

  predicate Gapless(fields: map<nat, Bytes>, n: nat) {
    forall i: nat :: i < n ==> i in fields
  }

  lemma SlotsStored(s: Store)
    requires StoreSound(s) && Published(s)
    ensures Slots(s.chunked) != [] && Gapless(s.chunked.value.fields, |Slots(s.chunked)|)
    ensures Stored(s) == Some(Flatten(Slots(s.chunked)))
  {
    var u := s.uploads[s.owner];
    assert Slots(s.chunked) == Pieces(u);
    FlattenChunks(u.data, u.size);
  }

  // ---- the commands as the server runs them --------------------------------------------------

  class RedisKeys {
    var inline: Option<Inline>
    var chunked: Option<Hash>
    var staged: map<UploadId, Hash>
    ghost var uploads: seq<Upload>
    ghost var puts: set<Bytes>
    ghost var version: nat
    ghost var owner: UploadId

    ghost function State(): Store
      reads this
    {
      Store(inline, chunked, staged, uploads, puts, version, owner)
    }

    /** `stage_chunk`: HSET and EXPIRE in one transaction. */
    method Stage(a: UploadId, i: nat, chunk: Bytes)
      requires CanRun(State(), StageChunk(a, i)) && chunk == Pieces(uploads[a])[i]
      modifies this`staged
      ensures State() == Ran(old(State()), StageChunk(a, i))
    {
      var h := if a in staged then staged[a] else Hash(map[], None, StagingTtl);
      h := h.(fields := h.fields[i := chunk]);
      h := h.(ttl := StagingTtl);
      staged := staged[a := h];
    }

    /** The publish script, command by command. */
    method PublishScript(a: UploadId, program: bool, chunkCount: nat) returns (reply: nat)
      requires StoreSound(State()) && CanRun(State(), Publish(a, program)) && chunkCount == |Pieces(uploads[a])|
      modifies this`inline, this`chunked, this`staged, this`version, this`owner
      ensures State() == Ran(old(State()), Publish(a, program))
      ensures reply == PublishReply(old(State()), a)
      ensures reply != 0 ==> Published(State()) && inline.None?
      ensures reply == 1 ==> chunked.value.ttl == if program then NoExpiry else Retention
      ensures reply != 1 ==> chunked == old(chunked)
    {
      if chunked.Some? && chunked.value.count.Some? {
        staged := staged - {a};
        inline := None;
        return 2;
      }
      var len := if a in staged then FieldCount(staged[a]) else 0;
      if len != chunkCount {
        staged := staged - {a};
        return 0;
      }
      PublishesOnlyWhole(State(), a);
      var moved := staged[a].(count := Some(chunkCount));
      chunked := None;
      staged := staged - {a};
      moved := moved.(ttl := if program then NoExpiry else Retention);
      chunked := Some(moved);
      version, owner := version + 1, a;
      inline := None;
      reply := 1;
    }

    /** `upload_inline`: SET and UNLINK in one transaction. */
    method SetInline(data: Bytes, program: bool)
      requires CanRun(State(), PutInline(data, program))
      modifies this`inline, this`chunked, this`puts
      ensures State() == Ran(old(State()), PutInline(data, program))
      ensures Stored(State()) == Some(data)
      ensures chunked == None && inline == Some(Inline(data, if program then NoExpiry else Retention))
    {
      inline := Some(Inline(data, if program then NoExpiry else Retention));
      chunked := None;
      puts := puts + {data};
    }

    /** `stage_chunks`: every chunk of a fresh attempt, one by one. */
    method StageAll(a: UploadId, data: Bytes, size: Positive)
      requires StoreSound(State()) && a < |uploads| && uploads[a] == Upload(data, size) && a !in staged
      modifies this`staged
      ensures StoreSound(State())
      ensures a in staged && Whole(staged[a].fields, Chunks(data, size))
      ensures staged - {a} == old(staged)
    {
      StagedParts(State());
      hide StoreSound, Ran, Chunks;
      var chunks := Chunks(data, size);
      for i := 0 to |chunks|
        invariant StoreSound(State()) && staged - {a} == old(staged)
        invariant i > 0 ==> a in staged
        invariant forall j: nat :: j < i ==> j in staged[a].fields
      {
        CommandKeeps(State(), StageChunk(a, i));
        StageEffect(State(), a, i);
        Stage(a, i, chunks[i]);
      }
      StagedParts(State());
    }

    /**
      `upload_chunked`, undisturbed: a first upload becomes what is stored; a later one leaves the
      published copy alone. Either way it succeeds and no staging is left.
    */
    method UploadChunked(a: UploadId, data: Bytes, size: Positive, program: bool) returns (reply: nat)
      requires StoreSound(State()) && a == |uploads| && |data| > size
      modifies this
      ensures StoreSound(State()) && staged == old(staged) && reply > 0
      ensures Stored(State()) == if old(Published(State())) then old(Stored(State())) else Some(data)
    {
      CommandKeeps(State(), Begin(Upload(data, size)));
      assert a !in staged;
      uploads := uploads + [Upload(data, size)];
      StageAll(a, data, size);
      ghost var ready := State();
      PublishesOnlyWhole(ready, a);
      CommandKeeps(ready, Publish(a, program));
      ChunksCount(data, size);
      reply := PublishScript(a, program, DivCeil(|data|, size));
      assert staged == ready.staged - {a};
    }

    /**
      `par_download_file`, undisturbed: what is stored, in whichever form. An unmarked hash is read
      as the chunks it happens to have; a gap among them is an error.
    */
    method Download() returns (r: Option<Bytes>)
      requires StoreSound(State())
      ensures Published(State()) || Slots(chunked) == [] ==> r == Stored(State())
      ensures Slots(chunked) != [] ==>
        r == if Gapless(chunked.value.fields, |Slots(chunked)|) then Some(Flatten(Slots(chunked))) else None
    {
      if Published(State()) { SlotsStored(State()); }
      hide StoreSound;
      var n := 0;
      if chunked.Some? {
        n := if chunked.value.count.Some? then chunked.value.count.value else FieldCount(chunked.value);
      }
      if n == 0 {
        return if inline.Some? then Some(inline.value.data) else None;
      }
      ghost var slots := Slots(chunked);
      var bytes: Bytes := [];
      var i := n;
      while i > 0
        invariant 0 <= i <= n
        invariant bytes == Flatten(slots[i..])
        invariant forall j: nat :: i <= j < n ==> j in chunked.value.fields
      {
        i := i - 1;
        if i !in chunked.value.fields {
          return None;
        }
        assert slots[i..][1..] == slots[i + 1..];
        bytes := chunked.value.fields[i] + bytes;
      }
      assert slots[0..] == slots;
      r := Some(bytes);
    }
  }
}
