/** Object manifests and the layout check of src/manifest.rs. */
module Manifest {
  import opened Basics

  datatype Replica = Replica(account: string, peer: string, message: int)

  /** `source` and `sourceOrder` name the payload when the chunk was composed from another object. */
  datatype Chunk = Chunk(
    order: nat,
    offset: nat,
    size: nat,
    checksum: string,
    peer: string,
    message: int,
    source: Option<Uuid>,
    sourceOrder: Option<nat>,
    replicas: seq<Replica>)

  datatype Encryption = Encryption(enabled: bool, format: string, keyId: Option<string>)

  datatype Checksum = Checksum(algorithm: string, wholeObject: string)

  datatype ObjectManifest = ObjectManifest(
    schemaVersion: nat,
    id: Uuid,
    bucket: string,
    key: string,
    contentLength: U64,
    checksum: Checksum,
    encryption: Encryption,
    peer: string,
    chunks: seq<Chunk>)

  /** The Unicode White_Space property, which `str::trim` strips. */
  predicate IsSpace(c: char) {
    '\U{9}' <= c <= '\U{D}' || c == ' ' || c == '\U{85}' || c == '\U{A0}' || c == '\U{1680}'
    || '\U{2000}' <= c <= '\U{200A}'
    || c == '\U{2028}' || c == '\U{2029}' || c == '\U{202F}' || c == '\U{205F}' || c == '\U{3000}'
  }

  /** `trim().is_empty()`. */
  predicate Blank(s: string) {
    forall i :: 0 <= i < |s| ==> IsSpace(s[i])
  }

  datatype Identity = Identity(owner: Uuid, order: nat)

  function PayloadIdentity(c: Chunk, manifest: Uuid): Identity {
    Identity(if c.source.Some? then c.source.value else manifest,
             if c.sourceOrder.Some? then c.sourceOrder.value else c.order)
  }

  predicate ReferencesRemotePayload(c: Chunk) {
    c.source.Some? && c.sourceOrder.Some?
  }

  // ---- what a valid manifest is --------------------------------------------

  /** The summed size of the first n chunks. */
  function SizeBefore(chunks: seq<Chunk>, n: nat): nat
    requires n <= |chunks|
  {
    if n == 0 then 0 else SizeBefore(chunks, n - 1) + chunks[n - 1].size
  }

  predicate ReplicaOk(r: Replica) {
    !Blank(r.account) && !Blank(r.peer) && r.message > 0
  }

  predicate ChunkOk(c: Chunk) {
    && (c.source.Some? <==> c.sourceOrder.Some?)
    && (ReferencesRemotePayload(c) ==> c.message > 0)
    && (forall i :: 0 <= i < |c.replicas| ==> ReplicaOk(c.replicas[i]))
    && c.size != 0 && !Blank(c.checksum) && !Blank(c.peer)
  }

  predicate ChunksOk(chunks: seq<Chunk>) {
    forall i :: 0 <= i < |chunks| ==> ChunkOk(chunks[i])
  }

  /** Chunk i covers the bytes after those of its predecessors; its order is i as a u32. */
  predicate Placed(chunks: seq<Chunk>, i: nat)
    requires i < |chunks|
  {
    chunks[i].order == i % 0x1_0000_0000 && chunks[i].offset == SizeBefore(chunks, i) && chunks[i].size > 0
  }

  /** The chunks tile the bytes from 0 to length, in order. */
  ghost predicate Tiles(chunks: seq<Chunk>, length: nat) {
    (forall i :: 0 <= i < |chunks| ==> Placed(chunks, i)) && SizeBefore(chunks, |chunks|) == length
  }

  predicate EncryptionOk(e: Encryption) {
    e.enabled ==> !Blank(e.format) && e.keyId.Some? && e.keyId.value != ""
  }

  predicate HeaderOk(m: ObjectManifest) {
    m.schemaVersion != 0 && !Blank(m.bucket) && !Blank(m.key) && !Blank(m.checksum.algorithm)
    && !Blank(m.checksum.wholeObject)
    && !Blank(m.peer) && EncryptionOk(m.encryption)
  }

  ghost predicate WellFormed(m: ObjectManifest) {
    HeaderOk(m) && ChunksOk(m.chunks) && Tiles(m.chunks, m.contentLength)
  }

  lemma {:induction false} SizeGrows(chunks: seq<Chunk>, i: nat, n: nat)
    requires i <= n <= |chunks|
    ensures SizeBefore(chunks, i) <= SizeBefore(chunks, n)
    decreases n
  {
    if i < n {
      SizeGrows(chunks, i, n - 1);
    }
  }

  // ---- the check -----------------------------------------------------------

  method ValidReplicas(c: Chunk) returns (ok: bool)
    ensures ok <==> forall i :: 0 <= i < |c.replicas| ==> ReplicaOk(c.replicas[i])
  {
    for i := 0 to |c.replicas|
      invariant forall j :: 0 <= j < i ==> ReplicaOk(c.replicas[j])
    {
      if Blank(c.replicas[i].account) || Blank(c.replicas[i].peer) || c.replicas[i].message <= 0 {
        return false;
      }
    }
    return true;
  }

  /**
   `ObjectManifest::validate`: one pass with a running u64 offset accepts exactly the manifests
   whose chunks tile the content.
   */
  method Validate(m: ObjectManifest) returns (ok: bool)
    ensures ok <==> WellFormed(m)
  {
    if m.schemaVersion == 0 || Blank(m.bucket) || Blank(m.key) || Blank(m.checksum.algorithm)
       || Blank(m.checksum.wholeObject) || Blank(m.peer) {
      return false;
    }
    if m.encryption.enabled {
      if Blank(m.encryption.format) || m.encryption.keyId.None? || m.encryption.keyId.value == "" {
        return false;
      }
    }
    if m.chunks == [] {
      return m.contentLength == 0;
    }
    var expected: nat := 0;
    for i := 0 to |m.chunks|
      invariant forall j :: 0 <= j < i ==> ChunkOk(m.chunks[j])
      invariant forall j :: 0 <= j < i ==> Placed(m.chunks, j)
      invariant expected == SizeBefore(m.chunks, i) <= U64_MAX
    {
      var c := m.chunks[i];
      var replicas := ValidReplicas(c);
      if c.source.Some? != c.sourceOrder.Some? || (ReferencesRemotePayload(c) && c.message <= 0) || !replicas {
        assert !ChunkOk(m.chunks[i]);
        return false;
      }
      if c.order != i % 0x1_0000_0000 || c.size == 0 || c.offset != expected || Blank(c.checksum) || Blank(c.peer) {
        assert !ChunkOk(m.chunks[i]) || !Placed(m.chunks, i);
        return false;
      }
      SizeGrows(m.chunks, i + 1, |m.chunks|);
      if expected + c.size > U64_MAX {
        return false;
      }
      expected := expected + c.size;
    }
    return expected == m.contentLength;
  }

  /** Chunk i of a valid manifest is found under its own order exactly while i fits a u32. */
  lemma OrderFindsChunk(m: ObjectManifest, i: nat)
    requires WellFormed(m) && i < |m.chunks|
    ensures m.chunks[i].order == i <==> i <= U32_MAX
  {
    assert Placed(m.chunks, i);
  }

  /** An object of n one-byte chunks, with the orders the check asks for. */
  function UnitChunks(n: nat): seq<Chunk> {
    seq(n, i requires 0 <= i => Chunk(i % 0x1_0000_0000, i, 1, "c", "p", 1, None, None, []))
  }

  function UnitManifest(n: U64): ObjectManifest {
    ObjectManifest(1, 0, "b", "k", n, Checksum("a", "d"), Encryption(false, "", None), "p", UnitChunks(n))
  }

  lemma {:induction false} UnitSizes(n: nat, i: nat)
    requires i <= n
    ensures SizeBefore(UnitChunks(n), i) == i
    decreases i
  {
    if i > 0 {
      UnitSizes(n, i - 1);
    }
  }

  /** Manifests with more than 2^32 chunks are valid too, and then two chunks share the order 0. */
  lemma LongManifestRepeatsOrders(n: U64)
    ensures WellFormed(UnitManifest(n))
    ensures n > U32_MAX + 1 ==>
      var chunks := UnitManifest(n).chunks; |chunks| == n && chunks[U32_MAX + 1].order == chunks[0].order == 0
  {
    var chunks := UnitChunks(n);
    forall i | 0 <= i < |chunks|
      ensures Placed(chunks, i)
    {
      UnitSizes(n, i);
    }
    UnitSizes(n, n);
    assert "b"[0] == 'b' && "k"[0] == 'k' && "a"[0] == 'a' && "d"[0] == 'd' && "p"[0] == 'p' && "c"[0] == 'c';
  }

  // ---- bytes ---------------------------------------------------------------

  type Byte = x: nat | x < 256

  /** Decrypted payloads by identity. */
  type Payloads = map<Identity, seq<Byte>>

  predicate Holds(store: Payloads, c: Chunk, manifest: Uuid) {
    PayloadIdentity(c, manifest) in store && |store[PayloadIdentity(c, manifest)]| == c.size
  }

  predicate Stored(store: Payloads, chunks: seq<Chunk>, manifest: Uuid) {
    forall i :: 0 <= i < |chunks| ==> Holds(store, chunks[i], manifest)
  }

  /** The bytes the first n chunks stand for, in order. */
  function ContentBefore(store: Payloads, chunks: seq<Chunk>, manifest: Uuid, n: nat): (bytes: seq<Byte>)
    requires Stored(store, chunks, manifest) && n <= |chunks|
    ensures |bytes| == SizeBefore(chunks, n)
  {
    if n == 0 then []
    else
      assert Holds(store, chunks[n - 1], manifest);
      ContentBefore(store, chunks, manifest, n - 1) + store[PayloadIdentity(chunks[n - 1], manifest)]
  }

  /** The whole content of an object. */
  function Content(store: Payloads, chunks: seq<Chunk>, manifest: Uuid): (bytes: seq<Byte>)
    requires Stored(store, chunks, manifest)
    ensures |bytes| == SizeBefore(chunks, |chunks|)
  {
    ContentBefore(store, chunks, manifest, |chunks|)
  }

  /** The payload a chunk names: its own object and order, unless it was composed from another object. */
  predicate Names(c: Chunk, manifest: Uuid, payload: Identity) {
    && (c.source.None? && c.sourceOrder.None? ==> payload == Identity(manifest, c.order))
    && (c.source.Some? && c.sourceOrder.Some? ==> payload == Identity(c.source.value, c.sourceOrder.value))
  }

  lemma {:induction false} ContentGrows(store: Payloads, chunks: seq<Chunk>, manifest: Uuid, n: nat, k: nat)
    requires Stored(store, chunks, manifest) && n <= k <= |chunks|
    ensures ContentBefore(store, chunks, manifest, n) <= ContentBefore(store, chunks, manifest, k)
    decreases k
  {
    if n < k {
      ContentGrows(store, chunks, manifest, n, k - 1);
    }
  }

  /** Byte k of chunk i is byte k of the payload the chunk names, at the chunk's offset plus k. */
  lemma ContentAt(store: Payloads, m: ObjectManifest, i: nat, k: nat, payload: Identity)
    requires WellFormed(m) && Stored(store, m.chunks, m.id) && i < |m.chunks| && k < m.chunks[i].size
    requires Names(m.chunks[i], m.id, payload)
    ensures |Content(store, m.chunks, m.id)| == m.contentLength && m.chunks[i].offset + k < m.contentLength
    ensures payload in store && k < |store[payload]|
    ensures Content(store, m.chunks, m.id)[m.chunks[i].offset + k] == store[payload][k]
  {
    assert ChunkOk(m.chunks[i]) && Holds(store, m.chunks[i], m.id) && Placed(m.chunks, i);
    ContentGrows(store, m.chunks, m.id, i + 1, |m.chunks|);
    SizeGrows(m.chunks, i + 1, |m.chunks|);
  }

  /** Different plain chunks of an object name different payloads. */
  lemma PlainChunksDiffer(m: ObjectManifest, i: nat, j: nat, a: Identity, b: Identity)
    requires WellFormed(m) && |m.chunks| <= U32_MAX + 1 && i < j < |m.chunks|
    requires m.chunks[i].source.None? && m.chunks[j].source.None?
    requires Names(m.chunks[i], m.id, a) && Names(m.chunks[j], m.id, b)
    ensures a != b
  {
    assert Placed(m.chunks, i) && Placed(m.chunks, j) && ChunkOk(m.chunks[i]) && ChunkOk(m.chunks[j]);
  }
}
