/**
 Multipart completion by reference (src/object_format.rs, `complete_multipart_upload`): the
 chunks of the part manifests are renumbered and re-placed, no payload is copied.
 */
module Composition {
  import opened Basics
  import opened Manifest
  import opened ReadPlanning

  datatype PartPlan = PartPlan(number: nat, etag: string, size: nat, checksum: string)

  datatype StoredPart = StoredPart(etag: string, size: nat, checksum: string, manifest: Option<ObjectManifest>)

  datatype Plan = Plan(id: Uuid, bucket: string, key: string, contentLength: U64, parts: seq<PartPlan>)

  datatype Refusal =
    | PartsOutOfOrder | MissingPart | EtagMismatch | LegacyPart | InvalidPart | PartChanged | MixedEncryption
    | PartNotComposable | LengthMismatch | NoParts | InvalidResult

  datatype Outcome = Composed(manifest: ObjectManifest) | Refused(why: Refusal)

  const SCHEMA_VERSION: nat := 2
  const ALGORITHM: string := "sha256-parts-v1"

  // ---- the composed layout -------------------------------------------------

  /** The chunk at its new place, naming the payload it always named. */
  function Rebase(c: Chunk, manifest: Uuid, order: nat, offset: nat): Chunk {
    var id := PayloadIdentity(c, manifest);
    c.(order := order, offset := offset, source := Some(id.owner), sourceOrder := Some(id.order))
  }

  /** A whole part behind `first` chunks and `base` bytes: every chunk moves by the same distance. */
  function Rebased(m: ObjectManifest, first: nat, base: nat): seq<Chunk> {
    seq(|m.chunks|, i requires 0 <= i < |m.chunks| => Rebase(m.chunks[i], m.id, first + i, base + m.chunks[i].offset))
  }

  function TotalLength(parts: seq<ObjectManifest>): nat {
    if parts == [] then 0 else TotalLength(parts[..|parts| - 1]) + parts[|parts| - 1].contentLength
  }

  function Layout(parts: seq<ObjectManifest>): seq<Chunk> {
    if parts == [] then []
    else
      var front := parts[..|parts| - 1];
      Layout(front) + Rebased(parts[|parts| - 1], |Layout(front)|, TotalLength(front))
  }

  predicate Published(m: ObjectManifest) {
    forall i :: 0 <= i < |m.chunks| ==> m.chunks[i].message > 0
  }

  ghost predicate AllGood(parts: seq<ObjectManifest>) {
    forall p :: 0 <= p < |parts| ==> WellFormed(parts[p]) && Published(parts[p])
  }

  // ---- the composed layout is valid ----------------------------------------

  lemma RebaseKeepsOk(c: Chunk, manifest: Uuid, order: nat, offset: nat)
    requires ChunkOk(c) && c.message > 0
    ensures ChunkOk(Rebase(c, manifest, order, offset))
  {
  }

  /** `all` is `front` followed by the chunks of the part at their new place. */
  ghost predicate Continues(all: seq<Chunk>, front: seq<Chunk>, m: ObjectManifest, base: nat) {
    && |all| == |front| + |m.chunks|
    && (forall i :: 0 <= i < |front| ==> all[i] == front[i])
    && (forall j :: 0 <= j < |m.chunks| ==>
        all[|front| + j] == Rebase(m.chunks[j], m.id, |front| + j, base + m.chunks[j].offset))
  }

  lemma RebasedContinues(front: seq<Chunk>, m: ObjectManifest, base: nat)
    ensures Continues(front + Rebased(m, |front|, base), front, m, base)
  {
  }

  lemma {:induction false} SizeInFront(all: seq<Chunk>, front: seq<Chunk>, m: ObjectManifest, base: nat, n: nat)
    requires Continues(all, front, m, base) && n <= |front|
    ensures SizeBefore(all, n) == SizeBefore(front, n)
  {
    if n > 0 {
      SizeInFront(all, front, m, base, n - 1);
    }
  }

  lemma {:induction false} SizeInTail(all: seq<Chunk>, front: seq<Chunk>, m: ObjectManifest, base: nat, j: nat)
    requires Continues(all, front, m, base) && j <= |m.chunks|
    ensures SizeBefore(all, |front| + j) == SizeBefore(front, |front|) + SizeBefore(m.chunks, j)
    decreases j
  {
    if j == 0 {
      SizeInFront(all, front, m, base, |front|);
    } else {
      SizeInTail(all, front, m, base, j - 1);
      assert all[|front| + (j - 1)].size == m.chunks[j - 1].size;
    }
  }

  lemma SmallOrder(i: nat)
    requires i <= U32_MAX
    ensures i % 0x1_0000_0000 == i
  {
  }

  lemma TailIsPlaced(all: seq<Chunk>, front: seq<Chunk>, m: ObjectManifest, j: nat)
    requires Continues(all, front, m, SizeBefore(front, |front|))
    requires j < |m.chunks| && |front| + j <= U32_MAX && Placed(m.chunks, j)
    ensures Placed(all, |front| + j)
  {
    SizeInTail(all, front, m, SizeBefore(front, |front|), j);
    SmallOrder(|front| + j);
  }

  /** Appending a tiled part to a tiled layout tiles the sum. */
  lemma AppendedTiles(all: seq<Chunk>, front: seq<Chunk>, m: ObjectManifest)
    requires Tiles(front, SizeBefore(front, |front|)) && Tiles(m.chunks, m.contentLength) && |all| <= U32_MAX + 1
    requires Continues(all, front, m, SizeBefore(front, |front|))
    ensures Tiles(all, SizeBefore(front, |front|) + m.contentLength)
  {
    forall i | 0 <= i < |all|
      ensures Placed(all, i)
    {
      if i < |front| {
        assert Placed(front, i);
        SizeInFront(all, front, m, SizeBefore(front, |front|), i);
      } else {
        assert Placed(m.chunks, i - |front|);
        TailIsPlaced(all, front, m, i - |front|);
      }
    }
    SizeInTail(all, front, m, SizeBefore(front, |front|), |m.chunks|);
  }

  lemma AppendedAreOk(all: seq<Chunk>, front: seq<Chunk>, m: ObjectManifest, base: nat)
    requires ChunksOk(front) && ChunksOk(m.chunks) && Published(m) && Continues(all, front, m, base)
    ensures ChunksOk(all)
  {
    forall i | 0 <= i < |all|
      ensures ChunkOk(all[i])
    {
      if i < |front| {
        assert ChunkOk(front[i]);
      } else {
        var j := i - |front|;
        assert ChunkOk(m.chunks[j]);
        assert all[|front| + j] == Rebase(m.chunks[j], m.id, |front| + j, base + m.chunks[j].offset);
        RebaseKeepsOk(m.chunks[j], m.id, i, base + m.chunks[j].offset);
      }
    }
  }

  /** Any valid, published parts compose to a layout that validates, up to 2^32 chunks. */
  lemma {:induction false} LayoutIsValid(parts: seq<ObjectManifest>)
    requires AllGood(parts) && |Layout(parts)| <= U32_MAX + 1
    ensures ChunksOk(Layout(parts)) && Tiles(Layout(parts), TotalLength(parts))
    decreases |parts|
  {
    if parts != [] {
      var front, m := parts[..|parts| - 1], parts[|parts| - 1];
      LayoutIsValid(front);
      RebasedContinues(Layout(front), m, TotalLength(front));
      AppendedAreOk(Layout(parts), Layout(front), m, TotalLength(front));
      AppendedTiles(Layout(parts), Layout(front), m);
    }
  }

  /** The copy keeps everything but its place, and names the payload the chunk names: its part's, or what that names. */
  predicate IsMoved(copy: Chunk, c: Chunk, part: Uuid, order: nat, offset: nat) {
    && copy.order == order && copy.offset == offset
    && copy.size == c.size && copy.checksum == c.checksum
    && copy.peer == c.peer && copy.message == c.message && copy.replicas == c.replicas
    && (c.source.None? && c.sourceOrder.None? ==> copy.source == Some(part) && copy.sourceOrder == Some(c.order))
    && (c.source.Some? && c.sourceOrder.Some? ==> copy.source == c.source && copy.sourceOrder == c.sourceOrder)
  }

  /** How many chunks, and how many bytes, the first p parts have. */
  function ChunksBefore(parts: seq<ObjectManifest>, p: nat): nat
    requires p <= |parts|
  {
    if p == 0 then 0 else ChunksBefore(parts, p - 1) + |parts[p - 1].chunks|
  }

  function BytesBefore(parts: seq<ObjectManifest>, p: nat): nat
    requires p <= |parts|
  {
    if p == 0 then 0 else BytesBefore(parts, p - 1) + parts[p - 1].contentLength
  }

  lemma {:induction false} PlacesBefore(parts: seq<ObjectManifest>, p: nat)
    requires p <= |parts|
    ensures |Layout(parts[..p])| == ChunksBefore(parts, p) && TotalLength(parts[..p]) == BytesBefore(parts, p)
    decreases p
  {
    if p > 0 {
      PlacesBefore(parts, p - 1);
      assert parts[..p][..p - 1] == parts[..p - 1];
    }
  }

  // ---- payload identities --------------------------------------------------

  lemma {:induction false} LayoutPrefix(parts: seq<ObjectManifest>, p: nat)
    requires p <= |parts|
    ensures |Layout(parts[..p])| <= |Layout(parts)| && Layout(parts)[..|Layout(parts[..p])|] == Layout(parts[..p])
    ensures TotalLength(parts[..p]) <= TotalLength(parts)
    decreases |parts|
  {
    if p == |parts| {
      assert parts[..p] == parts;
    } else {
      var front := parts[..|parts| - 1];
      LayoutPrefix(front, p);
      assert front[..p] == parts[..p];
    }
  }

  lemma LayoutAt(parts: seq<ObjectManifest>, p: nat, j: nat)
    requires p < |parts| && j < |parts[p].chunks|
    ensures var at := |Layout(parts[..p])| + j;
      && at < |Layout(parts[..p + 1])| <= |Layout(parts)|
      && var c := parts[p].chunks[j];
         Layout(parts)[at] == Rebase(c, parts[p].id, at, TotalLength(parts[..p]) + c.offset)
  {
    var at := |Layout(parts[..p])| + j;
    LayoutPrefix(parts, p + 1);
    assert parts[..p + 1][..p] == parts[..p];
    assert Layout(parts)[at] == Layout(parts[..p + 1])[at]
      == Rebased(parts[p], |Layout(parts[..p])|, TotalLength(parts[..p]))[j];
  }

  /**
   Chunk j of part p appears once, behind all chunks and bytes of the earlier parts, with its
   payload, size, checksum, location and replicas unchanged, also when the part was itself
   composed from other objects.
   */
  lemma IdentityIsKept(parts: seq<ObjectManifest>, p: nat, j: nat)
    requires p < |parts| && j < |parts[p].chunks|
    ensures ChunksBefore(parts, p) + j < |Layout(parts)|
    ensures IsMovedFrom(Layout(parts)[ChunksBefore(parts, p) + j], parts, p, j)
  {
    PlacesBefore(parts, p);
    LayoutAt(parts, p, j);
  }

  /** The copy of chunk j of part p, behind all earlier parts. */
  predicate IsMovedFrom(copy: Chunk, parts: seq<ObjectManifest>, p: nat, j: nat)
    requires p < |parts| && j < |parts[p].chunks|
  {
    var c := parts[p].chunks[j];
    IsMoved(copy, c, parts[p].id, ChunksBefore(parts, p) + j, BytesBefore(parts, p) + c.offset)
  }

  // ---- contents ------------------------------------------------------------

  lemma {:induction false} ContentInFront(store: Payloads, all: seq<Chunk>, front: seq<Chunk>, m: ObjectManifest,
                                          base: nat, id: Uuid, n: nat)
    requires Continues(all, front, m, base) && n <= |front| && Stored(store, front, id) && Stored(store, all, id)
    ensures ContentBefore(store, all, id, n) == ContentBefore(store, front, id, n)
  {
    if n > 0 {
      ContentInFront(store, all, front, m, base, id, n - 1);
    }
  }

  lemma Associate(a: seq<Byte>, b: seq<Byte>, c: seq<Byte>)
    ensures (a + b) + c == a + (b + c)
  {
  }

  lemma {:induction false} ContentInTail(store: Payloads, all: seq<Chunk>, front: seq<Chunk>, m: ObjectManifest,
                                         base: nat, id: Uuid, j: nat)
    requires Continues(all, front, m, base) && j <= |m.chunks|
    requires Stored(store, front, id) && Stored(store, m.chunks, m.id) && Stored(store, all, id)
    ensures ContentBefore(store, all, id, |front| + j)
      == Content(store, front, id) + ContentBefore(store, m.chunks, m.id, j)
    decreases j
  {
    if j == 0 {
      ContentInFront(store, all, front, m, base, id, |front|);
    } else {
      ContentInTail(store, all, front, m, base, id, j - 1);
      assert PayloadIdentity(all[|front| + (j - 1)], id) == PayloadIdentity(m.chunks[j - 1], m.id);
      Associate(Content(store, front, id), ContentBefore(store, m.chunks, m.id, j - 1),
                store[PayloadIdentity(m.chunks[j - 1], m.id)]);
    }
  }

  lemma ContinuedIsStored(store: Payloads, all: seq<Chunk>, front: seq<Chunk>, m: ObjectManifest, base: nat, id: Uuid)
    requires Continues(all, front, m, base) && Stored(store, front, id) && Stored(store, m.chunks, m.id)
    ensures Stored(store, all, id)
  {
    forall i | 0 <= i < |all|
      ensures Holds(store, all[i], id)
    {
      if i < |front| {
        assert Holds(store, front[i], id);
      } else {
        var j := i - |front|;
        assert Holds(store, m.chunks[j], m.id)
          && PayloadIdentity(all[|front| + j], id) == PayloadIdentity(m.chunks[j], m.id);
      }
    }
  }

  lemma ContentOfAppended(store: Payloads, front: seq<Chunk>, m: ObjectManifest, base: nat, id: Uuid)
    requires Stored(store, front, id) && Stored(store, m.chunks, m.id)
    ensures var all := front + Rebased(m, |front|, base);
      Stored(store, all, id) && Content(store, all, id) == Content(store, front, id) + Content(store, m.chunks, m.id)
  {
    var all := front + Rebased(m, |front|, base);
    RebasedContinues(front, m, base);
    ContinuedIsStored(store, all, front, m, base, id);
    ContentInTail(store, all, front, m, base, id, |m.chunks|);
  }

  predicate PartsStored(store: Payloads, parts: seq<ObjectManifest>) {
    forall p :: 0 <= p < |parts| ==> Stored(store, parts[p].chunks, parts[p].id)
  }

  /** The contents of the parts, one after another. */
  function PartContents(store: Payloads, parts: seq<ObjectManifest>): seq<Byte>
    requires PartsStored(store, parts)
    decreases |parts|
  {
    if parts == [] then []
    else
      var m := parts[|parts| - 1];
      PartContents(store, parts[..|parts| - 1]) + Content(store, m.chunks, m.id)
  }

  /** The composed chunks stand for the concatenated contents of the parts. */
  lemma {:induction false} LayoutContent(store: Payloads, parts: seq<ObjectManifest>, id: Uuid)
    requires PartsStored(store, parts)
    ensures Stored(store, Layout(parts), id) && Content(store, Layout(parts), id) == PartContents(store, parts)
    decreases |parts|
  {
    if parts != [] {
      var front, m := parts[..|parts| - 1], parts[|parts| - 1];
      LayoutContent(store, front, id);
      ContentOfAppended(store, Layout(front), m, TotalLength(front), id);
    }
  }

  /** Range reads of a composed object are slices of the concatenated part contents. */
  lemma ComposedRangeRead(store: Payloads, parts: seq<ObjectManifest>, m: ObjectManifest, start: nat, end: nat)
    requires PartsStored(store, parts) && WellFormed(m) && m.chunks == Layout(parts) && |m.chunks| <= U32_MAX + 1
    requires start <= end <= m.contentLength
    ensures |PartContents(store, parts)| == m.contentLength
    ensures AllReadable(store, m, Overlapping(m.chunks, start, end))
    ensures ReadSpans(store, m, Overlapping(m.chunks, start, end)) == PartContents(store, parts)[start..end]
  {
    LayoutContent(store, parts, m.id);
    RangeReadIsSlice(store, m, start, end);
  }

  // ---- the completion loop -------------------------------------------------

  function PartManifest(plan: Plan, stored: map<nat, StoredPart>, p: nat): Option<ObjectManifest>
    requires p < |plan.parts|
  {
    var number := plan.parts[p].number;
    if number in stored then stored[number].manifest else None
  }

  function FirstEncryption(plan: Plan, stored: map<nat, StoredPart>): Option<Encryption> {
    if plan.parts != [] && PartManifest(plan, stored, 0).Some?
    then Some(PartManifest(plan, stored, 0).value.encryption)
    else None
  }

  /** Everything the loop demands of one part before it copies its chunks. */
  ghost predicate PartOk(plan: Plan, stored: map<nat, StoredPart>, p: nat)
    requires p < |plan.parts|
  {
    var part := plan.parts[p];
    && part.number > (if p == 0 then 0 else plan.parts[p - 1].number)
    && part.number in stored && stored[part.number].etag == part.etag
    && stored[part.number].manifest.Some?
    && var m := stored[part.number].manifest.value;
       && WellFormed(m) && Published(m)
       && stored[part.number].size == part.size == m.contentLength
       && stored[part.number].checksum == part.checksum == m.checksum.wholeObject
       && Some(m.encryption) == FirstEncryption(plan, stored)
  }

  ghost predicate PartsOk(plan: Plan, stored: map<nat, StoredPart>, n: nat)
    requires n <= |plan.parts|
  {
    n == 0 || (PartsOk(plan, stored, n - 1) && PartOk(plan, stored, n - 1))
  }

  /** The manifests of the first n requested parts. */
  function Sources(plan: Plan, stored: map<nat, StoredPart>, n: nat): seq<ObjectManifest>
    requires n <= |plan.parts|
  {
    if n == 0 then []
    else
      var front, m := Sources(plan, stored, n - 1), PartManifest(plan, stored, n - 1);
      if m.Some? then front + [m.value] else front
  }

  /** Together the parts stay within u32 orders and u64 bytes. */
  predicate SizesFit(parts: seq<ObjectManifest>) {
    |Layout(parts)| <= U32_MAX + 1 && TotalLength(parts) <= U64_MAX
  }

  ghost predicate Fits(plan: Plan, stored: map<nat, StoredPart>) {
    PartsOk(plan, stored, |plan.parts|) && SizesFit(Sources(plan, stored, |plan.parts|))
  }

  /** Exactly the requests that are composed. */
  ghost predicate Acceptable(plan: Plan, stored: map<nat, StoredPart>, peer: string) {
    && plan.parts != [] && Fits(plan, stored) && TotalLength(Sources(plan, stored, |plan.parts|)) == plan.contentLength
    && !Blank(plan.bucket) && !Blank(plan.key) && !Blank(peer)
  }

  lemma {:induction false} PartsOkAt(plan: Plan, stored: map<nat, StoredPart>, n: nat, p: nat)
    requires p < n <= |plan.parts| && PartsOk(plan, stored, n)
    ensures PartOk(plan, stored, p)
  {
    if p < n - 1 {
      PartsOkAt(plan, stored, n - 1, p);
    }
  }

  /** Accepted parts are valid and published, one manifest per part. */
  lemma {:induction false} SourcesAreGood(plan: Plan, stored: map<nat, StoredPart>, n: nat)
    requires n <= |plan.parts| && PartsOk(plan, stored, n)
    ensures |Sources(plan, stored, n)| == n && AllGood(Sources(plan, stored, n))
    ensures forall p :: 0 <= p < n ==> Some(Sources(plan, stored, n)[p]) == PartManifest(plan, stored, p)
  {
    if n > 0 {
      SourcesAreGood(plan, stored, n - 1);
    }
  }

  lemma {:induction false} SourcesPrefix(plan: Plan, stored: map<nat, StoredPart>, n: nat, total: nat)
    requires n <= total <= |plan.parts|
    ensures Sources(plan, stored, n) <= Sources(plan, stored, total)
    decreases total
  {
    if n < total {
      SourcesPrefix(plan, stored, n, total - 1);
    }
  }

  /** A prefix that is too long already cannot become acceptable. */
  lemma PrefixFits(plan: Plan, stored: map<nat, StoredPart>, n: nat)
    requires n <= |plan.parts| && SizesFit(Sources(plan, stored, |plan.parts|))
    ensures SizesFit(Sources(plan, stored, n))
  {
    var all, some := Sources(plan, stored, |plan.parts|), Sources(plan, stored, n);
    SourcesPrefix(plan, stored, n, |plan.parts|);
    LayoutPrefix(all, |some|);
    assert all[..|some|] == some;
  }

  lemma SizesUpTo(m: ObjectManifest, i: nat)
    requires WellFormed(m) && i < |m.chunks|
    ensures m.chunks[i].offset == SizeBefore(m.chunks, i) && !Blank(m.chunks[i].peer)
    ensures SizeBefore(m.chunks, i + 1) <= m.contentLength
  {
    assert Placed(m.chunks, i);
    SizeGrows(m.chunks, i + 1, |m.chunks|);
  }

  lemma RebasedIsMoved(chunks: seq<Chunk>, offset: nat, m: ObjectManifest)
    ensures AppendsMoved(chunks, offset, m, chunks + Rebased(m, |chunks|, offset))
  {
  }

  /** The inner loop: copies the chunks of one part, with a u32 order and a u64 offset. */
  method CopyChunks(chunks: seq<Chunk>, offset: nat, m: ObjectManifest)
    returns (ok: bool, chunks': seq<Chunk>, offset': nat)
    requires WellFormed(m) && offset <= U64_MAX
    ensures Appended(ok, chunks, offset, m, chunks', offset')
  {
    chunks', offset' := chunks, offset;
    ghost var all := Rebased(m, |chunks|, offset);
    for i := 0 to |m.chunks|
      invariant forall k :: 0 <= k < i ==> m.chunks[k].message > 0
      invariant chunks' == chunks + all[..i] && (i > 0 ==> |chunks'| <= U32_MAX + 1)
      invariant offset' == offset + SizeBefore(m.chunks, i) <= U64_MAX
    {
      var c := m.chunks[i];
      SizesUpTo(m, i);
      if Blank(c.peer) || c.message <= 0 {
        return false, chunks', offset';
      }
      if |chunks'| > U32_MAX {
        return false, chunks', offset';
      }
      var id := PayloadIdentity(c, m.id);
      var copy := Chunk(|chunks'|, offset', c.size, c.checksum, c.peer, c.message, Some(id.owner), Some(id.order),
                        c.replicas);
      assert copy == all[i];
      assert all[..i + 1] == all[..i] + [copy];
      chunks' := chunks' + [copy];
      if offset' + c.size > U64_MAX {
        return false, chunks', offset';
      }
      offset' := offset' + c.size;
    }
    assert all[..|m.chunks|] == all;
    ok := true;
  }

  /** One part behind the chunks so far. */
  method AppendPart(chunks: seq<Chunk>, offset: nat, m: ObjectManifest)
    returns (ok: bool, chunks': seq<Chunk>, offset': nat)
    requires WellFormed(m) && offset <= U64_MAX
    ensures Appended(ok, chunks, offset, m, chunks', offset')
    ensures ok ==> AppendsMoved(chunks, offset, m, chunks')
  {
    ok, chunks', offset' := CopyChunks(chunks, offset, m);
    RebasedIsMoved(chunks, offset, m);
  }

  ghost function Expected(plan: Plan, stored: map<nat, StoredPart>, peer: string, digest: string,
                          encryption: Encryption): ObjectManifest
  {
    ObjectManifest(SCHEMA_VERSION, plan.id, plan.bucket, plan.key, plan.contentLength, Checksum(ALGORITHM, digest),
                   encryption, peer, Layout(Sources(plan, stored, |plan.parts|)))
  }

  lemma FirstIsKnown(plan: Plan, stored: map<nat, StoredPart>)
    requires Fits(plan, stored) && plan.parts != []
    ensures FirstEncryption(plan, stored) == Some(Sources(plan, stored, |plan.parts|)[0].encryption)
  {
    SourcesAreGood(plan, stored, |plan.parts|);
    PartsOkAt(plan, stored, |plan.parts|, 0);
  }

  lemma OnePartRefuses(plan: Plan, stored: map<nat, StoredPart>, p: nat)
    requires p < |plan.parts| && !PartOk(plan, stored, p)
    ensures !Fits(plan, stored)
  {
    if PartsOk(plan, stored, |plan.parts|) {
      PartsOkAt(plan, stored, |plan.parts|, p);
    }
  }

  /** The loop variables after the first p parts. */
  ghost predicate Progress(plan: Plan, stored: map<nat, StoredPart>, p: nat, previous: nat,
                           encryption: Option<Encryption>, chunks: seq<Chunk>, offset: nat)
  {
    && p <= |plan.parts| && PartsOk(plan, stored, p)
    && previous == (if p == 0 then 0 else plan.parts[p - 1].number)
    && encryption == (if p == 0 then None else FirstEncryption(plan, stored))
    && chunks == Layout(Sources(plan, stored, p)) && |chunks| <= U32_MAX + 1
    && offset == TotalLength(Sources(plan, stored, p)) <= U64_MAX
  }

  /** What `AppendPart` promises. */
  ghost predicate Appended(ok: bool, chunks: seq<Chunk>, offset: nat, m: ObjectManifest, chunks': seq<Chunk>,
                           offset': nat)
  {
    && (ok <==>
        Published(m) && (m.chunks == [] || |chunks| + |m.chunks| <= U32_MAX + 1) && offset + m.contentLength <= U64_MAX)
    && (ok ==> chunks' == chunks + Rebased(m, |chunks|, offset) && offset' == offset + m.contentLength)
  }

  /** The whole part is appended, chunk by chunk. */
  ghost predicate AppendsMoved(chunks: seq<Chunk>, offset: nat, m: ObjectManifest, chunks': seq<Chunk>) {
    && |chunks'| == |chunks| + |m.chunks| && chunks <= chunks'
    && forall j :: 0 <= j < |m.chunks| ==>
         IsMoved(chunks'[|chunks| + j], m.chunks[j], m.id, |chunks| + j, offset + m.chunks[j].offset)
  }

  lemma SourcesStep(plan: Plan, stored: map<nat, StoredPart>, p: nat, m: ObjectManifest)
    requires p < |plan.parts| && PartManifest(plan, stored, p) == Some(m)
    ensures var chunks, offset := Layout(Sources(plan, stored, p)), TotalLength(Sources(plan, stored, p));
      && Layout(Sources(plan, stored, p + 1)) == chunks + Rebased(m, |chunks|, offset)
      && TotalLength(Sources(plan, stored, p + 1)) == offset + m.contentLength
  {
  }

  lemma ProgressStep(plan: Plan, stored: map<nat, StoredPart>, p: nat, previous: nat, encryption: Option<Encryption>,
                     chunks: seq<Chunk>, offset: nat, m: ObjectManifest, ok: bool, chunks': seq<Chunk>, offset': nat)
    requires p < |plan.parts| && Progress(plan, stored, p, previous, encryption, chunks, offset)
    requires PartFits(plan.parts[p], previous, stored, encryption) && PartManifest(plan, stored, p) == Some(m)
    requires Appended(ok, chunks, offset, m, chunks', offset')
    ensures if ok then Progress(plan, stored, p + 1, plan.parts[p].number, Some(m.encryption), chunks', offset')
            else !Fits(plan, stored)
  {
    PartOkIs(plan, stored, p, previous, encryption);
    SourcesStep(plan, stored, p, m);
    if !Published(m) {
      OnePartRefuses(plan, stored, p);
    } else if SizesFit(Sources(plan, stored, |plan.parts|)) {
      PrefixFits(plan, stored, p + 1);
    }
  }

  /** The outer loop over the requested parts. */
  method ComposeParts(plan: Plan, stored: map<nat, StoredPart>)
    returns (why: Option<Refusal>, chunks: seq<Chunk>, offset: nat, encryption: Option<Encryption>)
    ensures why.None? <==> Fits(plan, stored)
    ensures why.None? ==> chunks == Layout(Sources(plan, stored, |plan.parts|))
    ensures why.None? ==> offset == TotalLength(Sources(plan, stored, |plan.parts|))
    ensures why.None? ==> encryption == if plan.parts == [] then None else FirstEncryption(plan, stored)
  {
    why, chunks, offset, encryption := None, [], 0, None;
    var previous: nat := 0;
    for p := 0 to |plan.parts|
      invariant why.None? && Progress(plan, stored, p, previous, encryption, chunks, offset)
    {
      var part := plan.parts[p];
      why := CheckPart(part, previous, stored, encryption);
      if why.Some? {
        PartOkIs(plan, stored, p, previous, encryption);
        OnePartRefuses(plan, stored, p);
        return;
      }
      var m := stored[part.number].manifest.value;
      var ok, chunks', offset' := AppendPart(chunks, offset, m);
      ProgressStep(plan, stored, p, previous, encryption, chunks, offset, m, ok, chunks', offset');
      if !ok {
        why := Some(PartNotComposable);
        return;
      }
      previous, encryption, chunks, offset := part.number, Some(m.encryption), chunks', offset';
    }
  }

  /**
   Multipart completion.  `digest` is the hex digest over the part checksums and `peer` the
   storage chat.  It composes exactly the acceptable requests, and the final validation never
   refuses what the loop accepted except for a blank bucket, key or storage peer.
   */
  method Complete(plan: Plan, stored: map<nat, StoredPart>, peer: string, digest: string) returns (r: Outcome)
    requires !Blank(digest)
    ensures r.Composed? <==> Acceptable(plan, stored, peer)
    ensures r.Composed? ==> |Sources(plan, stored, |plan.parts|)| == |plan.parts| > 0
    ensures r.Composed? ==> WellFormed(r.manifest)
    ensures r.Composed? ==>
      r.manifest == Expected(plan, stored, peer, digest, Sources(plan, stored, |plan.parts|)[0].encryption)
    ensures r.Composed? ==> ComposedOf(r.manifest, plan, stored, peer, digest)
  {
    var why, chunks, offset, encryption := ComposeParts(plan, stored);
    if why.Some? {
      return Refused(why.value);
    }
    if offset != plan.contentLength {
      return Refused(LengthMismatch);
    }
    SourcesAreGood(plan, stored, |plan.parts|);
    if plan.parts != [] {
      FirstIsKnown(plan, stored);
    }
    if encryption.None? {
      return Refused(NoParts);
    }
    var manifest := ObjectManifest(SCHEMA_VERSION, plan.id, plan.bucket, plan.key, offset, Checksum(ALGORITHM, digest),
                                   encryption.value, peer, chunks);
    ResultIsValid(Sources(plan, stored, |plan.parts|), manifest);
    CompletionIsComposed(plan, stored, manifest, peer, digest);
    var valid := Validate(manifest);
    if !valid {
      return Refused(InvalidResult);
    }
    return Composed(manifest);
  }

  /** The manifest of the requested parts, field by field and chunk by chunk. */
  ghost predicate ComposedOf(m: ObjectManifest, plan: Plan, stored: map<nat, StoredPart>, peer: string, digest: string)
  {
    && m.schemaVersion == 2 && m.id == plan.id && m.bucket == plan.bucket && m.key == plan.key
    && m.contentLength == plan.contentLength && m.peer == peer
    && m.checksum.algorithm == "sha256-parts-v1" && m.checksum.wholeObject == digest
    && var parts := Sources(plan, stored, |plan.parts|);
       && |parts| == |plan.parts| && ChunksAreComposed(m.chunks, parts)
       && forall p :: 0 <= p < |parts| ==>
            && plan.parts[p].number in stored && stored[plan.parts[p].number].manifest == Some(parts[p])
            && parts[p].encryption == m.encryption
  }

  /** Exactly the chunks of the parts, each at its place. */
  ghost predicate ChunksAreComposed(chunks: seq<Chunk>, parts: seq<ObjectManifest>) {
    && |chunks| == ChunksBefore(parts, |parts|)
    && forall p: nat, j: nat :: p < |parts| && j < |parts[p].chunks| ==> HasCopy(chunks, parts, p, j)
  }

  /** Chunk j of part p has its copy at its place. */
  predicate HasCopy(chunks: seq<Chunk>, parts: seq<ObjectManifest>, p: nat, j: nat)
    requires p < |parts| && j < |parts[p].chunks|
  {
    ChunksBefore(parts, p) + j < |chunks| && IsMovedFrom(chunks[ChunksBefore(parts, p) + j], parts, p, j)
  }

  lemma LayoutIsComposed(parts: seq<ObjectManifest>)
    ensures ChunksAreComposed(Layout(parts), parts)
  {
    PlacesBefore(parts, |parts|);
    assert parts[..|parts|] == parts;
    forall p: nat, j: nat | p < |parts| && j < |parts[p].chunks|
      ensures HasCopy(Layout(parts), parts, p, j)
    {
      IdentityIsKept(parts, p, j);
    }
  }

  /** Every part has the encryption of the first. */
  lemma SameEncryption(plan: Plan, stored: map<nat, StoredPart>, p: nat)
    requires PartsOk(plan, stored, |plan.parts|) && p < |plan.parts|
    ensures plan.parts[p].number in stored
    ensures stored[plan.parts[p].number].manifest.Some?
    ensures Some(stored[plan.parts[p].number].manifest.value.encryption) == FirstEncryption(plan, stored)
  {
    PartsOkAt(plan, stored, |plan.parts|, p);
  }

  lemma CompletionIsComposed(plan: Plan, stored: map<nat, StoredPart>, m: ObjectManifest, peer: string, digest: string)
    requires PartsOk(plan, stored, |plan.parts|) && Some(m.encryption) == FirstEncryption(plan, stored)
    requires m.schemaVersion == SCHEMA_VERSION && m.id == plan.id && m.bucket == plan.bucket && m.key == plan.key
    requires m.contentLength == plan.contentLength && m.peer == peer && m.checksum == Checksum(ALGORITHM, digest)
    requires m.chunks == Layout(Sources(plan, stored, |plan.parts|))
    ensures ComposedOf(m, plan, stored, peer, digest)
  {
    var parts := Sources(plan, stored, |plan.parts|);
    SourcesAreGood(plan, stored, |plan.parts|);
    LayoutIsComposed(parts);
    forall p | 0 <= p < |plan.parts|
      ensures plan.parts[p].number in stored
      ensures stored[plan.parts[p].number].manifest == Some(parts[p]) && parts[p].encryption == m.encryption
    {
      SameEncryption(plan, stored, p);
    }
  }

  /** All the final validation can still object to is a blank bucket, key or storage peer. */
  lemma ResultIsValid(parts: seq<ObjectManifest>, m: ObjectManifest)
    requires parts != [] && AllGood(parts) && |Layout(parts)| <= U32_MAX + 1
    requires m.schemaVersion == SCHEMA_VERSION && m.chunks == Layout(parts) && m.contentLength == TotalLength(parts)
    requires m.encryption == parts[0].encryption && m.checksum.algorithm == ALGORITHM && !Blank(m.checksum.wholeObject)
    ensures WellFormed(m) <==> !Blank(m.bucket) && !Blank(m.key) && !Blank(m.peer)
  {
    LayoutIsValid(parts);
    assert HeaderOk(parts[0]);
    assert ALGORITHM[0] == 's' && !Blank(ALGORITHM);
  }

  /** Whatever `Complete` composes, a range read of it is that range of the concatenated parts. */
  lemma CompletedRangeRead(plan: Plan, stored: map<nat, StoredPart>, peer: string, digest: string, store: Payloads,
                           start: nat, end: nat)
    requires !Blank(digest) && Acceptable(plan, stored, peer)
    requires PartsStored(store, Sources(plan, stored, |plan.parts|)) && start <= end <= plan.contentLength
    ensures var parts := Sources(plan, stored, |plan.parts|);
            && |parts| == |plan.parts|
            && |PartContents(store, parts)| == plan.contentLength
            && var m := Expected(plan, stored, peer, digest, parts[0].encryption);
               && WellFormed(m)
               && AllReadable(store, m, Overlapping(m.chunks, start, end))
               && ReadSpans(store, m, Overlapping(m.chunks, start, end)) == PartContents(store, parts)[start..end]
  {
    SourcesAreGood(plan, stored, |plan.parts|);
    var parts := Sources(plan, stored, |plan.parts|);
    var m := Expected(plan, stored, peer, digest, parts[0].encryption);
    ResultIsValid(parts, m);
    ComposedRangeRead(store, parts, m, start, end);
  }

  /** Everything about one part that is checked before its chunks are copied. */
  ghost predicate PartFits(part: PartPlan, previous: nat, stored: map<nat, StoredPart>, encryption: Option<Encryption>)
  {
    && part.number > previous && part.number in stored
    && var s := stored[part.number];
       && s.etag == part.etag && s.manifest.Some?
       && WellFormed(s.manifest.value)
       && s.size == part.size == s.manifest.value.contentLength
       && s.checksum == part.checksum == s.manifest.value.checksum.wholeObject
       && (encryption.Some? ==> encryption.value == s.manifest.value.encryption)
  }

  /** The checks on one requested part, in order. */
  method CheckPart(part: PartPlan, previous: nat, stored: map<nat, StoredPart>, encryption: Option<Encryption>)
    returns (why: Option<Refusal>)
    ensures why.None? <==> PartFits(part, previous, stored, encryption)
  {
    if part.number <= previous {
      return Some(PartsOutOfOrder);
    }
    if part.number !in stored {
      return Some(MissingPart);
    }
    var s := stored[part.number];
    if s.etag != part.etag {
      return Some(EtagMismatch);
    }
    if s.manifest.None? {
      return Some(LegacyPart);
    }
    var m := s.manifest.value;
    var valid := Validate(m);
    if !valid {
      return Some(InvalidPart);
    }
    if s.size != part.size || m.contentLength != s.size || s.checksum != part.checksum
      || m.checksum.wholeObject != s.checksum {
      return Some(PartChanged);
    }
    if encryption.Some? && encryption.value != m.encryption {
      return Some(MixedEncryption);
    }
    return None;
  }

  lemma PartOkIs(plan: Plan, stored: map<nat, StoredPart>, p: nat, previous: nat, encryption: Option<Encryption>)
    requires p < |plan.parts| && previous == (if p == 0 then 0 else plan.parts[p - 1].number)
    requires encryption == if p == 0 then None else FirstEncryption(plan, stored)
    ensures PartOk(plan, stored, p) ==> PartFits(plan.parts[p], previous, stored, encryption)
    ensures PartFits(plan.parts[p], previous, stored, encryption) && encryption.Some? == (p > 0) ==>
      (PartOk(plan, stored, p) <==> Published(stored[plan.parts[p].number].manifest.value))
    ensures PartOk(plan, stored, p) ==>
      Some(stored[plan.parts[p].number].manifest.value.encryption) == FirstEncryption(plan, stored)
  {
  }
}
