/** Chunk planning and range planning of src/object_format.rs. */
module ReadPlanning {
  import opened Basics
  import opened Manifest
  import opened Modular

  // ---- plan_read -----------------------------------------------------------

  datatype Span = Span(order: nat, within: nat, length: nat, checksum: string)

  predicate Touches(c: Chunk, start: nat, end: nat) {
    start < c.offset + c.size && c.offset < end
  }

  function Overlap(c: Chunk, start: nat, end: nat): Span
    requires Touches(c, start, end) && start <= end
  {
    var from, to := Max(start, c.offset), Min(end, c.offset + c.size);
    Span(c.order, from - c.offset, to - from, c.checksum)
  }

  /** The spans of the first n chunks. */
  function OverlapsBefore(chunks: seq<Chunk>, n: nat, start: nat, end: nat): seq<Span>
    requires start <= end && n <= |chunks|
  {
    if n == 0 then []
    else if Touches(chunks[n - 1], start, end)
    then OverlapsBefore(chunks, n - 1, start, end) + [Overlap(chunks[n - 1], start, end)]
    else OverlapsBefore(chunks, n - 1, start, end)
  }

  function Overlapping(chunks: seq<Chunk>, start: nat, end: nat): seq<Span>
    requires start <= end
  {
    OverlapsBefore(chunks, |chunks|, start, end)
  }

  predicate EndsFit(chunks: seq<Chunk>) {
    forall i :: 0 <= i < |chunks| ==> chunks[i].offset + chunks[i].size <= U64_MAX
  }

  method PlanRead(m: ObjectManifest, start: U64, end: U64) returns (r: Option<seq<Span>>)
    ensures r.Some? <==> start <= end <= m.contentLength && EndsFit(m.chunks)
    ensures r.Some? ==> r.value == Overlapping(m.chunks, start, end)
  {
    if start > end {
      return None;
    }
    if end > m.contentLength {
      return None;
    }
    var spans := [];
    for i := 0 to |m.chunks|
      invariant forall j :: 0 <= j < i ==> m.chunks[j].offset + m.chunks[j].size <= U64_MAX
      invariant spans == OverlapsBefore(m.chunks, i, start, end)
    {
      var c := m.chunks[i];
      var chunkEnd := c.offset + c.size;
      if chunkEnd > U64_MAX {
        return None;
      }
      if chunkEnd <= start || c.offset >= end {
        continue;
      }
      var from, to := Max(start, c.offset), Min(end, chunkEnd);
      spans := spans + [Span(c.order, from - c.offset, to - from, c.checksum)];
    }
    return Some(spans);
  }

  // ---- what the planned spans read -----------------------------------------

  /** A span is served from the chunk stored at the index its order names, if the chunk has the span's checksum. */
  predicate Readable(store: Payloads, m: ObjectManifest, s: Span) {
    && s.order < |m.chunks| && s.checksum == m.chunks[s.order].checksum
    && Holds(store, m.chunks[s.order], m.id) && s.within + s.length <= m.chunks[s.order].size
  }

  function ReadSpan(store: Payloads, m: ObjectManifest, s: Span): seq<Byte>
    requires Readable(store, m, s)
  {
    store[PayloadIdentity(m.chunks[s.order], m.id)][s.within..s.within + s.length]
  }

  predicate AllReadable(store: Payloads, m: ObjectManifest, spans: seq<Span>) {
    forall i :: 0 <= i < |spans| ==> Readable(store, m, spans[i])
  }

  function ReadSpans(store: Payloads, m: ObjectManifest, spans: seq<Span>): seq<Byte>
    requires AllReadable(store, m, spans)
    decreases |spans|
  {
    if spans == [] then []
    else ReadSpans(store, m, spans[..|spans| - 1]) + ReadSpan(store, m, spans[|spans| - 1])
  }

  lemma ReadSpansAppend(store: Payloads, m: ObjectManifest, spans: seq<Span>, s: Span)
    requires AllReadable(store, m, spans) && Readable(store, m, s)
    ensures AllReadable(store, m, spans + [s])
    ensures ReadSpans(store, m, spans + [s]) == ReadSpans(store, m, spans) + ReadSpan(store, m, s)
  {
  }

  /** The part of a range that falls into the first `size` bytes. */
  function Clip(bytes: seq<Byte>, start: nat, end: nat): seq<Byte>
    requires start <= end
  {
    bytes[Min(start, |bytes|)..Min(end, |bytes|)]
  }

  /** Adding a chunk to the content adds exactly its overlap to the clipped range. */
  lemma ClipOfConcat(before: seq<Byte>, bytes: seq<Byte>, c: Chunk, start: nat, end: nat)
    requires start <= end && c.offset == |before| && c.size == |bytes| > 0
    ensures Touches(c, start, end) ==>
      var o := Overlap(c, start, end);
      o.within + o.length <= c.size
      && Clip(before + bytes, start, end) == Clip(before, start, end) + bytes[o.within..o.within + o.length]
    ensures !Touches(c, start, end) ==> Clip(before + bytes, start, end) == Clip(before, start, end)
  {
    var all := before + bytes;
    if Touches(c, start, end) {
      var o := Overlap(c, start, end);
      if start <= |before| {
        SliceAcross(before, bytes, start, |before| + o.within + o.length);
      } else {
        SliceBehind(before, bytes, start, |before| + o.within + o.length);
      }
    } else if end <= |before| {
      assert all[Min(start, |all|)..end] == before[Min(start, |before|)..end];
    } else {
      assert Clip(all, start, end) == [] && Clip(before, start, end) == [];
    }
  }

  lemma SliceAcross(a: seq<Byte>, b: seq<Byte>, start: nat, end: nat)
    requires start <= |a| <= end <= |a| + |b|
    ensures (a + b)[start..end] == a[start..] + b[..end - |a|]
  {
  }

  lemma SliceBehind(a: seq<Byte>, b: seq<Byte>, start: nat, end: nat)
    requires |a| <= start <= end <= |a| + |b|
    ensures (a + b)[start..end] == b[start - |a|..end - |a|]
  {
  }

  /** Reading one more overlapping span extends the clipped content by one more chunk. */
  lemma ReadStep(store: Payloads, m: ObjectManifest, spans: seq<Span>, before: seq<Byte>, n: nat, start: nat, end: nat)
    requires start <= end && n < |m.chunks| && m.chunks[n].order == n && Touches(m.chunks[n], start, end)
    requires Holds(store, m.chunks[n], m.id) && m.chunks[n].offset == |before| && m.chunks[n].size > 0
    requires AllReadable(store, m, spans) && ReadSpans(store, m, spans) == Clip(before, start, end)
    ensures AllReadable(store, m, spans + [Overlap(m.chunks[n], start, end)])
    ensures ReadSpans(store, m, spans + [Overlap(m.chunks[n], start, end)])
         == Clip(before + store[PayloadIdentity(m.chunks[n], m.id)], start, end)
  {
    ClipOfConcat(before, store[PayloadIdentity(m.chunks[n], m.id)], m.chunks[n], start, end);
    ReadSpansAppend(store, m, spans, Overlap(m.chunks[n], start, end));
  }

  lemma SkipStep(store: Payloads, m: ObjectManifest, before: seq<Byte>, n: nat, start: nat, end: nat)
    requires start <= end && n < |m.chunks| && !Touches(m.chunks[n], start, end)
    requires Holds(store, m.chunks[n], m.id) && m.chunks[n].offset == |before| && m.chunks[n].size > 0
    ensures Clip(before + store[PayloadIdentity(m.chunks[n], m.id)], start, end) == Clip(before, start, end)
  {
  }

  lemma SeatOf(m: ObjectManifest, k: nat)
    requires Tiles(m.chunks, m.contentLength) && k < |m.chunks| <= U32_MAX + 1
    ensures m.chunks[k].order == k && m.chunks[k].offset == SizeBefore(m.chunks, k) && m.chunks[k].size > 0
  {
    assert Placed(m.chunks, k);
  }

  lemma {:induction false} PrefixRead(store: Payloads, m: ObjectManifest, start: nat, end: nat, n: nat)
    requires Tiles(m.chunks, m.contentLength) && |m.chunks| <= U32_MAX + 1 && Stored(store, m.chunks, m.id)
    requires start <= end && n <= |m.chunks|
    ensures AllReadable(store, m, OverlapsBefore(m.chunks, n, start, end))
    ensures ReadSpans(store, m, OverlapsBefore(m.chunks, n, start, end))
      == Clip(ContentBefore(store, m.chunks, m.id, n), start, end)
  {
    if n > 0 {
      PrefixRead(store, m, start, end, n - 1);
      var k := n - 1;
      var before := ContentBefore(store, m.chunks, m.id, k);
      SeatOf(m, k);
      assert Holds(store, m.chunks[k], m.id);
      if Touches(m.chunks[k], start, end) {
        ReadStep(store, m, OverlapsBefore(m.chunks, k, start, end), before, k, start, end);
      } else {
        SkipStep(store, m, before, k, start, end);
      }
    }
  }

  /** The planned spans of a valid manifest read exactly the requested slice of its content. */
  lemma RangeReadIsSlice(store: Payloads, m: ObjectManifest, start: nat, end: nat)
    requires WellFormed(m) && |m.chunks| <= U32_MAX + 1 && Stored(store, m.chunks, m.id)
    requires start <= end <= m.contentLength
    ensures AllReadable(store, m, Overlapping(m.chunks, start, end))
    ensures ReadSpans(store, m, Overlapping(m.chunks, start, end)) == Content(store, m.chunks, m.id)[start..end]
  {
    PrefixRead(store, m, start, end, |m.chunks|);
  }

  lemma WellFormedEndsFit(m: ObjectManifest)
    requires WellFormed(m)
    ensures EndsFit(m.chunks)
  {
    forall i | 0 <= i < |m.chunks|
      ensures m.chunks[i].offset + m.chunks[i].size <= U64_MAX
    {
      assert Placed(m.chunks, i);
      SizeGrows(m.chunks, i + 1, |m.chunks|);
    }
  }

  function SpanLengths(spans: seq<Span>): nat {
    if spans == [] then 0 else SpanLengths(spans[..|spans| - 1]) + spans[|spans| - 1].length
  }

  predicate NonEmpty(spans: seq<Span>) {
    forall k :: 0 <= k < |spans| ==> spans[k].length > 0
  }

  lemma SpanLengthsAppend(spans: seq<Span>, s: Span)
    ensures SpanLengths(spans + [s]) == SpanLengths(spans) + s.length
  {
  }

  lemma LengthStep(c: Chunk, before: nat, start: nat, end: nat)
    requires start <= end && c.offset == before && c.size > 0
    ensures var gain := if Touches(c, start, end) then Overlap(c, start, end).length else 0;
      Min(end, before + c.size) - Min(start, before + c.size) == Min(end, before) - Min(start, before) + gain
    ensures Touches(c, start, end) && start < end ==> Overlap(c, start, end).length > 0
  {
  }

  lemma {:induction false} PrefixLengths(chunks: seq<Chunk>, length: nat, start: nat, end: nat, n: nat)
    requires Tiles(chunks, length) && start <= end && n <= |chunks|
    ensures var size := SizeBefore(chunks, n);
      SpanLengths(OverlapsBefore(chunks, n, start, end)) == Min(end, size) - Min(start, size)
    ensures start < end ==> NonEmpty(OverlapsBefore(chunks, n, start, end))
  {
    if n > 0 {
      PrefixLengths(chunks, length, start, end, n - 1);
      assert Placed(chunks, n - 1);
      LengthStep(chunks[n - 1], SizeBefore(chunks, n - 1), start, end);
      if Touches(chunks[n - 1], start, end) {
        SpanLengthsAppend(OverlapsBefore(chunks, n - 1, start, end), Overlap(chunks[n - 1], start, end));
      }
    }
  }

  /** The span lengths add up to the range, and a non-empty range plans only non-empty spans. */
  lemma SpanLengthsCoverRange(m: ObjectManifest, start: nat, end: nat)
    requires WellFormed(m) && start <= end <= m.contentLength
    ensures SpanLengths(Overlapping(m.chunks, start, end)) == end - start
    ensures start < end ==> NonEmpty(Overlapping(m.chunks, start, end))
  {
    PrefixLengths(m.chunks, m.contentLength, start, end, |m.chunks|);
  }

  // ---- plan_chunks ---------------------------------------------------------

  datatype Planned = Planned(order: nat, offset: nat, size: nat)

  /** The full chunks come first, the remainder last, each at its multiple of the chunk size. */
  predicate IsPlan(plan: seq<Planned>, length: nat, chunkSize: nat) {
    forall i :: 0 <= i < |plan| ==>
      plan[i].order == i && plan[i].offset == i * chunkSize && plan[i].offset < length
      && plan[i].size == Min(chunkSize, length - plan[i].offset)
  }

  /**
   Fails for chunk size zero and when the u32 chunk counter would pass its maximum, so a plan
   has at most 2^32 - 1 chunks although 2^32 orders exist.
   */
  method PlanChunks(length: U64, chunkSize: U64) returns (r: Option<seq<Planned>>)
    ensures r.Some? <==> chunkSize != 0 && length <= U32_MAX * chunkSize
    ensures r.Some? ==> IsPlan(r.value, length, chunkSize) && |r.value| <= U32_MAX && length <= |r.value| * chunkSize
  {
    if chunkSize == 0 {
      return None;
    }
    var plan: seq<Planned> := [];
    var offset: nat, order: nat := 0, 0;
    while offset < length
      invariant order == |plan| <= U32_MAX && IsPlan(plan, length, chunkSize)
      invariant offset == Min(length, order * chunkSize)
      decreases length - offset
    {
      var size := Min(length - offset, chunkSize);
      plan := plan + [Planned(order, offset, size)];
      assert (order + 1) * chunkSize == order * chunkSize + chunkSize;
      offset := offset + size;
      if order + 1 > U32_MAX {
        return None;
      }
      order := order + 1;
    }
    ProductGrows(order, U32_MAX, chunkSize);
    return Some(plan);
  }

  /** The chunks take the planned order, offset and size. */
  predicate Follows(chunks: seq<Chunk>, plan: seq<Planned>) {
    |chunks| == |plan| && forall i :: 0 <= i < |chunks| ==>
      chunks[i].order == plan[i].order && chunks[i].offset == plan[i].offset && chunks[i].size == plan[i].size
        && ChunkOk(chunks[i])
  }

  lemma {:induction false} PlannedSizes(chunks: seq<Chunk>, plan: seq<Planned>, length: nat, chunkSize: nat, n: nat)
    requires Follows(chunks, plan) && IsPlan(plan, length, chunkSize) && n <= |plan| && chunkSize > 0
    ensures SizeBefore(chunks, n) == Min(length, n * chunkSize)
  {
    if n > 0 {
      PlannedSizes(chunks, plan, length, chunkSize, n - 1);
      var before := (n - 1) * chunkSize;
      assert plan[n - 1].offset == before < length && chunks[n - 1].size == Min(chunkSize, length - before);
      NextMultiple(n, chunkSize);
    }
  }

  lemma NextMultiple(n: nat, size: nat)
    requires n > 0
    ensures n * size == (n - 1) * size + size
  {
  }

  /** A layout made by `plan_chunks` is valid for the planned length. */
  lemma PlannedLayoutIsValid(chunks: seq<Chunk>, plan: seq<Planned>, length: nat, chunkSize: nat)
    requires chunkSize > 0 && |plan| <= U32_MAX && length <= |plan| * chunkSize
    requires IsPlan(plan, length, chunkSize) && Follows(chunks, plan)
    ensures ChunksOk(chunks) && Tiles(chunks, length)
  {
    forall i | 0 <= i < |chunks|
      ensures Placed(chunks, i)
    {
      PlannedSizes(chunks, plan, length, chunkSize, i);
    }
    PlannedSizes(chunks, plan, length, chunkSize, |chunks|);
  }
}
