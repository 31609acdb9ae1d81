/** One page of the listing, and a client that follows the markers (src/s3_server.rs). */
module Paging {
  import opened Basics
  import opened Listing

  // ---- markers -------------------------------------------------------------

  /** Strictly above the marker; an empty marker counts as none. */
  predicate Passes(name: string, marker: Option<string>) {
    marker.None? || marker.value == "" || Below(marker.value, name)
  }

  /** `retain` on a list of names. */
  function Retain(s: seq<string>, marker: Option<string>): seq<string> {
    if s == [] then []
    else if Passes(s[0], marker) then [s[0]] + Retain(s[1..], marker)
    else Retain(s[1..], marker)
  }

  function EntriesAbove(entries: seq<Entry>, marker: Option<string>): seq<Entry> {
    if entries == [] then []
    else if Passes(entries[0].name, marker) then [entries[0]] + EntriesAbove(entries[1..], marker)
    else EntriesAbove(entries[1..], marker)
  }

  lemma {:induction false} RetainIsSubset(s: seq<string>, marker: Option<string>)
    ensures forall x :: x in Retain(s, marker) ==> x in s
    decreases |s|
  {
    if s != [] {
      RetainIsSubset(s[1..], marker);
    }
  }

  lemma RetainStaysAbove(name: string, s: seq<string>, marker: Option<string>)
    requires AllAbove(name, s)
    ensures AllAbove(name, Retain(s, marker))
  {
  }

  /** Dropping both lists below the marker is dropping the merged listing below it. */
  lemma {:induction false} MergeAbove(objects: seq<string>, prefixes: seq<string>, marker: Option<string>)
    requires Sorted(objects) && Sorted(prefixes) && Apart(objects, prefixes)
    ensures Merge(Retain(objects, marker), Retain(prefixes, marker)) == EntriesAbove(Merge(objects, prefixes), marker)
    decreases |objects| + |prefixes|
  {
    if objects == [] && prefixes == [] {
    } else if prefixes == [] || (objects != [] && Below(objects[0], prefixes[0])) {
      MergeAbove(objects[1..], prefixes, marker);
      HeadIsBelow(objects[0], prefixes);
      RetainStaysAbove(objects[0], prefixes, marker);
      KeyFirst(objects[0], Retain(objects[1..], marker), Retain(prefixes, marker));
      assert Merge(objects, prefixes)[1..] == Merge(objects[1..], prefixes);
    } else {
      if objects != [] {
        BelowIsTotal(objects[0], prefixes[0]);
        assert objects[0] in objects && prefixes[0] in prefixes;
      }
      MergeAbove(objects, prefixes[1..], marker);
      HeadIsBelow(prefixes[0], objects);
      RetainStaysAbove(prefixes[0], objects, marker);
      PrefixFirst(prefixes[0], Retain(objects, marker), Retain(prefixes[1..], marker));
      assert Merge(objects, prefixes)[1..] == Merge(objects, prefixes[1..]);
    }
  }

  lemma KeyFirst(name: string, objects: seq<string>, prefixes: seq<string>)
    requires AllAbove(name, prefixes)
    ensures Merge([name] + objects, prefixes) == [Key(name)] + Merge(objects, prefixes)
  {
  }

  lemma PrefixFirst(name: string, objects: seq<string>, prefixes: seq<string>)
    requires AllAbove(name, objects)
    ensures Merge(objects, [name] + prefixes) == [CommonPrefix(name)] + Merge(objects, prefixes)
  {
    assert ([name] + prefixes)[1..] == prefixes;
    if objects != [] {
      BelowIsStrict(name, objects[0]);
    }
  }

  // ---- one page ------------------------------------------------------------

  datatype Page = Page(objects: seq<string>, prefixes: seq<string>, truncated: bool, next: Option<string>, count: nat)

  function Keys(entries: seq<Entry>): seq<string> {
    if entries == [] then []
    else
      var front, last := Keys(entries[..|entries| - 1]), entries[|entries| - 1];
      if last.Key? then front + [last.name] else front
  }

  function CommonPrefixes(entries: seq<Entry>): seq<string> {
    if entries == [] then []
    else
      var front, last := CommonPrefixes(entries[..|entries| - 1]), entries[|entries| - 1];
      if last.CommonPrefix? then front + [last.name] else front
  }

  /** The page holds exactly these entries, and its marker is the last of them when more follow. */
  predicate Shows(page: Page, entries: seq<Entry>, more: bool) {
    && page.objects == Keys(entries) && page.prefixes == CommonPrefixes(entries) && page.count == |entries|
    && page.truncated == more
    && (more ==> entries != [] && page.next == Some(entries[|entries| - 1].name))
    && (!more ==> page.next.None?)
  }

  lemma ListsStep(keys: seq<string>, i: nat, prefix: string, delimiter: Option<string>)
    requires i < |keys|
    ensures var group := Group(keys[i], prefix, delimiter);
      && Objects(keys[..i + 1], prefix, delimiter)
         == (if group.None? then Objects(keys[..i], prefix, delimiter) + [keys[i]]
             else Objects(keys[..i], prefix, delimiter))
      && Prefixes(keys[..i + 1], prefix, delimiter)
         == (if group.None? then Prefixes(keys[..i], prefix, delimiter)
             else Insert(Prefixes(keys[..i], prefix, delimiter), group.value))
  {
    assert keys[..i + 1][..i] == keys[..i];
  }

  method CollectLists(keys: seq<string>, prefix: string, delimiter: Option<string>)
    returns (objects: seq<string>, prefixes: seq<string>)
    ensures objects == Objects(keys, prefix, delimiter) && prefixes == Prefixes(keys, prefix, delimiter)
  {
    objects, prefixes := [], [];
    for i := 0 to |keys|
      invariant objects == Objects(keys[..i], prefix, delimiter) && prefixes == Prefixes(keys[..i], prefix, delimiter)
    {
      ListsStep(keys, i, prefix, delimiter);
      var group := Group(keys[i], prefix, delimiter);
      if group.Some? {
        prefixes := Insert(prefixes, group.value);
        continue;
      }
      objects := objects + [keys[i]];
    }
    assert keys[..|keys|] == keys;
  }

  /** The merge loop: the first `maxKeys` entries of the two sorted lists. */
  method MergePage(objects: seq<string>, prefixes: seq<string>, maxKeys: nat) returns (page: Page)
    ensures var all := Merge(objects, prefixes);
      var n := Min(maxKeys, |all|);
      Shows(page, all[..n], maxKeys > 0 && n < |all|)
  {
    var pageObjects, pagePrefixes: seq<string> := [], [];
    var count, oi, pi := 0, 0, 0;
    var last: Option<string> := None;
    ghost var all := Merge(objects, prefixes);
    while count < maxKeys && !(oi == |objects| && pi == |prefixes|)
      invariant count <= maxKeys && oi <= |objects| && pi <= |prefixes| && count <= |all|
      invariant all[count..] == Merge(objects[oi..], prefixes[pi..])
      invariant pageObjects == Keys(all[..count]) && pagePrefixes == CommonPrefixes(all[..count])
      invariant last == if count == 0 then None else Some(all[count - 1].name)
      decreases maxKeys - count
    {
      MergeStep(all, count, objects[oi..], prefixes[pi..]);
      TakeOne(all, count);
      if pi == |prefixes| || (oi < |objects| && Below(objects[oi], prefixes[pi])) {
        last := Some(objects[oi]);
        pageObjects := pageObjects + [objects[oi]];
        oi := oi + 1;
      } else {
        last := Some(prefixes[pi]);
        pagePrefixes := pagePrefixes + [prefixes[pi]];
        pi := pi + 1;
      }
      count := count + 1;
    }
    MergeEnds(all, count, objects[oi..], prefixes[pi..]);
    var truncated := maxKeys > 0 && (oi < |objects| || pi < |prefixes|);
    var next: Option<string> := None;
    if truncated {
      if last.Some? {
        next := last;
      } else {
        assert false;
      }
    }
    return Page(pageObjects, pagePrefixes, truncated, next, count);
  }

  lemma TakeOne(all: seq<Entry>, count: nat)
    requires count < |all|
    ensures Keys(all[..count + 1]) ==
      if all[count].Key? then Keys(all[..count]) + [all[count].name] else Keys(all[..count])
    ensures CommonPrefixes(all[..count + 1]) ==
      if all[count].CommonPrefix? then CommonPrefixes(all[..count]) + [all[count].name]
      else CommonPrefixes(all[..count])
  {
    assert all[..count + 1][..count] == all[..count];
  }

  /** Each round emits the next merged entry. */
  lemma MergeStep(all: seq<Entry>, count: nat, objects: seq<string>, prefixes: seq<string>)
    requires count <= |all| && all[count..] == Merge(objects, prefixes) && (objects != [] || prefixes != [])
    ensures count < |all|
    ensures if prefixes == [] || (objects != [] && Below(objects[0], prefixes[0]))
      then all[count] == Key(objects[0]) && all[count + 1..] == Merge(objects[1..], prefixes)
      else all[count] == CommonPrefix(prefixes[0]) && all[count + 1..] == Merge(objects, prefixes[1..])
  {
    var rest := all[count..];
    assert |rest| > 0 && |all| == count + |rest|;
    assert all[count] == rest[0] && all[count + 1..] == rest[1..];
  }

  lemma MergeEnds(all: seq<Entry>, count: nat, objects: seq<string>, prefixes: seq<string>)
    requires count <= |all| && all[count..] == Merge(objects, prefixes)
    ensures count == |all| <==> objects == [] && prefixes == []
  {
  }

  // ---- what a page shows ---------------------------------------------------

  predicate OnPage(page: Page, e: Entry) {
    match e
    case Key(k) => k in page.objects
    case CommonPrefix(p) => p in page.prefixes
  }

  /** Behind the marker in string order; an empty marker counts as none. */
  ghost predicate IsBehindMarker(name: string, marker: Option<string>) {
    marker.None? || marker.value == "" || Precedes(marker.value, name)
  }

  /** A listed entry behind the marker that the page leaves to later pages. */
  ghost predicate IsLeft(page: Page, keys: seq<string>, prefix: string, delimiter: Option<string>,
                         marker: Option<string>, e: Entry)
  {
    IsListed(keys, prefix, delimiter, e) && IsBehindMarker(e.name, marker) && !OnPage(page, e)
  }

  /** The page, in terms of the keys and strings alone. */
  ghost predicate PageIsExact(page: Page, keys: seq<string>, prefix: string, delimiter: Option<string>,
                              marker: Option<string>, maxKeys: nat)
  {
    && Sorted(page.objects) && Sorted(page.prefixes)
    && page.count == |page.objects| + |page.prefixes| <= maxKeys
    && (forall e :: OnPage(page, e) ==> IsListed(keys, prefix, delimiter, e) && IsBehindMarker(e.name, marker))
    && (forall e :: IsLeft(page, keys, prefix, delimiter, marker, e) ==> page.count == maxKeys && IsBehindPage(page, e))
    && (page.truncated <==> maxKeys > 0 && exists e :: IsLeft(page, keys, prefix, delimiter, marker, e))
    && (if page.truncated then page.next.Some? && EndsPage(page, page.next.value) else page.next == None)
  }

  ghost predicate IsBehindPage(page: Page, e: Entry) {
    forall f :: OnPage(page, f) ==> Precedes(f.name, e.name)
  }

  /** The last name on the page. */
  ghost predicate EndsPage(page: Page, name: string) {
    && (exists e :: OnPage(page, e) && e.name == name)
    && (forall e :: OnPage(page, e) ==> e.name == name || Precedes(e.name, name))
  }

  lemma {:induction false} KeysMembers(es: seq<Entry>)
    ensures forall x :: x in Keys(es) <==> Key(x) in es
    ensures forall x :: x in CommonPrefixes(es) <==> CommonPrefix(x) in es
    ensures |Keys(es)| + |CommonPrefixes(es)| == |es|
    decreases |es|
  {
    if es != [] {
      var front, last := es[..|es| - 1], es[|es| - 1];
      KeysMembers(front);
      assert es == front + [last];
    }
  }

  lemma {:induction false} KeysSorted(es: seq<Entry>)
    requires InOrder(es)
    ensures Sorted(Keys(es)) && Sorted(CommonPrefixes(es))
    decreases |es|
  {
    if es != [] {
      var front, last := es[..|es| - 1], es[|es| - 1];
      KeysSorted(front);
      KeysMembers(front);
      forall x | Key(x) in front || CommonPrefix(x) in front
        ensures Below(x, last.name)
      {
        var i :| 0 <= i < |front| && front[i].name == x;
        assert es[i] == front[i];
      }
      assert forall i :: 0 <= i < |Keys(front)| ==> Keys(front)[i] in Keys(front);
      assert forall i :: 0 <= i < |CommonPrefixes(front)| ==> CommonPrefixes(front)[i] in CommonPrefixes(front);
    }
  }

  lemma {:induction false} AboveMembers(entries: seq<Entry>, marker: Option<string>, e: Entry)
    ensures e in EntriesAbove(entries, marker) <==> e in entries && Passes(e.name, marker)
    decreases |entries|
  {
    if entries != [] {
      AboveMembers(entries[1..], marker, e);
      assert entries == [entries[0]] + entries[1..];
    }
  }

  lemma PassesExactly(name: string, marker: Option<string>)
    ensures Passes(name, marker) <==> IsBehindMarker(name, marker)
  {
    if marker.Some? {
      BelowIsLexicographic(marker.value, name);
    }
  }

  /** What stands on the page, and what is left. */
  lemma SplitAt(above: seq<Entry>, n: nat, page: Page, e: Entry)
    requires n <= |above| && InOrder(above)
    requires page.objects == Keys(above[..n]) && page.prefixes == CommonPrefixes(above[..n])
    ensures OnPage(page, e) <==> e in above[..n]
    ensures e in above && !OnPage(page, e) <==> e in above[n..]
  {
    KeysMembers(above[..n]);
    assert above == above[..n] + above[n..];
    if e in above[..n] && e in above[n..] {
      var i :| 0 <= i < n && above[i] == e;
      var j :| n <= j < |above| && above[j] == e;
      BelowIsStrict(above[i].name, above[j].name);
    }
  }

  lemma PrecedesAcross(above: seq<Entry>, n: nat, f: Entry, e: Entry)
    requires n <= |above| && InOrder(above) && f in above[..n] && e in above[n..]
    ensures Precedes(f.name, e.name)
  {
    var i :| 0 <= i < n && above[i] == f;
    var j :| n <= j < |above| && above[j] == e;
    BelowIsLexicographic(f.name, e.name);
  }

  lemma LastOnPage(above: seq<Entry>, n: nat, e: Entry)
    requires 0 < n <= |above| && InOrder(above) && e in above[..n]
    ensures above[n - 1] in above[..n] && (e == above[n - 1] || Precedes(e.name, above[n - 1].name))
  {
    assert above[..n][n - 1] == above[n - 1];
    var i :| 0 <= i < n && above[i] == e;
    if i < n - 1 {
      BelowIsLexicographic(e.name, above[n - 1].name);
    }
  }

  lemma EndOfPage(page: Page, above: seq<Entry>, n: nat)
    requires InOrder(above) && 0 < n <= |above|
    requires forall e :: OnPage(page, e) <==> e in above[..n]
    ensures EndsPage(page, above[n - 1].name)
  {
    LastOnPage(above, n, above[..n][n - 1]);
    assert OnPage(page, above[n - 1]);
    forall e | OnPage(page, e)
      ensures e.name == above[n - 1].name || Precedes(e.name, above[n - 1].name)
    {
      LastOnPage(above, n, e);
    }
  }

  lemma RestIsBehind(page: Page, above: seq<Entry>, n: nat, e: Entry)
    requires InOrder(above) && n <= |above| && e in above[n..]
    requires forall f :: OnPage(page, f) <==> f in above[..n]
    ensures IsBehindPage(page, e)
  {
    forall f | OnPage(page, f)
      ensures Precedes(f.name, e.name)
    {
      PrecedesAcross(above, n, f, e);
    }
  }

  /** The same about the entries above the marker. */
  ghost predicate PageOf(page: Page, above: seq<Entry>, maxKeys: nat) {
    && Sorted(page.objects) && Sorted(page.prefixes)
    && page.count == |page.objects| + |page.prefixes| <= maxKeys
    && (forall e :: OnPage(page, e) ==> e in above)
    && (forall e :: e in above && !OnPage(page, e) ==> page.count == maxKeys && IsBehindPage(page, e))
    && (page.truncated <==> maxKeys > 0 && exists e :: e in above && !OnPage(page, e))
    && (if page.truncated then page.next.Some? && EndsPage(page, page.next.value) else page.next == None)
  }

  /** A page of the first entries above the marker is exact. */
  lemma ShownIsExact(page: Page, above: seq<Entry>, maxKeys: nat)
    requires InOrder(above)
    requires var n := Min(maxKeys, |above|); Shows(page, above[..n], maxKeys > 0 && n < |above|)
    ensures PageOf(page, above, maxKeys)
  {
    var n := Min(maxKeys, |above|);
    KeysMembers(above[..n]);
    KeysSorted(above[..n]);
    forall e
      ensures OnPage(page, e) <==> e in above[..n]
      ensures e in above && !OnPage(page, e) <==> e in above[n..]
    {
      SplitAt(above, n, page, e);
    }
    forall e | e in above[n..]
      ensures IsBehindPage(page, e)
    {
      RestIsBehind(page, above, n, e);
    }
    if n < |above| {
      assert above[n..][0] in above[n..];
      if n > 0 {
        EndOfPage(page, above, n);
      }
    }
  }

  lemma PageOfListing(page: Page, keys: seq<string>, prefix: string, delimiter: Option<string>, marker: Option<string>,
                      maxKeys: nat)
    requires Sorted(keys)
    requires var above := EntriesAbove(Listed(keys, prefix, delimiter), marker);
      var n := Min(maxKeys, |above|);
      Shows(page, above[..n], maxKeys > 0 && n < |above|)
    ensures PageIsExact(page, keys, prefix, delimiter, marker, maxKeys)
  {
    var all := Listed(keys, prefix, delimiter);
    ListedIsExact(keys, prefix, delimiter);
    var cut := AboveIsSuffix(all, marker);
    var above := EntriesAbove(all, marker);
    ShownIsExact(page, above, maxKeys);
    forall e
      ensures e in above <==> IsListed(keys, prefix, delimiter, e) && IsBehindMarker(e.name, marker)
    {
      AboveMembers(all, marker, e);
      PassesExactly(e.name, marker);
    }
    SameEntries(page, keys, prefix, delimiter, marker, maxKeys, above);
  }

  lemma SameEntries(page: Page, keys: seq<string>, prefix: string, delimiter: Option<string>, marker: Option<string>,
                    maxKeys: nat, above: seq<Entry>)
    requires PageOf(page, above, maxKeys)
    requires forall e :: e in above <==> IsListed(keys, prefix, delimiter, e) && IsBehindMarker(e.name, marker)
    ensures PageIsExact(page, keys, prefix, delimiter, marker, maxKeys)
  {
    forall e
      ensures IsLeft(page, keys, prefix, delimiter, marker, e) <==> e in above && !OnPage(page, e)
    {
    }
  }

  /** The statements of `list_bucket_page`. */
  method BuildPage(keys: seq<string>, prefix: string, delimiter: Option<string>, marker: Option<string>, maxKeys: nat)
    returns (page: Page)
    requires Sorted(keys)
    ensures var above := EntriesAbove(Listed(keys, prefix, delimiter), marker);
      var n := Min(maxKeys, |above|);
      Shows(page, above[..n], maxKeys > 0 && n < |above|)
  {
    var objects, prefixes := CollectLists(keys, prefix, delimiter);
    ObjectsAreExact(keys, prefix, delimiter);
    PrefixesAreExact(keys, prefix, delimiter);
    ListsAreApart(keys, prefix, delimiter);
    MergeAbove(objects, prefixes, marker);
    page := MergePage(Retain(objects, marker), Retain(prefixes, marker), maxKeys);
  }

  /** `list_bucket_page`: the first `maxKeys` entries of the listing above the marker. */
  method ListPage(keys: seq<string>, prefix: string, delimiter: Option<string>, marker: Option<string>, maxKeys: nat)
    returns (page: Page)
    requires Sorted(keys)
    ensures var above := EntriesAbove(Listed(keys, prefix, delimiter), marker);
      var n := Min(maxKeys, |above|);
      Shows(page, above[..n], maxKeys > 0 && n < |above|)
    ensures PageIsExact(page, keys, prefix, delimiter, marker, maxKeys)
  {
    page := BuildPage(keys, prefix, delimiter, marker, maxKeys);
    PageOfListing(page, keys, prefix, delimiter, marker, maxKeys);
  }

  // ---- following the markers -----------------------------------------------

  lemma {:induction false} AllPass(entries: seq<Entry>, marker: Option<string>)
    requires forall i :: 0 <= i < |entries| ==> Passes(entries[i].name, marker)
    ensures EntriesAbove(entries, marker) == entries
    decreases |entries|
  {
    if entries != [] {
      assert Passes(entries[0].name, marker);
      AllPass(entries[1..], marker);
    }
  }

  /** In a sorted listing the entries above a marker are a suffix. */
  lemma {:induction false} AboveIsSuffix(entries: seq<Entry>, marker: Option<string>) returns (cut: nat)
    requires InOrder(entries)
    ensures cut <= |entries| && EntriesAbove(entries, marker) == entries[cut..]
    decreases |entries|
  {
    if entries == [] {
      return 0;
    }
    if Passes(entries[0].name, marker) {
      forall i | 0 <= i < |entries|
        ensures Passes(entries[i].name, marker)
      {
        if i > 0 && marker.Some? && marker.value != "" {
          BelowIsTransitive(marker.value, entries[0].name, entries[i].name);
        }
      }
      AllPass(entries, marker);
      return 0;
    }
    var rest := AboveIsSuffix(entries[1..], marker);
    return rest + 1;
  }

  /** Taking an entry's own name as the marker leaves exactly what follows it. */
  lemma {:induction false} AboveEntry(entries: seq<Entry>, i: nat)
    requires InOrder(entries) && i < |entries| && entries[i].name != ""
    ensures EntriesAbove(entries, Some(entries[i].name)) == entries[i + 1..]
    decreases |entries|
  {
    var marker := Some(entries[i].name);
    if i == 0 {
      if Below(entries[0].name, entries[0].name) {
        BelowIsStrict(entries[0].name, entries[0].name);
      }
      AllPass(entries[1..], marker);
    } else {
      BelowIsStrict(entries[0].name, entries[i].name);
      AboveEntry(entries[1..], i - 1);
    }
  }

  /** The next page starts where this one ended. */
  lemma NextPageContinues(entries: seq<Entry>, marker: Option<string>, n: nat)
    requires InOrder(entries) && 0 < n <= |EntriesAbove(entries, marker)|
    requires EntriesAbove(entries, marker)[n - 1].name != ""
    ensures EntriesAbove(entries, Some(EntriesAbove(entries, marker)[n - 1].name)) == EntriesAbove(entries, marker)[n..]
  {
    var cut := AboveIsSuffix(entries, marker);
    AboveEntry(entries, cut + n - 1);
  }

  /** An empty name as marker is ignored, so a listing with an empty key would never advance past it. */
  lemma EmptyNameRestarts(entries: seq<Entry>)
    ensures EntriesAbove(entries, Some("")) == entries
  {
  }

  lemma {:induction false} KeysConcat(a: seq<Entry>, b: seq<Entry>)
    ensures Keys(a + b) == Keys(a) + Keys(b) && CommonPrefixes(a + b) == CommonPrefixes(a) + CommonPrefixes(b)
    decreases |b|
  {
    if b == [] {
      assert a + b == a;
    } else {
      KeysConcat(a, b[..|b| - 1]);
      assert (a + b)[..|a + b| - 1] == a + b[..|b| - 1];
    }
  }

  predicate Named(entries: seq<Entry>) {
    forall i :: 0 <= i < |entries| ==> entries[i].name != ""
  }

  lemma NamesAreNotEmpty(keys: seq<string>, prefix: string, delimiter: Option<string>)
    requires Sorted(keys) && "" !in keys
    ensures InOrder(Listed(keys, prefix, delimiter)) && Named(Listed(keys, prefix, delimiter))
  {
    ListedIsExact(keys, prefix, delimiter);
    var all := Listed(keys, prefix, delimiter);
    forall i | 0 <= i < |all|
      ensures all[i].name != ""
    {
      var e := all[i];
      assert e in all;
      if e.Key? {
        assert Key(e.name) in all;
      } else {
        assert IsListed(keys, prefix, delimiter, e);
        var k :| k in keys && FoldsInto(k, prefix, delimiter.value, e.name);
      }
    }
  }

  /** What the client has after `done` entries, and where the next request starts. */
  ghost predicate Collected(all: seq<Entry>, start: Option<string>, done: nat, marker: Option<string>,
                            objects: seq<string>, prefixes: seq<string>)
  {
    var above := EntriesAbove(all, start);
    done <= |above| && EntriesAbove(all, marker) == above[done..]
    && objects == Keys(above[..done]) && prefixes == CommonPrefixes(above[..done])
  }

  lemma TakeMore(above: seq<Entry>, done: nat, n: nat)
    requires done + n <= |above|
    ensures Keys(above[..done + n]) == Keys(above[..done]) + Keys(above[done..][..n])
    ensures CommonPrefixes(above[..done + n]) == CommonPrefixes(above[..done]) + CommonPrefixes(above[done..][..n])
  {
    assert above[..done + n] == above[..done] + above[done..][..n];
    KeysConcat(above[..done], above[done..][..n]);
  }

  lemma MarkerAdvances(all: seq<Entry>, start: Option<string>, last: nat)
    requires InOrder(all) && Named(all) && last < |EntriesAbove(all, start)|
    ensures EntriesAbove(all, Some(EntriesAbove(all, start)[last].name)) == EntriesAbove(all, start)[last + 1..]
  {
    var cut := AboveIsSuffix(all, start);
    assert EntriesAbove(all, start)[last] == all[cut + last];
    NextPageContinues(all, start, last + 1);
  }

  /** A page of the n entries behind the first `done`: what it adds, and where its marker leads. */
  lemma PageAdds(all: seq<Entry>, start: Option<string>, above: seq<Entry>, done: nat, n: nat, page: Page)
    requires InOrder(all) && Named(all) && above == EntriesAbove(all, start)
    requires done + n <= |above| && Shows(page, above[done..][..n], done + n < |above|)
    ensures Keys(above[..done + n]) == Keys(above[..done]) + page.objects
    ensures CommonPrefixes(above[..done + n]) == CommonPrefixes(above[..done]) + page.prefixes
    ensures page.truncated ==> n > 0 && EntriesAbove(all, page.next) == above[done + n..]
  {
    TakeMore(above, done, n);
    if page.truncated {
      assert above[done..][..n][n - 1] == above[done + n - 1];
      MarkerAdvances(all, start, done + n - 1);
    }
  }

  /** What one round of the client adds. */
  lemma RoundAdds(all: seq<Entry>, start: Option<string>, done: nat, marker: Option<string>,
                  objects: seq<string>, prefixes: seq<string>, maxKeys: nat, page: Page)
    requires InOrder(all) && Named(all) && maxKeys > 0
    requires Collected(all, start, done, marker, objects, prefixes)
    requires var rest := EntriesAbove(all, marker);
      Shows(page, rest[..Min(maxKeys, |rest|)], Min(maxKeys, |rest|) < |rest|)
    ensures page.truncated ==> page.count > 0
    ensures page.truncated ==> Collected(all, start, done + page.count, page.next, objects + page.objects,
                                         prefixes + page.prefixes)
    ensures !page.truncated ==>
      objects + page.objects == Keys(EntriesAbove(all, start))
        && prefixes + page.prefixes == CommonPrefixes(EntriesAbove(all, start))
  {
    var above := EntriesAbove(all, start);
    var n := Min(maxKeys, |above| - done);
    PageAdds(all, start, above, done, n, page);
    assert !page.truncated ==> above[..done + n] == above;
  }

  lemma EverythingIsExact(keys: seq<string>, prefix: string, delimiter: Option<string>, start: Option<string>)
    requires Sorted(keys)
    ensures var above := EntriesAbove(Listed(keys, prefix, delimiter), start);
      && Sorted(Keys(above)) && Sorted(CommonPrefixes(above))
      && (forall k :: k in Keys(above) <==> IsListed(keys, prefix, delimiter, Key(k)) && IsBehindMarker(k, start))
      && (forall p :: p in CommonPrefixes(above) <==>
            IsListed(keys, prefix, delimiter, CommonPrefix(p)) && IsBehindMarker(p, start))
  {
    var all := Listed(keys, prefix, delimiter);
    ListedIsExact(keys, prefix, delimiter);
    var cut := AboveIsSuffix(all, start);
    KeysSorted(EntriesAbove(all, start));
    KeysMembers(EntriesAbove(all, start));
    forall e
      ensures e in EntriesAbove(all, start) <==> IsListed(keys, prefix, delimiter, e) && IsBehindMarker(e.name, start)
    {
      AboveMembers(all, start, e);
      PassesExactly(e.name, start);
    }
  }

  /** The loop of the client. */
  method FollowMarkers(keys: seq<string>, prefix: string, delimiter: Option<string>, start: Option<string>,
                       maxKeys: nat)
    returns (objects: seq<string>, prefixes: seq<string>)
    requires Sorted(keys) && "" !in keys && maxKeys >= 1
    ensures var above := EntriesAbove(Listed(keys, prefix, delimiter), start);
      objects == Keys(above) && prefixes == CommonPrefixes(above)
  {
    ghost var all := Listed(keys, prefix, delimiter);
    ghost var done := 0;
    NamesAreNotEmpty(keys, prefix, delimiter);
    objects, prefixes := [], [];
    var marker := start;
    while true
      invariant Collected(all, start, done, marker, objects, prefixes)
      decreases |EntriesAbove(all, start)| - done
    {
      var page := BuildPage(keys, prefix, delimiter, marker, maxKeys);
      RoundAdds(all, start, done, marker, objects, prefixes, maxKeys, page);
      objects, prefixes := objects + page.objects, prefixes + page.prefixes;
      if !page.truncated {
        return;
      }
      marker, done := page.next, done + page.count;
    }
  }

  /** A client that follows the markers ends, with every entry above its first marker once, in order. */
  method ListEverything(keys: seq<string>, prefix: string, delimiter: Option<string>, start: Option<string>,
                        maxKeys: nat)
    returns (objects: seq<string>, prefixes: seq<string>)
    requires Sorted(keys) && "" !in keys && maxKeys >= 1
    ensures Sorted(objects) && Sorted(prefixes)
    ensures forall k :: k in objects <==> IsListed(keys, prefix, delimiter, Key(k)) && IsBehindMarker(k, start)
    ensures forall p :: p in prefixes <==>
      IsListed(keys, prefix, delimiter, CommonPrefix(p)) && IsBehindMarker(p, start)
  {
    objects, prefixes := FollowMarkers(keys, prefix, delimiter, start, maxKeys);
    EverythingIsExact(keys, prefix, delimiter, start);
  }

  // ---- ListObjectsV2 -------------------------------------------------------

  /** `max(continuation_token, start_after)`, either of which may be missing. */
  function ResumeAfter(token: Option<string>, startAfter: Option<string>): Option<string> {
    if token.Some? && startAfter.Some? then (if Below(startAfter.value, token.value) then token else startAfter)
    else if token.Some? then token
    else startAfter
  }

  /** Resuming after the later of the two is resuming after both. */
  lemma {:induction false} ResumeIsBoth(entries: seq<Entry>, token: Option<string>, startAfter: Option<string>)
    ensures EntriesAbove(entries, ResumeAfter(token, startAfter))
      == EntriesAbove(EntriesAbove(entries, startAfter), token)
    decreases |entries|
  {
    if entries != [] {
      ResumeIsBoth(entries[1..], token, startAfter);
      PassesBoth(entries[0].name, token, startAfter);
      var rest := EntriesAbove(entries[1..], startAfter);
      assert ([entries[0]] + rest)[1..] == rest;
    }
  }

  lemma PassesBoth(name: string, token: Option<string>, startAfter: Option<string>)
    ensures Passes(name, ResumeAfter(token, startAfter)) <==> Passes(name, token) && Passes(name, startAfter)
  {
    if token.Some? && startAfter.Some? {
      var a, b := token.value, startAfter.value;
      BelowIsTotal(a, b);
      if Below(a, b) && Below(b, name) {
        BelowIsTransitive(a, b, name);
      }
      if Below(b, a) {
        BelowIsStrict(b, a);
        if Below(a, name) {
          BelowIsTransitive(b, a, name);
        }
      }
    }
  }
}
