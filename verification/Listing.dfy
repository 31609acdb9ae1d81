/**
 Bucket listing of src/s3_server.rs: keys and common prefixes merged in order, cut into pages.

 Strings compare by code point, which is the byte order of their UTF-8 form.  The keys come
 sorted and distinct from the manifest query and the library sort.
 */
module Listing {
  import opened Basics

  // ---- string order --------------------------------------------------------

  predicate Below(a: string, b: string) {
    if a == "" then b != ""
    else b != "" && (a[0] < b[0] || (a[0] == b[0] && Below(a[1..], b[1..])))
  }

  lemma {:induction false} BelowIsTransitive(a: string, b: string, c: string)
    requires Below(a, b) && Below(b, c)
    ensures Below(a, c)
    decreases |a|
  {
    if a != "" && a[0] == b[0] == c[0] {
      BelowIsTransitive(a[1..], b[1..], c[1..]);
    }
  }

  lemma {:induction false} BelowIsTotal(a: string, b: string)
    ensures a == b || Below(a, b) || Below(b, a)
    decreases |a|
  {
    if a != "" && b != "" && a[0] == b[0] {
      BelowIsTotal(a[1..], b[1..]);
      assert a == [a[0]] + a[1..] && b == [b[0]] + b[1..];
    }
  }

  lemma {:induction false} BelowIsStrict(a: string, b: string)
    requires Below(a, b)
    ensures a != b && !Below(b, a)
    decreases |a|
  {
    if a != "" && a[0] == b[0] {
      BelowIsStrict(a[1..], b[1..]);
    }
  }

  /** The order of strings, said without recursion: a proper prefix, or smaller where they first differ. */
  ghost predicate Precedes(a: string, b: string) {
    || (|a| < |b| && b[..|a|] == a)
    || exists i :: 0 <= i < |a| && i < |b| && a[..i] == b[..i] && a[i] < b[i]
  }

  lemma {:induction false} BelowIsLexicographic(a: string, b: string)
    ensures Below(a, b) <==> Precedes(a, b)
    decreases |a|
  {
    if a != "" && b != "" && a[0] == b[0] {
      BelowIsLexicographic(a[1..], b[1..]);
      assert a == [a[0]] + a[1..] && b == [b[0]] + b[1..];
      if Precedes(a[1..], b[1..]) {
        TailPrecedes(a, b);
      }
      if Precedes(a, b) {
        PrecedesTail(a, b);
      }
    } else if a != "" && b != "" {
      assert a[..0] == b[..0];
      assert |a| < |b| ==> b[..|a|][0] == b[0];
      forall i | 0 < i < |a| && i < |b|
        ensures a[..i] != b[..i]
      {
        assert a[..i][0] == a[0] && b[..i][0] == b[0];
      }
    }
  }

  lemma TailPrecedes(a: string, b: string)
    requires a != "" && b != "" && a[0] == b[0] && Precedes(a[1..], b[1..])
    ensures Precedes(a, b)
  {
    if |a| < |b| && b[1..][..|a| - 1] == a[1..] {
      assert b[..|a|] == [b[0]] + b[1..][..|a| - 1] == [a[0]] + a[1..] == a;
    } else {
      var i :| 0 <= i < |a[1..]| && i < |b[1..]| && a[1..][..i] == b[1..][..i] && a[1..][i] < b[1..][i];
      assert a[..i + 1] == [a[0]] + a[1..][..i] == [b[0]] + b[1..][..i] == b[..i + 1];
      assert a[i + 1] < b[i + 1];
    }
  }

  lemma PrecedesTail(a: string, b: string)
    requires a != "" && b != "" && a[0] == b[0] && Precedes(a, b)
    ensures Precedes(a[1..], b[1..])
  {
    if |a| < |b| && b[..|a|] == a {
      assert b[1..][..|a| - 1] == b[..|a|][1..] == a[1..];
    } else {
      var i :| 0 <= i < |a| && i < |b| && a[..i] == b[..i] && a[i] < b[i];
      assert a[1..][..i - 1] == a[..i][1..] == b[..i][1..] == b[1..][..i - 1];
      assert a[1..][i - 1] < b[1..][i - 1];
    }
  }

  predicate Sorted(s: seq<string>) {
    forall i, j :: 0 <= i < j < |s| ==> Below(s[i], s[j])
  }

  // ---- grouping by delimiter -----------------------------------------------

  predicate OccursAt(s: string, part: string, i: nat) {
    i + |part| <= |s| && s[i..i + |part|] == part
  }

  lemma OccursLater(s: string, part: string)
    requires s != ""
    ensures forall i: nat :: i > 0 ==> (OccursAt(s, part, i) <==> OccursAt(s[1..], part, i - 1))
  {
    forall i: nat | i > 0
      ensures OccursAt(s, part, i) <==> OccursAt(s[1..], part, i - 1)
    {
      if i + |part| <= |s| {
        assert s[1..][i - 1..i - 1 + |part|] == s[i..i + |part|];
      }
    }
  }

  /** `str::find`: the first place where `part` occurs, and nothing only when it occurs nowhere. */
  function Find(s: string, part: string): (at: Option<nat>)
    ensures at.Some? ==> OccursAt(s, part, at.value) && forall i: nat :: i < at.value ==> !OccursAt(s, part, i)
    ensures at.None? ==> forall i: nat :: !OccursAt(s, part, i)
  {
    if part <= s then Some(0)
    else if s == "" then None
    else
      OccursLater(s, part);
      var rest := Find(s[1..], part);
      if rest.None? then None else Some(rest.value + 1)
  }

  function Relative(key: string, prefix: string): string {
    if prefix <= key then key[|prefix|..] else key
  }

  /** The common prefix the key is folded into, if the delimiter occurs behind the prefix. */
  function Group(key: string, prefix: string, delimiter: Option<string>): Option<string> {
    if delimiter.None? || delimiter.value == "" then None
    else
      var relative := Relative(key, prefix);
      var at := Find(relative, delimiter.value);
      if at.None? then None else Some(prefix + relative[..at.value + |delimiter.value|])
  }

  /** What stands behind the prefix: the rest of the key, or a key without the prefix as it is. */
  predicate IsBehind(key: string, prefix: string, rest: string) {
    key == prefix + rest || (!(prefix <= key) && rest == key)
  }

  predicate FirstOccursAt(s: string, part: string, i: nat) {
    OccursAt(s, part, i) && forall h: nat :: h < i ==> !OccursAt(s, part, h)
  }

  /** The delimiter occurs behind the prefix, and the common prefix ends with its first occurrence. */
  ghost predicate FoldsInto(key: string, prefix: string, delimiter: string, p: string) {
    exists rest: string, i: nat ::
      IsBehind(key, prefix, rest) && FirstOccursAt(rest, delimiter, i) && p == prefix + rest[..i + |delimiter|]
  }

  ghost predicate IsFolded(key: string, prefix: string, delimiter: string) {
    exists rest: string, i: nat :: IsBehind(key, prefix, rest) && OccursAt(rest, delimiter, i)
  }

  lemma BehindIsRelative(key: string, prefix: string, rest: string)
    ensures IsBehind(key, prefix, rest) <==> rest == Relative(key, prefix)
  {
    assert prefix <= prefix + rest;
    if prefix <= key {
      assert key == prefix + key[|prefix|..];
      assert key == prefix + rest ==> key[|prefix|..] == rest;
    }
  }

  /** What a group is, in terms of the strings alone. */
  lemma GroupExactly(key: string, prefix: string, delimiter: Option<string>)
    ensures delimiter.None? || delimiter.value == "" ==> Group(key, prefix, delimiter).None?
    ensures delimiter.Some? && delimiter.value != "" ==>
      forall p :: Group(key, prefix, delimiter) == Some(p) <==> FoldsInto(key, prefix, delimiter.value, p)
    ensures delimiter.Some? && delimiter.value != "" ==>
      (Group(key, prefix, delimiter).Some? <==> IsFolded(key, prefix, delimiter.value))
  {
    if delimiter.Some? && delimiter.value != "" {
      var d, relative := delimiter.value, Relative(key, prefix);
      forall rest
        ensures IsBehind(key, prefix, rest) <==> rest == relative
      {
        BehindIsRelative(key, prefix, rest);
      }
      var at := Find(relative, d);
      if at.Some? {
        assert IsBehind(key, prefix, relative) && FirstOccursAt(relative, d, at.value);
        assert FoldsInto(key, prefix, d, prefix + relative[..at.value + |d|]);
        forall i: nat | FirstOccursAt(relative, d, i)
          ensures i == at.value
        {
        }
      }
    }
  }

  /** A listed key is never also a common prefix: the latter has the delimiter behind the prefix. */
  lemma KeyIsNoPrefix(key: string, other: string, prefix: string, delimiter: Option<string>)
    requires Group(key, prefix, delimiter).None?
    ensures Group(other, prefix, delimiter) != Some(key)
  {
    if Group(other, prefix, delimiter).Some? {
      var relative := Relative(other, prefix);
      var end := Find(relative, delimiter.value).value + |delimiter.value|;
      assert Relative(prefix + relative[..end], prefix) == relative[..end];
      assert OccursAt(relative[..end], delimiter.value, end - |delimiter.value|);
    }
  }

  // ---- the two lists -------------------------------------------------------

  function Objects(keys: seq<string>, prefix: string, delimiter: Option<string>): seq<string> {
    if keys == [] then []
    else
      var front, key := Objects(keys[..|keys| - 1], prefix, delimiter), keys[|keys| - 1];
      if Group(key, prefix, delimiter).None? then front + [key] else front
  }

  /** `BTreeSet::insert`. */
  function Insert(s: seq<string>, x: string): seq<string> {
    if s == [] then [x]
    else if s[0] == x then s
    else if Below(x, s[0]) then [x] + s
    else [s[0]] + Insert(s[1..], x)
  }

  function Prefixes(keys: seq<string>, prefix: string, delimiter: Option<string>): seq<string> {
    if keys == [] then []
    else
      var front := Prefixes(keys[..|keys| - 1], prefix, delimiter);
      var group := Group(keys[|keys| - 1], prefix, delimiter);
      if group.None? then front else Insert(front, group.value)
  }

  lemma {:induction false} InsertIsSorted(s: seq<string>, x: string)
    requires Sorted(s)
    ensures Sorted(Insert(s, x)) && forall y :: y in Insert(s, x) <==> y in s || y == x
    decreases |s|
  {
    if s != [] && s[0] != x {
      if Below(x, s[0]) {
        forall j | 0 <= j < |s|
          ensures Below(x, s[j])
        {
          if j > 0 {
            BelowIsTransitive(x, s[0], s[j]);
          }
        }
      } else {
        BelowIsTotal(x, s[0]);
        InsertIsSorted(s[1..], x);
        var rest := Insert(s[1..], x);
        assert s == [s[0]] + s[1..];
        forall j | 0 <= j < |rest|
          ensures Below(s[0], rest[j])
        {
          assert rest[j] in rest;
        }
      }
    }
  }

  lemma {:induction false} ObjectsAreExact(keys: seq<string>, prefix: string, delimiter: Option<string>)
    requires Sorted(keys)
    ensures Sorted(Objects(keys, prefix, delimiter))
    ensures forall k :: k in Objects(keys, prefix, delimiter) <==> k in keys && Group(k, prefix, delimiter).None?
    decreases |keys|
  {
    if keys != [] {
      var front, key := keys[..|keys| - 1], keys[|keys| - 1];
      ObjectsAreExact(front, prefix, delimiter);
      assert keys == front + [key];
      forall k | k in Objects(front, prefix, delimiter)
        ensures Below(k, key)
      {
        var i :| 0 <= i < |front| && front[i] == k;
        assert keys[i] == k;
      }
    }
  }

  /** Some listed key is folded into this common prefix. */
  predicate IsGroup(keys: seq<string>, prefix: string, delimiter: Option<string>, p: string) {
    exists i :: 0 <= i < |keys| && Group(keys[i], prefix, delimiter) == Some(p)
  }

  lemma GroupsOfMore(front: seq<string>, key: string, prefix: string, delimiter: Option<string>, p: string)
    ensures IsGroup(front + [key], prefix, delimiter, p) <==>
      IsGroup(front, prefix, delimiter, p) || Group(key, prefix, delimiter) == Some(p)
  {
    var keys := front + [key];
    if IsGroup(front, prefix, delimiter, p) {
      var i :| 0 <= i < |front| && Group(front[i], prefix, delimiter) == Some(p);
      assert keys[i] == front[i];
    }
    if Group(key, prefix, delimiter) == Some(p) {
      assert keys[|front|] == key;
    }
  }

  lemma {:induction false} PrefixesAreExact(keys: seq<string>, prefix: string, delimiter: Option<string>)
    ensures Sorted(Prefixes(keys, prefix, delimiter))
    ensures forall p :: p in Prefixes(keys, prefix, delimiter) <==> IsGroup(keys, prefix, delimiter, p)
    ensures forall p :: p in Prefixes(keys, prefix, delimiter) <==> IsListed(keys, prefix, delimiter, CommonPrefix(p))
    decreases |keys|
  {
    forall p
      ensures IsGroup(keys, prefix, delimiter, p) <==> IsListed(keys, prefix, delimiter, CommonPrefix(p))
    {
      GroupsAreListed(keys, prefix, delimiter, p);
    }
    if keys != [] {
      var front, key := keys[..|keys| - 1], keys[|keys| - 1];
      PrefixesAreExact(front, prefix, delimiter);
      var group := Group(key, prefix, delimiter);
      if group.Some? {
        InsertIsSorted(Prefixes(front, prefix, delimiter), group.value);
      }
      forall p
        ensures p in Prefixes(keys, prefix, delimiter) <==> IsGroup(keys, prefix, delimiter, p)
      {
        GroupsOfMore(front, key, prefix, delimiter, p);
        assert keys == front + [key];
      }
    }
  }

  // ---- the merged listing --------------------------------------------------

  datatype Entry = Key(name: string) | CommonPrefix(name: string)

  predicate InOrder(entries: seq<Entry>) {
    forall i, j :: 0 <= i < j < |entries| ==> Below(entries[i].name, entries[j].name)
  }

  function Merge(objects: seq<string>, prefixes: seq<string>): seq<Entry>
    decreases |objects| + |prefixes|
  {
    if objects == [] && prefixes == [] then []
    else if prefixes == [] || (objects != [] && Below(objects[0], prefixes[0]))
    then [Key(objects[0])] + Merge(objects[1..], prefixes)
    else [CommonPrefix(prefixes[0])] + Merge(objects, prefixes[1..])
  }

  predicate Apart(objects: seq<string>, prefixes: seq<string>) {
    forall x :: x in objects ==> x !in prefixes
  }

  predicate AllAbove(name: string, s: seq<string>) {
    forall i :: 0 <= i < |s| ==> Below(name, s[i])
  }

  lemma HeadIsBelow(head: string, other: seq<string>)
    requires Sorted(other) && (other == [] || Below(head, other[0]))
    ensures AllAbove(head, other)
  {
    forall i | 0 <= i < |other|
      ensures Below(head, other[i])
    {
      if i > 0 {
        BelowIsTransitive(head, other[0], other[i]);
      }
    }
  }

  /** The merge is sorted, has every name of both lists, and nothing else. */
  lemma {:induction false} MergeIsExact(objects: seq<string>, prefixes: seq<string>)
    requires Sorted(objects) && Sorted(prefixes) && Apart(objects, prefixes)
    ensures InOrder(Merge(objects, prefixes)) && |Merge(objects, prefixes)| == |objects| + |prefixes|
    ensures forall x :: Key(x) in Merge(objects, prefixes) <==> x in objects
    ensures forall x :: CommonPrefix(x) in Merge(objects, prefixes) <==> x in prefixes
    decreases |objects| + |prefixes|
  {
    if objects == [] && prefixes == [] {
    } else if prefixes == [] || (objects != [] && Below(objects[0], prefixes[0])) {
      MergeIsExact(objects[1..], prefixes);
      assert objects == [objects[0]] + objects[1..];
      HeadIsBelow(objects[0], prefixes);
      MergeHead(Key(objects[0]), objects[1..], prefixes);
    } else {
      if objects != [] {
        BelowIsTotal(objects[0], prefixes[0]);
        assert objects[0] in objects && prefixes[0] in prefixes;
      }
      MergeIsExact(objects, prefixes[1..]);
      assert prefixes == [prefixes[0]] + prefixes[1..];
      HeadIsBelow(prefixes[0], objects);
      MergeHead(CommonPrefix(prefixes[0]), objects, prefixes[1..]);
    }
  }

  lemma MergeHead(head: Entry, objects: seq<string>, prefixes: seq<string>)
    requires AllAbove(head.name, objects) && AllAbove(head.name, prefixes) && InOrder(Merge(objects, prefixes))
    requires forall x :: Key(x) in Merge(objects, prefixes) <==> x in objects
    requires forall x :: CommonPrefix(x) in Merge(objects, prefixes) <==> x in prefixes
    ensures InOrder([head] + Merge(objects, prefixes))
  {
  }

  /** The whole listing of a bucket. */
  function Listed(keys: seq<string>, prefix: string, delimiter: Option<string>): seq<Entry> {
    Merge(Objects(keys, prefix, delimiter), Prefixes(keys, prefix, delimiter))
  }

  /** What belongs in the listing, in terms of the keys and strings alone. */
  ghost predicate IsListed(keys: seq<string>, prefix: string, delimiter: Option<string>, e: Entry) {
    match e
    case Key(k) => k in keys && (delimiter.Some? && delimiter.value != "" ==> !IsFolded(k, prefix, delimiter.value))
    case CommonPrefix(p) =>
      delimiter.Some? && delimiter.value != "" && exists k :: k in keys && FoldsInto(k, prefix, delimiter.value, p)
  }

  lemma GroupsAreListed(keys: seq<string>, prefix: string, delimiter: Option<string>, p: string)
    ensures IsGroup(keys, prefix, delimiter, p) <==> IsListed(keys, prefix, delimiter, CommonPrefix(p))
  {
    forall k
      ensures delimiter.None? || delimiter.value == "" ==> Group(k, prefix, delimiter).None?
      ensures delimiter.Some? && delimiter.value != "" ==>
        (Group(k, prefix, delimiter) == Some(p) <==> FoldsInto(k, prefix, delimiter.value, p))
    {
      GroupExactly(k, prefix, delimiter);
    }
  }

  /**
   Every key once, as itself unless the delimiter occurs behind the prefix; every common prefix
   of the others once, up to and including the first delimiter; in order.
   */
  lemma ListedIsExact(keys: seq<string>, prefix: string, delimiter: Option<string>)
    requires Sorted(keys)
    ensures InOrder(Listed(keys, prefix, delimiter))
    ensures forall e :: e in Listed(keys, prefix, delimiter) <==> IsListed(keys, prefix, delimiter, e)
  {
    ObjectsAreExact(keys, prefix, delimiter);
    PrefixesAreExact(keys, prefix, delimiter);
    ListsAreApart(keys, prefix, delimiter);
    MergeIsExact(Objects(keys, prefix, delimiter), Prefixes(keys, prefix, delimiter));
    forall e
      ensures e in Listed(keys, prefix, delimiter) <==> IsListed(keys, prefix, delimiter, e)
    {
      match e
      case Key(k) => GroupExactly(k, prefix, delimiter);
      case CommonPrefix(p) => GroupsAreListed(keys, prefix, delimiter, p);
    }
  }

  lemma ListsAreApart(keys: seq<string>, prefix: string, delimiter: Option<string>)
    requires Sorted(keys)
    ensures Apart(Objects(keys, prefix, delimiter), Prefixes(keys, prefix, delimiter))
  {
    ObjectsAreExact(keys, prefix, delimiter);
    PrefixesAreExact(keys, prefix, delimiter);
    forall x | x in Objects(keys, prefix, delimiter)
      ensures x !in Prefixes(keys, prefix, delimiter)
    {
      forall i | 0 <= i < |keys|
        ensures Group(keys[i], prefix, delimiter) != Some(x)
      {
        KeyIsNoPrefix(x, keys[i], prefix, delimiter);
      }
    }
  }
}
