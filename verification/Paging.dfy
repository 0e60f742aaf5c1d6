/** Paging through a listing with the markers of the previous page (internal/meta/store.go,
    and the callers that follow the markers, such as internal/fsck/export.go). */
module Paging {
  import opened Kv
  import opened Keys
  import opened Listing

  // ----- entries without the latest flag

  /** `IsLatest` is decided from the records of one page only, so pages are compared without it. */
  function Bare(e: ListEntry): ListEntry {
    match e
    case Version(o, _) => Version(o, false)
    case CommonPrefix(p) => e
  }

  function BareAll(es: seq<ListEntry>): (bs: seq<ListEntry>)
    ensures |bs| == |es|
  {
    seq(|es|, i requires 0 <= i < |es| => Bare(es[i]))
  }

  lemma BareConcat(a: seq<ListEntry>, b: seq<ListEntry>)
    ensures BareAll(a + b) == BareAll(a) + BareAll(b)
  {
  }

  // ----- following the markers

  /** The start key of the page after one whose last entry is `e`. */
  function Resume(tx: Tx, q: Query, e: ListEntry): Option<Bytes> {
    var k := NextKey(e);
    Start(tx, q.bucket, ListOptions(q.prefix, q.delimiter, k, k, NextVersion(e, q.versions), 0), q.versions)
  }

  /** Every version ID locates its record: it is "null" and the null pointer names the
      record, or it starts with the record's sequence. */
  ghost predicate ValidIds(tx: Tx, q: Query)
    requires ValidQuery(tx, q)
  {
    q.versions ==> forall i :: 0 <= i < |tx.keys| && Under(tx, q, i) ==> ValidId(tx, q, i)
  }

  ghost predicate ValidId(tx: Tx, q: Query, i: nat)
    requires ValidQuery(tx, q) && i < |tx.keys| && Under(tx, q, i)
  {
    var key, o := Key(tx, q, i), tx.values[i].o;
    if o.versionID == NULL_ID then key in tx.nulls && tx.nulls[key] == VerKey(o.seqNo)
    else SeqFromVersionID(o.versionID) == Some(o.seqNo)
  }

  /** Where an entry of a listing comes from, and what follows it. */
  lemma {:induction false} Locate(tx: Tx, q: Query, start: nat, from: nat, n: nat) returns (i: nat)
    requires ValidQuery(tx, q) && start <= from && n < |Items(tx, q, start, from)|
    ensures from <= i < |tx.keys| && Contribution(tx, q, start, i) == [Items(tx, q, start, from)[n]]
    ensures Items(tx, q, start, i + 1) == Items(tx, q, start, from)[n + 1..]
    decreases |tx.keys| - from
  {
    hide Contribution;
    var c, rest := Contribution(tx, q, start, from), Items(tx, q, start, from + 1);
    var all := Items(tx, q, start, from);
    HeadOrTail(all, c, rest, n);
    if n < |c| {
      i := from;
    } else {
      i := Locate(tx, q, start, from + 1, n - |c|);
    }
  }

  lemma HeadOrTail(all: seq<ListEntry>, c: seq<ListEntry>, rest: seq<ListEntry>, n: nat)
    requires all == c + rest && |c| <= 1 && n < |all|
    ensures n < |c| ==> c == [all[n]] && rest == all[n + 1..]
    ensures n >= |c| ==> all[n] == rest[n - |c|] && all[n + 1..] == rest[n - |c| + 1..]
  {
  }

  lemma ContributionShape(tx: Tx, q: Query, start: nat, i: nat)
    requires ValidQuery(tx, q) && start <= i < |tx.keys| && Contribution(tx, q, start, i) != []
    ensures Under(tx, q, i)
    ensures var e := Contribution(tx, q, start, i)[0];
      if Collapsed(tx, q, i) then e == CommonPrefix(Collapse(q.prefix, q.delimiter, Key(tx, q, i)).value)
      else e.Version? && e.o == tx.values[i].o
    ensures HasPrefix(Key(tx, q, i), NextKey(Contribution(tx, q, start, i)[0]))
    ensures Collapsed(tx, q, i) || !q.versions ==> First(tx, start, i, Group(tx, q, i))
  {
    if Collapsed(tx, q, i) {
      CollapseShape(q.prefix, q.delimiter, Key(tx, q, i));
    }
  }

  // ----- where the next page starts

  lemma ResumeAfterPrefix(tx: Tx, q: Query, key: Bytes, cp: Bytes)
    requires HasPrefix(key, q.prefix) && Collapse(q.prefix, q.delimiter, key) == Some(cp)
    ensures Resume(tx, q, CommonPrefix(cp)) == Successor(ScanPrefix(q.bucket, cp))
  {
    CollapseShape(q.prefix, q.delimiter, key);
    PrefixLe(q.prefix, cp);
  }

  /** After a plain key the next page starts past its versions, or, when the key happens to
      end in the delimiter, past everything that begins with the key. */
  lemma ResumeAfterKey(tx: Tx, q: Query, o: Object, latest: bool)
    requires o.key != [] && HasPrefix(o.key, q.prefix) && !q.versions
    ensures Resume(tx, q, Version(o, latest)) ==
      if q.delimiter != [] && HasSuffix(o.key, q.delimiter) then Successor(ScanPrefix(q.bucket, o.key))
      else Successor(ObjectPrefix(q.bucket, o.key))
  {
    PrefixLe(q.prefix, o.key);
  }

  lemma ResumeAfterVersion(tx: Tx, q: Query, i: nat, latest: bool)
    requires ValidQuery(tx, q) && i < |tx.keys| && Under(tx, q, i) && q.versions && ValidId(tx, q, i)
    ensures Resume(tx, q, Version(tx.values[i].o, latest)) == Some(tx.keys[i] + [NUL])
  {
    PrefixLe(q.prefix, Key(tx, q, i));
  }

  /** The key a plain entry ends a page with would swallow what begins with it. */
  predicate Swallows(e: ListEntry, delimiter: Bytes) {
    e.Version? && delimiter != [] && HasSuffix(e.o.key, delimiter)
  }

  /** The next page starts after record `i`: exactly past its group (or, listing versions,
      exactly past the record), except after a key that ends in the delimiter. */
  lemma ResumeAt(tx: Tx, q: Query, start: nat, i: nat)
    requires ValidQuery(tx, q) && ValidIds(tx, q) && start <= i < |tx.keys| && Contribution(tx, q, start, i) != []
    ensures Under(tx, q, i)
    ensures var e := Contribution(tx, q, start, i)[0];
      Resume(tx, q, e) ==
        if q.versions && e.Version? then Some(tx.keys[i] + [NUL])
        else if Swallows(e, q.delimiter) then Successor(ScanPrefix(q.bucket, e.o.key))
        else Successor(Group(tx, q, i))
  {
    ContributionShape(tx, q, start, i);
    var e := Contribution(tx, q, start, i)[0];
    var key := Key(tx, q, i);
    if e.CommonPrefix? {
      ResumeAfterPrefix(tx, q, key, e.prefix);
    } else if q.versions {
      ResumeAfterVersion(tx, q, i, e.isLatest);
    } else {
      ResumeAfterKey(tx, q, e.o, e.isLatest);
    }
  }

  lemma KeyUnderItself(tx: Tx, q: Query, i: nat)
    requires ValidQuery(tx, q) && i < |tx.keys| && Under(tx, q, i)
    ensures HasPrefix(tx.keys[i], ScanPrefix(q.bucket, Key(tx, q, i)))
    ensures Successor(ScanPrefix(q.bucket, Key(tx, q, i))).Some?
  {
    ScanMeaning(q.bucket, Key(tx, q, i), Key(tx, q, i), tx.values[i].o.seqNo);
    SuccessorSome(ScanPrefix(q.bucket, Key(tx, q, i)));
  }

  /** The next page starts later than this one and inside the scan, so paging ends. */
  lemma ResumeAdvances(tx: Tx, q: Query, start: nat, n: nat)
    requires ValidQuery(tx, q) && ValidIds(tx, q) && StartsIn(tx, q, start) && n < |Items(tx, q, start, start)|
    ensures var r := Resume(tx, q, Items(tx, q, start, start)[n]);
      r.Some? && start < Seek(tx.keys, r.value) && StartsIn(tx, q, Seek(tx.keys, r.value))
  {
    var i := Locate(tx, q, start, start, n);
    ResumeAt(tx, q, start, i);
    NextGroup(tx, q, start, i);
    SeekAfter(tx.keys, i);
    KeyUnderItself(tx, q, i);
    ContributionShape(tx, q, start, i);
    SeekSkipsPrefix(tx.keys, ScanPrefix(q.bucket, Key(tx, q, i)), i);
  }

  /** All pages of `size` entries, from the page that starts at record `start` on. */
  ghost function Pages(tx: Tx, q: Query, size: nat, start: nat): seq<ListEntry>
    requires ValidQuery(tx, q) && ValidIds(tx, q) && StartsIn(tx, q, start) && size > 0
    decreases |tx.keys| - start
  {
    var all := Items(tx, q, start, start);
    if |all| <= size then all
    else
      ResumeAdvances(tx, q, start, size - 1);
      all[..size] + Pages(tx, q, size, Seek(tx.keys, Resume(tx, q, all[size - 1]).value))
  }

  /** The first record of the scan. */
  ghost function ScanStart(tx: Tx, q: Query): nat {
    Seek(tx.keys, ScanPrefix(q.bucket, q.prefix))
  }

  /** A client that follows the markers until a page is not truncated. */
  method ListAll(tx: Tx, q: Query, maxKeys: int) returns (entries: seq<ListEntry>)
    requires ValidQuery(tx, q) && ValidIds(tx, q)
    ensures entries == Pages(tx, q, PageSize(maxKeys), ScanStart(tx, q))
  {
    hide Contribution, Items, Pages, Resume, IsPage, HasMarkers, AfterKey, Seek, ValidIds, Valid;
    entries := [];
    var opt := ListOptions(q.prefix, q.delimiter, [], [], [], maxKeys);
    ghost var start := ScanStart(tx, q);
    while true
      invariant opt.prefix == q.prefix && opt.delimiter == q.delimiter && opt.maxKeys == maxKeys
      invariant StartsIn(tx, q, start)
      invariant Start(tx, q.bucket, opt, q.versions).Some?
      invariant Seek(tx.keys, Start(tx, q.bucket, opt, q.versions).value) == start
      invariant entries + Pages(tx, q, PageSize(maxKeys), start) == Pages(tx, q, PageSize(maxKeys), ScanStart(tx, q))
      decreases |tx.keys| - start
    {
      var page := List(tx, q.bucket, opt, q.versions);
      assert q == Query(q.bucket, opt.prefix, opt.delimiter, q.versions);
      PageOfPages(tx, q, PageSize(maxKeys), start, page);
      entries := entries + page.entries;
      if !page.isTruncated {
        return;
      }
      StartIgnoresSize(tx, q, page, maxKeys);
      opt := ListOptions(q.prefix, q.delimiter, page.nextKey, page.nextKey, page.nextVersion, maxKeys);
      start := Seek(tx.keys, Resume(tx, q, page.entries[|page.entries| - 1]).value);
    }
  }

  /** A page and what is left after it. */
  lemma PageOfPages(tx: Tx, q: Query, size: nat, start: nat, page: ListResult)
    requires ValidQuery(tx, q) && ValidIds(tx, q) && StartsIn(tx, q, start) && size > 0
    requires IsPage(page, Items(tx, q, start, start), size, q.versions)
    ensures !page.isTruncated ==> page.entries == Pages(tx, q, size, start)
    ensures page.isTruncated ==>
      page.entries != [] && HasMarkers(page, q.versions) &&
      (var r := Resume(tx, q, page.entries[|page.entries| - 1]);
       r.Some? && start < Seek(tx.keys, r.value) && StartsIn(tx, q, Seek(tx.keys, r.value)) &&
       Pages(tx, q, size, start) == page.entries + Pages(tx, q, size, Seek(tx.keys, r.value)))
  {
    hide Contribution, Items, Resume, Seek, ValidIds, Valid, HasMarkers;
    var all := Items(tx, q, start, start);
    if page.isTruncated {
      assert page.entries == all[..size] && page.entries[size - 1] == all[size - 1];
      ResumeAdvances(tx, q, start, size - 1);
    }
  }

  lemma StartIgnoresSize(tx: Tx, q: Query, page: ListResult, maxKeys: int)
    requires page.entries != [] && HasMarkers(page, q.versions)
    ensures Start(tx, q.bucket, ListOptions(q.prefix, q.delimiter, page.nextKey, page.nextKey, page.nextVersion, maxKeys), q.versions)
         == Resume(tx, q, page.entries[|page.entries| - 1])
  {
  }

  // ----- a page that starts afresh continues the listing

  /** A listing restarted at a boundary is the rest of the listing. */
  lemma Restart(tx: Tx, q: Query, start: nat, j: nat)
    requires ValidQuery(tx, q) && start <= j && AtBoundary(tx, q, start, j)
    ensures BareAll(Items(tx, q, j, j)) == BareAll(Items(tx, q, start, j))
    ensures !q.versions ==> Items(tx, q, j, j) == Items(tx, q, start, j)
  {
    if j < |tx.keys| {
      RestartTail(tx, q, start, j, j + 1);
      RestartHead(tx, q, start, j);
      var rest := Items(tx, q, j, j + 1);
      BareConcat(Contribution(tx, q, j, j), rest);
      BareConcat(Contribution(tx, q, start, j), rest);
    }
  }

  lemma RestartHead(tx: Tx, q: Query, start: nat, j: nat)
    requires ValidQuery(tx, q) && start <= j < |tx.keys| && AtBoundary(tx, q, start, j)
    ensures BareAll(Contribution(tx, q, j, j)) == BareAll(Contribution(tx, q, start, j))
    ensures !q.versions ==> Contribution(tx, q, j, j) == Contribution(tx, q, start, j)
  {
  }

  lemma {:induction false} RestartTail(tx: Tx, q: Query, start: nat, j: nat, k: nat)
    requires ValidQuery(tx, q) && start <= j < k
    ensures Items(tx, q, j, k) == Items(tx, q, start, k)
    decreases |tx.keys| - k
  {
    if k < |tx.keys| {
      RestartTail(tx, q, start, j, k + 1);
      assert Contribution(tx, q, j, k) == Contribution(tx, q, start, k);
    }
  }

  /** After an entry that does not swallow, the next page starts with the next entry. */
  lemma NextPageIsRest(tx: Tx, q: Query, start: nat, n: nat)
    requires ValidQuery(tx, q) && ValidIds(tx, q) && StartsIn(tx, q, start) && n < |Items(tx, q, start, start)|
    requires var e := Items(tx, q, start, start)[n]; q.versions || !Swallows(e, q.delimiter)
    ensures var all := Items(tx, q, start, start);
      var r := Resume(tx, q, all[n]);
      r.Some? && var j := Seek(tx.keys, r.value);
      BareAll(Items(tx, q, j, j)) == BareAll(all[n + 1..]) && (!q.versions ==> Items(tx, q, j, j) == all[n + 1..])
  {
    var all := Items(tx, q, start, start);
    var i := Locate(tx, q, start, start, n);
    ResumeAt(tx, q, start, i);
    ContributionShape(tx, q, start, i);
    if q.versions && all[n].Version? {
      SeekAfter(tx.keys, i);
      BoundaryAfterVersion(tx, q, start, i);
      Restart(tx, q, start, i + 1);
    } else {
      SkipGroup(tx, q, start, i);
      var j := Seek(tx.keys, Successor(Group(tx, q, i)).value);
      Restart(tx, q, start, j);
      assert Items(tx, q, start, i) == [all[n]] + all[n + 1..] == [all[n]] + Items(tx, q, start, j);
      assert ([all[n]] + all[n + 1..])[1..] == all[n + 1..];
      assert ([all[n]] + Items(tx, q, start, j))[1..] == Items(tx, q, start, j);
    }
  }

  /** Paging through versions yields every entry of the listing exactly once and in order,
      with or without a delimiter and for every page size. */
  lemma {:induction false} VersionPagesComplete(tx: Tx, q: Query, size: nat, start: nat)
    requires ValidQuery(tx, q) && ValidIds(tx, q) && StartsIn(tx, q, start) && size > 0 && q.versions
    ensures BareAll(Pages(tx, q, size, start)) == BareAll(Items(tx, q, start, start))
    decreases |tx.keys| - start
  {
    hide *;
    PagesAre(tx, q, size, start);
    var all := Items(tx, q, start, start);
    if |all| > size {
      var next := NextStart(tx, q, size, start);
      VersionPagesComplete(tx, q, size, next);
      BareSplit(all, size, Pages(tx, q, size, next));
    }
  }

  /** Where the page after the first `size` entries starts. */
  lemma NextStart(tx: Tx, q: Query, size: nat, start: nat) returns (next: nat)
    requires ValidQuery(tx, q) && ValidIds(tx, q) && StartsIn(tx, q, start) && size > 0 && q.versions && |Items(tx, q, start, start)| > size
    ensures var all := Items(tx, q, start, start);
      var r := Resume(tx, q, all[size - 1]);
      r.Some? && next == Seek(tx.keys, r.value) && start < next <= |tx.keys| && StartsIn(tx, q, next) &&
      BareAll(Items(tx, q, next, next)) == BareAll(all[size..])
  {
    hide *;
    ResumeAdvances(tx, q, start, size - 1);
    NextPageIsRest(tx, q, start, size - 1);
    next := Seek(tx.keys, Resume(tx, q, Items(tx, q, start, start)[size - 1]).value);
    InScan(tx, q, next);
  }

  lemma InScan(tx: Tx, q: Query, start: nat)
    requires StartsIn(tx, q, start)
    ensures start <= |tx.keys|
  {
  }

  lemma PagesAre(tx: Tx, q: Query, size: nat, start: nat)
    requires ValidQuery(tx, q) && ValidIds(tx, q) && StartsIn(tx, q, start) && size > 0
    ensures var all := Items(tx, q, start, start);
      if |all| <= size then Pages(tx, q, size, start) == all
      else
        var r := Resume(tx, q, all[size - 1]);
        r.Some? && StartsIn(tx, q, Seek(tx.keys, r.value)) && Pages(tx, q, size, start) == all[..size] + Pages(tx, q, size, Seek(tx.keys, r.value))
  {
    hide Contribution, Items, Resume, Seek, ValidIds, Valid, ScanPrefix;
    if |Items(tx, q, start, start)| > size { ResumeAdvances(tx, q, start, size - 1); }
  }

  lemma BareSplit(all: seq<ListEntry>, size: nat, rest: seq<ListEntry>)
    requires size <= |all| && BareAll(rest) == BareAll(all[size..])
    ensures BareAll(all[..size] + rest) == BareAll(all)
  {
    BareConcat(all[..size], rest);
    BareConcat(all[..size], all[size..]);
    assert all[..size] + all[size..] == all;
  }

  // ----- paging through keys, and the marker that swallows a subtree

  /** A listed key ends in the delimiter and a later entry begins with it. */
  ghost predicate Shadowed(es: seq<ListEntry>, delimiter: Bytes) {
    exists a, b :: 0 <= a < b < |es| && Shadows(es[a], es[b], delimiter)
  }

  predicate Shadows(e: ListEntry, later: ListEntry, delimiter: Bytes) {
    Swallows(e, delimiter) && HasPrefix(NextKey(later), e.o.key)
  }

  lemma ShadowedTail(es: seq<ListEntry>, n: nat, delimiter: Bytes)
    requires n <= |es| && !Shadowed(es, delimiter)
    ensures !Shadowed(es[n..], delimiter)
  {
  }

  /** What a record adds appears in the listing. */
  lemma {:induction false} Appears(tx: Tx, q: Query, start: nat, from: nat, k: nat) returns (n: nat)
    requires ValidQuery(tx, q) && start <= from <= k < |tx.keys| && Contribution(tx, q, start, k) != []
    ensures n < |Items(tx, q, start, from)| && [Items(tx, q, start, from)[n]] == Contribution(tx, q, start, k)
    decreases k - from
  {
    hide Contribution, ValidQuery;
    var c, rest := Contribution(tx, q, start, from), Items(tx, q, start, from + 1);
    assert Items(tx, q, start, from) == c + rest;
    if k == from {
      n := 0;
    } else {
      var m := Appears(tx, q, start, from + 1, k);
      n := |c| + m;
      assert (c + rest)[n] == rest[m];
    }
  }

  /** Where a listing goes on after a key that swallows: the first record that does not begin
      with the key. */
  lemma AfterSwallow(tx: Tx, q: Query, start: nat, i: nat)
    requires ValidQuery(tx, q) && start <= i < |tx.keys| && Contribution(tx, q, start, i) != []
    requires !q.versions && Swallows(Contribution(tx, q, start, i)[0], q.delimiter)
    ensures Under(tx, q, i) && !Collapsed(tx, q, i)
    ensures Successor(ScanPrefix(q.bucket, Key(tx, q, i))).Some?
    ensures var j := Seek(tx.keys, Successor(ScanPrefix(q.bucket, Key(tx, q, i))).value);
      i < j && AtBoundary(tx, q, start, j) &&
      (forall k :: i <= k < j ==> HasPrefix(tx.keys[k], ScanPrefix(q.bucket, Key(tx, q, i)))) &&
      (forall k :: j <= k < |tx.keys| ==> !HasPrefix(tx.keys[k], ScanPrefix(q.bucket, Key(tx, q, i))))
  {
    ContributionShape(tx, q, start, i);
    KeyUnderItself(tx, q, i);
    var p := ScanPrefix(q.bucket, Key(tx, q, i));
    SeekSkipsPrefix(tx.keys, p, i);
    var j := Seek(tx.keys, Successor(p).value);
    BoundaryAfterSubtree(tx, q, start, i, j);
  }

  lemma BoundaryAfterSubtree(tx: Tx, q: Query, start: nat, i: nat, j: nat)
    requires ValidQuery(tx, q) && start <= i < j <= |tx.keys| && Under(tx, q, i) && !Collapsed(tx, q, i)
    requires HasPrefix(tx.keys[j - 1], ScanPrefix(q.bucket, Key(tx, q, i)))
    requires j < |tx.keys| ==> !HasPrefix(tx.keys[j], ScanPrefix(q.bucket, Key(tx, q, i)))
    ensures AtBoundary(tx, q, start, j)
  {
    if j < |tx.keys| && Under(tx, q, j) && HasPrefix(tx.keys[j - 1], Group(tx, q, j)) {
      SubtreeIsClosed(tx, q, i, j - 1, j);
    }
  }

  /** The records that begin with a plain key are whole groups. */
  lemma SubtreeIsClosed(tx: Tx, q: Query, i: nat, k: nat, j: nat)
    requires ValidQuery(tx, q) && i < |tx.keys| && k < |tx.keys| && j < |tx.keys|
    requires Under(tx, q, i) && !Collapsed(tx, q, i) && Under(tx, q, j)
    requires HasPrefix(tx.keys[k], ScanPrefix(q.bucket, Key(tx, q, i))) && HasPrefix(tx.keys[k], Group(tx, q, j))
    ensures HasPrefix(tx.keys[j], ScanPrefix(q.bucket, Key(tx, q, i)))
  {
    GroupStable(tx, q, j, k);
    var top, key, other := Key(tx, q, i), Key(tx, q, k), Key(tx, q, j);
    ScanMeaning(q.bucket, top, key, tx.values[k].o.seqNo);
    ScanMeaning(q.bucket, top, other, tx.values[j].o.seqNo);
    if Collapsed(tx, q, j) {
      var cp := Collapse(q.prefix, q.delimiter, other).value;
      CollapseShape(q.prefix, q.delimiter, key);
      CollapseShape(q.prefix, q.delimiter, other);
      if |cp| <= |top| {
        TwoPrefixes(key, cp, top);
        CollapseSame(q.prefix, q.delimiter, other, top);
      } else {
        TwoPrefixes(key, top, cp);
        PrefixTransitive(other, cp, top);
      }
    }
  }

  /** If nothing later begins with the key, the skipped records add nothing. */
  lemma SwallowsNothing(tx: Tx, q: Query, start: nat, n: nat, i: nat)
    requires ValidQuery(tx, q) && !q.versions && StartsIn(tx, q, start) && start <= i < |tx.keys|
    requires var all := Items(tx, q, start, start);
      n < |all| && Contribution(tx, q, start, i) == [all[n]] && Items(tx, q, start, i + 1) == all[n + 1..] &&
      Swallows(all[n], q.delimiter) && !Shadowed(all, q.delimiter)
    ensures Under(tx, q, i) && Successor(ScanPrefix(q.bucket, Key(tx, q, i))).Some?
    ensures var j := Seek(tx.keys, Successor(ScanPrefix(q.bucket, Key(tx, q, i))).value);
      i < j && AtBoundary(tx, q, start, j) && Items(tx, q, start, j) == Items(tx, q, start, i + 1)
  {
    hide *;
    ContributionNames(tx, q, start, n, i);
    AfterSwallow(tx, q, start, i);
    var all, key := Items(tx, q, start, start), Key(tx, q, i);
    var j := Seek(tx.keys, Successor(ScanPrefix(q.bucket, key)).value);
    forall k | i + 1 <= k < j
      ensures Contribution(tx, q, start, k) == []
    {
      if Contribution(tx, q, start, k) != [] { SkippedWouldShadow(tx, q, start, all, n, i, k); }
    }
    ItemsSkip(tx, q, start, i + 1, j);
  }

  lemma ContributionNames(tx: Tx, q: Query, start: nat, n: nat, i: nat)
    requires ValidQuery(tx, q) && start <= i < |tx.keys|
    requires var all := Items(tx, q, start, start); n < |all| && Contribution(tx, q, start, i) == [all[n]]
    ensures Contribution(tx, q, start, i) != [] && Contribution(tx, q, start, i)[0] == Items(tx, q, start, start)[n]
  {
    hide *;
  }

  lemma SkippedWouldShadow(tx: Tx, q: Query, start: nat, all: seq<ListEntry>, n: nat, i: nat, k: nat)
    requires ValidQuery(tx, q) && start <= i < k < |tx.keys| && Contribution(tx, q, start, k) != []
    requires n < |all| && Contribution(tx, q, start, i) == [all[n]] && Items(tx, q, start, i + 1) == all[n + 1..]
    requires !q.versions && Swallows(all[n], q.delimiter)
    requires Under(tx, q, i) && !Collapsed(tx, q, i) && HasPrefix(tx.keys[k], ScanPrefix(q.bucket, Key(tx, q, i)))
    ensures Shadowed(all, q.delimiter)
  {
    hide Contribution, Items, ValidQuery, HasPrefix, ScanPrefix, NextKey;
    var m := Appears(tx, q, start, i + 1, k);
    LaterName(tx, q, start, i, k);
    ContributionShape(tx, q, start, i);
    assert all[n + 1 + m] == all[n + 1..][m];
    assert Shadows(all[n], all[n + 1 + m], q.delimiter);
  }

  /** The name of an entry from a record that begins with a plain key begins with that key. */
  lemma LaterName(tx: Tx, q: Query, start: nat, i: nat, k: nat)
    requires ValidQuery(tx, q) && start <= i < k < |tx.keys|
    requires Under(tx, q, i) && !Collapsed(tx, q, i) && Contribution(tx, q, start, k) != []
    requires HasPrefix(tx.keys[k], ScanPrefix(q.bucket, Key(tx, q, i)))
    ensures HasPrefix(NextKey(Contribution(tx, q, start, k)[0]), Key(tx, q, i))
  {
    ContributionShape(tx, q, start, k);
    var top, key := Key(tx, q, i), Key(tx, q, k);
    ScanMeaning(q.bucket, top, key, tx.values[k].o.seqNo);
    if Collapsed(tx, q, k) {
      var cp := Collapse(q.prefix, q.delimiter, key).value;
      CollapseShape(q.prefix, q.delimiter, key);
      if |cp| <= |top| {
        TwoPrefixes(key, cp, top);
        CollapseSame(q.prefix, q.delimiter, key, top);
      } else {
        TwoPrefixes(key, top, cp);
      }
    }
  }

  lemma NextPageOfKeys(tx: Tx, q: Query, start: nat, n: nat)
    requires ValidQuery(tx, q) && !q.versions && StartsIn(tx, q, start) && n < |Items(tx, q, start, start)|
    requires !Shadowed(Items(tx, q, start, start), q.delimiter)
    ensures var all := Items(tx, q, start, start);
      var r := Resume(tx, q, all[n]);
      r.Some? && var j := Seek(tx.keys, r.value); Items(tx, q, j, j) == all[n + 1..]
  {
    var all := Items(tx, q, start, start);
    if Swallows(all[n], q.delimiter) {
      var i := Locate(tx, q, start, start, n);
      ResumeAt(tx, q, start, i);
      ContributionShape(tx, q, start, i);
      SwallowsNothing(tx, q, start, n, i);
      Restart(tx, q, start, Seek(tx.keys, Successor(ScanPrefix(q.bucket, Key(tx, q, i))).value));
    } else {
      NextPageIsRest(tx, q, start, n);
    }
  }

  /** Paging through keys is complete when no listed key shadows a later entry. */
  lemma {:induction false} ObjectPagesComplete(tx: Tx, q: Query, size: nat, start: nat)
    requires ValidQuery(tx, q) && StartsIn(tx, q, start) && size > 0 && !q.versions
    requires !Shadowed(Items(tx, q, start, start), q.delimiter)
    ensures Pages(tx, q, size, start) == Items(tx, q, start, start)
    decreases |tx.keys| - start
  {
    hide Contribution;
    var all := Items(tx, q, start, start);
    if |all| > size {
      PagesStep(tx, q, size, start);
      NextPageOfKeys(tx, q, start, size - 1);
      ShadowedTail(all, size, q.delimiter);
      var next := Seek(tx.keys, Resume(tx, q, all[size - 1]).value);
      ObjectPagesComplete(tx, q, size, next);
      Rejoin(all, size, Pages(tx, q, size, next));
    }
  }

  lemma PagesStep(tx: Tx, q: Query, size: nat, start: nat)
    requires ValidQuery(tx, q) && ValidIds(tx, q) && StartsIn(tx, q, start) && size > 0
    requires |Items(tx, q, start, start)| > size
    ensures var all := Items(tx, q, start, start);
      var r := Resume(tx, q, all[size - 1]);
      r.Some? && start < Seek(tx.keys, r.value) && StartsIn(tx, q, Seek(tx.keys, r.value)) &&
      Pages(tx, q, size, start) == all[..size] + Pages(tx, q, size, Seek(tx.keys, r.value))
  {
    hide Contribution, Items, Resume, Seek, ValidIds, Valid;
    ResumeAdvances(tx, q, start, size - 1);
  }

  lemma Rejoin(all: seq<ListEntry>, size: nat, rest: seq<ListEntry>)
    requires size <= |all| && rest == all[size..]
    ensures all[..size] + rest == all
  {
  }

  /** No page from record `start` on names anything under a key that no record from there on
      begins with. */
  lemma {:induction false} PagesAvoid(tx: Tx, q: Query, size: nat, start: nat, key: Bytes, m: nat)
    requires ValidQuery(tx, q) && StartsIn(tx, q, start) && size > 0 && !q.versions
    requires Free(NUL, key) && forall k :: start <= k < |tx.keys| ==> !HasPrefix(tx.keys[k], ScanPrefix(q.bucket, key))
    requires m < |Pages(tx, q, size, start)|
    ensures !HasPrefix(NextKey(Pages(tx, q, size, start)[m]), key)
    decreases |tx.keys| - start
  {
    hide Contribution, Resume, Seek, Valid, HasPrefix;
    var all := Items(tx, q, start, start);
    if |all| <= size {
      EntryAvoids(tx, q, start, key, m);
    } else {
      PagesStep(tx, q, size, start);
      if m < size {
        EntryAvoids(tx, q, start, key, m);
      } else {
        PagesAvoid(tx, q, size, Seek(tx.keys, Resume(tx, q, all[size - 1]).value), key, m - size);
      }
    }
  }

  lemma EntryAvoids(tx: Tx, q: Query, start: nat, key: Bytes, m: nat)
    requires ValidQuery(tx, q) && m < |Items(tx, q, start, start)|
    requires Free(NUL, key) && forall k :: start <= k < |tx.keys| ==> !HasPrefix(tx.keys[k], ScanPrefix(q.bucket, key))
    ensures !HasPrefix(NextKey(Items(tx, q, start, start)[m]), key)
  {
    hide Contribution;
    var name := NextKey(Items(tx, q, start, start)[m]);
    var i := Locate(tx, q, start, start, m);
    ContributionShape(tx, q, start, i);
    ScanMeaning(q.bucket, key, Key(tx, q, i), tx.values[i].o.seqNo);
    if HasPrefix(name, key) { PrefixTransitive(Key(tx, q, i), name, key); }
  }

  /** A shadowed entry is lost when a page ends with the key that shadows it. */
  lemma ShadowedIsLost(tx: Tx, q: Query, start: nat, a: nat, b: nat)
    requires ValidQuery(tx, q) && StartsIn(tx, q, start) && !q.versions
    requires var all := Items(tx, q, start, start); a < b < |all| && Shadows(all[a], all[b], q.delimiter)
    ensures Pages(tx, q, a + 1, start) != Items(tx, q, start, start)
  {
    hide Contribution;
    var all := Items(tx, q, start, start);
    var i := Locate(tx, q, start, start, a);
    ContributionShape(tx, q, start, i);
    ResumeAt(tx, q, start, i);
    AfterSwallow(tx, q, start, i);
    PagesStep(tx, q, a + 1, start);
    var j := Seek(tx.keys, Resume(tx, q, all[a]).value);
    LostIn(tx, q, all, a, b, j, Key(tx, q, i));
  }

  lemma LostIn(tx: Tx, q: Query, all: seq<ListEntry>, a: nat, b: nat, j: nat, key: Bytes)
    requires ValidQuery(tx, q) && StartsIn(tx, q, j) && !q.versions && a < b < |all|
    requires Free(NUL, key) && forall k :: j <= k < |tx.keys| ==> !HasPrefix(tx.keys[k], ScanPrefix(q.bucket, key))
    requires HasPrefix(NextKey(all[b]), key)
    ensures all[..a + 1] + Pages(tx, q, a + 1, j) != all
  {
    hide Contribution;
    var rest := Pages(tx, q, a + 1, j);
    if b - a - 1 < |rest| {
      PagesAvoid(tx, q, a + 1, j, key, b - a - 1);
      assert (all[..a + 1] + rest)[b] == rest[b - a - 1];
    }
  }

  /** Paging through keys yields the whole listing, in order and once, for every page size,
      if and only if no listed key that ends in the delimiter is a prefix of a later entry. */
  lemma ObjectPagesExact(tx: Tx, q: Query)
    requires ValidQuery(tx, q) && !q.versions
    ensures var start := ScanStart(tx, q);
      (forall size: nat :: size > 0 ==> Pages(tx, q, size, start) == Items(tx, q, start, start)) <==>
      !Shadowed(Items(tx, q, start, start), q.delimiter)
  {
    var start := ScanStart(tx, q);
    var all := Items(tx, q, start, start);
    if Shadowed(all, q.delimiter) {
      var a, b :| 0 <= a < b < |all| && Shadows(all[a], all[b], q.delimiter);
      ShadowedIsLost(tx, q, start, a, b);
    } else {
      forall size: nat | size > 0
        ensures Pages(tx, q, size, start) == all
      {
        ObjectPagesComplete(tx, q, size, start);
      }
    }
  }
}
