/** What a listing contains, said without reference to the order in which records are
    visited (internal/meta/store.go). */
module Entries {
  import opened Kv
  import opened Keys
  import opened Listing
  import opened Paging

  // ----- the newest version of a key

  /** `GetLatest`: the first record under the versions prefix of the key. */
  method GetLatest(tx: Tx, bucket: Bytes, key: Bytes) returns (o: Option<Object>)
    requires Valid(tx, bucket) && Free(NUL, key)
    ensures o == Latest(tx, bucket, key)
    ensures o.Some? ==> o.value.key == key
  {
    var p := ObjectPrefix(bucket, key);
    var i := Seek(tx.keys, p);
    if i >= |tx.keys| || !HasPrefix(tx.keys[i], p) {
      return None;
    }
    VersionRecord(tx, bucket, key, i);
    o := Some(tx.values[i].o);
  }

  ghost function Latest(tx: Tx, bucket: Bytes, key: Bytes): Option<Object>
    requires Valid(tx, bucket) && Free(NUL, key)
  {
    var p := ObjectPrefix(bucket, key);
    var i := Seek(tx.keys, p);
    if i < |tx.keys| && HasPrefix(tx.keys[i], p) then
      VersionRecord(tx, bucket, key, i);
      Some(tx.values[i].o)
    else None
  }

  lemma VersionRecord(tx: Tx, bucket: Bytes, key: Bytes, i: nat)
    requires Valid(tx, bucket) && Free(NUL, key) && i < |tx.keys| && HasPrefix(tx.keys[i], ObjectPrefix(bucket, key))
    ensures IsRecord(tx, bucket, i) && tx.values[i].o.key == key
  {
    var p := BucketPrefix(bucket);
    assert HasPrefix(tx.keys[i], p) by {
      assert tx.keys[i][..|p|] == ObjectPrefix(bucket, key)[..|p|] == p;
    }
    VersionsMeaning(bucket, key, tx.values[i].o.key, tx.values[i].o.seqNo);
  }

  /** Record `i` is a version of `key`. */
  ghost predicate VersionAt(tx: Tx, bucket: Bytes, key: Bytes, i: nat)
    requires Valid(tx, bucket)
  {
    i < |tx.keys| && HasPrefix(tx.keys[i], ObjectPrefix(bucket, key))
  }

  /** The newest version has the highest sequence of all versions of the key. */
  lemma LatestIsNewest(tx: Tx, bucket: Bytes, key: Bytes, i: nat)
    requires Valid(tx, bucket) && Free(NUL, key) && VersionAt(tx, bucket, key, i)
    ensures IsRecord(tx, bucket, i) && tx.values[i].o.key == key
    ensures Latest(tx, bucket, key).Some?
    ensures var n := Latest(tx, bucket, key).value;
      n.seqNo >= tx.values[i].o.seqNo && (n == tx.values[i].o <==> First(tx, 0, i, ObjectPrefix(bucket, key)))
  {
    var p := ObjectPrefix(bucket, key);
    var j := Seek(tx.keys, p);
    PrefixLe(p, tx.keys[i]);
    SeekReaches(tx.keys, p, i);
    Consecutive(tx.keys, p, j, j, i) by { PrefixFirst(tx.keys, p, j, i); }
    VersionRecord(tx, bucket, key, i);
    VersionRecord(tx, bucket, key, j);
    RecordOrder(bucket, key, tx.values[j].o.seqNo, key, tx.values[i].o.seqNo);
    RecordOrder(bucket, key, tx.values[i].o.seqNo, key, tx.values[j].o.seqNo);
    LtIrreflexive(key);
    if j < i {
      Consecutive(tx.keys, p, j, i - 1, i);
    } else {
      assert First(tx, 0, i, p) by {
        if i > 0 && HasPrefix(tx.keys[i - 1], p) {
          PrefixLe(p, tx.keys[i - 1]);
          LtAsymmetric(tx.keys[i - 1], p);
        }
      }
    }
  }

  lemma SeekReaches(keys: seq<Bytes>, p: Bytes, i: nat)
    requires Ascending(keys) && i < |keys| && Le(p, keys[i])
    ensures Seek(keys, p) <= i
  {
    SeekSplits(keys, p, i);
    if p == keys[i] { LtIrreflexive(p); } else { LtAsymmetric(p, keys[i]); }
  }

  /** The record a seek to a prefix finds has the prefix if any later one has. */
  lemma PrefixFirst(keys: seq<Bytes>, p: Bytes, j: nat, i: nat)
    requires Ascending(keys) && j == Seek(keys, p) <= i < |keys| && HasPrefix(keys[i], p)
    ensures HasPrefix(keys[j], p)
  {
    if j < i {
      LtTotal(p, keys[j]);
      if p != keys[j] { PrefixConvex(p, p, keys[j], keys[i]); }
    }
  }

  /** A key whose newest version exists and is not a delete marker. */
  ghost predicate LiveKey(tx: Tx, bucket: Bytes, key: Bytes)
    requires Valid(tx, bucket)
  {
    Free(NUL, key) && Latest(tx, bucket, key).Some? && !Latest(tx, bucket, key).value.deleteMarker
  }

  /** A live newest version is the live newest version of its key. */
  lemma LiveAtIsLiveKey(tx: Tx, bucket: Bytes, i: nat)
    requires Valid(tx, bucket) && i < |tx.keys| && HasPrefix(tx.keys[i], BucketPrefix(bucket))
    ensures IsRecord(tx, bucket, i)
    ensures var o := tx.values[i].o;
      LiveAt(tx, bucket, i) <==> LiveKey(tx, bucket, o.key) && Latest(tx, bucket, o.key) == Some(o)
  {
    var o := tx.values[i].o;
    VersionsMeaning(bucket, o.key, o.key, o.seqNo);
    LatestIsNewest(tx, bucket, o.key, i);
  }

  // ----- the listing as a set

  /** The listing of a whole prefix. */
  ghost function Full(tx: Tx, q: Query): seq<ListEntry>
    requires ValidQuery(tx, q)
  {
    Items(tx, q, ScanStart(tx, q), ScanStart(tx, q))
  }

  lemma InFull(tx: Tx, q: Query, e: ListEntry)
    requires ValidQuery(tx, q)
    ensures e in Full(tx, q) <==>
      exists i :: ScanStart(tx, q) <= i < |tx.keys| && Contribution(tx, q, ScanStart(tx, q), i) == [e]
  {
    hide Contribution, ScanStart;
    var s := ScanStart(tx, q);
    if e in Full(tx, q) {
      var n :| 0 <= n < |Full(tx, q)| && Full(tx, q)[n] == e;
      var i := Locate(tx, q, s, s, n);
    }
    if i :| s <= i < |tx.keys| && Contribution(tx, q, s, i) == [e] {
      var n := Appears(tx, q, s, s, i);
      assert Full(tx, q)[n] == [Full(tx, q)[n]][0] == e;
    }
  }

  lemma UnderIsInScan(tx: Tx, q: Query, i: nat)
    requires ValidQuery(tx, q) && i < |tx.keys| && Under(tx, q, i)
    ensures ScanStart(tx, q) <= i
    ensures HasPrefix(tx.keys[i], BucketPrefix(q.bucket))
  {
    var scan := ScanPrefix(q.bucket, q.prefix);
    PrefixLe(scan, tx.keys[i]);
    SeekReaches(tx.keys, scan, i);
    PrefixTransitive(tx.keys[i], scan, BucketPrefix(q.bucket)) by {
      assert scan[..|BucketPrefix(q.bucket)|] == BucketPrefix(q.bucket);
    }
  }

  /** Seen from the start of the scan, the first record of a group is the first in the store. */
  lemma FirstFromScan(tx: Tx, q: Query, i: nat)
    requires ValidQuery(tx, q) && ScanStart(tx, q) <= i < |tx.keys| && Under(tx, q, i)
    ensures First(tx, ScanStart(tx, q), i, Group(tx, q, i)) == First(tx, 0, i, Group(tx, q, i))
  {
    if i == ScanStart(tx, q) {
      GroupShape(tx, q, i);
      FirstAtScan(tx, ScanPrefix(q.bucket, q.prefix), i, Group(tx, q, i));
    }
  }

  /** The first record of the group of record `i`. */
  lemma {:induction false} GroupHead(tx: Tx, q: Query, i: nat) returns (h: nat)
    requires ValidQuery(tx, q) && i < |tx.keys| && Under(tx, q, i)
    ensures h <= i && Under(tx, q, h) && Group(tx, q, h) == Group(tx, q, i) && Collapsed(tx, q, h) == Collapsed(tx, q, i)
    ensures Collapsed(tx, q, i) ==>
      Collapse(q.prefix, q.delimiter, Key(tx, q, h)) == Collapse(q.prefix, q.delimiter, Key(tx, q, i))
    ensures First(tx, 0, h, Group(tx, q, h))
    decreases i
  {
    if First(tx, 0, i, Group(tx, q, i)) {
      h := i;
    } else {
      GroupStable(tx, q, i, i - 1);
      h := GroupHead(tx, q, i - 1);
    }
  }

  // ----- keys

  /** A key is listed by itself exactly when it is under the prefix, has no delimiter after
      it, and its newest version is live; the entry is that newest version. */
  lemma ObjectListed(tx: Tx, q: Query, o: Object, latest: bool)
    requires ValidQuery(tx, q) && !q.versions
    ensures Version(o, latest) in Full(tx, q) <==>
      latest && Free(NUL, o.key) && Latest(tx, q.bucket, o.key) == Some(o) && !o.deleteMarker &&
      HasPrefix(o.key, q.prefix) && Collapse(q.prefix, q.delimiter, o.key).None?
  {
    hide Items;
    var s := ScanStart(tx, q);
    InFull(tx, q, Version(o, latest));
    if i :| s <= i < |tx.keys| && Contribution(tx, q, s, i) == [Version(o, latest)] {
      ContributionShape(tx, q, s, i);
      UnderIsInScan(tx, q, i);
      FirstFromScan(tx, q, i);
      LiveAtIsLiveKey(tx, q.bucket, i);
    }
    if latest && Free(NUL, o.key) && Latest(tx, q.bucket, o.key) == Some(o) && !o.deleteMarker &&
       HasPrefix(o.key, q.prefix) && Collapse(q.prefix, q.delimiter, o.key).None? {
      var i := LatestRecord(tx, q, o);
      FirstFromScan(tx, q, i);
      assert Contribution(tx, q, s, i) == [Version(o, true)];
    }
  }

  lemma LatestRecord(tx: Tx, q: Query, o: Object) returns (i: nat)
    requires ValidQuery(tx, q) && Free(NUL, o.key) && Latest(tx, q.bucket, o.key) == Some(o) && HasPrefix(o.key, q.prefix)
    ensures ScanStart(tx, q) <= i < |tx.keys| && Under(tx, q, i) && tx.values[i].ObjectRecord? && tx.values[i].o == o
    ensures First(tx, 0, i, ObjectPrefix(q.bucket, o.key))
  {
    i := Seek(tx.keys, ObjectPrefix(q.bucket, o.key));
    VersionRecord(tx, q.bucket, o.key, i);
    ScanMeaning(q.bucket, q.prefix, o.key, o.seqNo);
    UnderIsInScan(tx, q, i);
    LatestIsNewest(tx, q.bucket, o.key, i);
  }

  /** A common prefix is listed exactly when some live key collapses to it. */
  lemma PrefixListed(tx: Tx, q: Query, cp: Bytes)
    requires ValidQuery(tx, q) && !q.versions
    ensures CommonPrefix(cp) in Full(tx, q) <==> exists key :: CollapsesTo(q, key, cp) && LiveKey(tx, q.bucket, key)
  {
    hide Items;
    var s := ScanStart(tx, q);
    InFull(tx, q, CommonPrefix(cp));
    if i :| s <= i < |tx.keys| && Contribution(tx, q, s, i) == [CommonPrefix(cp)] {
      LivePrefixHasKey(tx, q, i, cp);
    }
    if key :| CollapsesTo(q, key, cp) && LiveKey(tx, q.bucket, key) {
      var o := Latest(tx, q.bucket, key).value;
      LatestIsOfKey(tx, q.bucket, key);
      var i := LatestRecord(tx, q, o);
      LiveHere(tx, q, i, cp);
      var h := GroupHead(tx, q, i);
      UnderIsInScan(tx, q, h);
      FirstFromScan(tx, q, h);
      assert Contribution(tx, q, s, h) == [CommonPrefix(cp)];
    }
  }

  predicate CollapsesTo(q: Query, key: Bytes, cp: Bytes) {
    HasPrefix(key, q.prefix) && Collapse(q.prefix, q.delimiter, key) == Some(cp)
  }

  lemma LatestIsOfKey(tx: Tx, bucket: Bytes, key: Bytes)
    requires Valid(tx, bucket) && Free(NUL, key) && Latest(tx, bucket, key).Some?
    ensures Latest(tx, bucket, key).value.key == key
  {
    VersionRecord(tx, bucket, key, Seek(tx.keys, ObjectPrefix(bucket, key)));
  }

  lemma LiveHere(tx: Tx, q: Query, i: nat, cp: Bytes)
    requires ValidQuery(tx, q) && i < |tx.keys| && Under(tx, q, i) && CollapsesTo(q, Key(tx, q, i), cp)
    requires LiveAt(tx, q.bucket, i)
    ensures Live(tx, q.bucket, cp)
  {
    GroupShape(tx, q, i);
    assert HasPrefix(tx.keys[i], ScanPrefix(q.bucket, cp));
  }

  lemma LivePrefixHasKey(tx: Tx, q: Query, i: nat, cp: Bytes)
    requires ValidQuery(tx, q) && !q.versions && ScanStart(tx, q) <= i < |tx.keys|
    requires Contribution(tx, q, ScanStart(tx, q), i) == [CommonPrefix(cp)]
    ensures exists key :: CollapsesTo(q, key, cp) && LiveKey(tx, q.bucket, key)
  {
    ContributionShape(tx, q, ScanStart(tx, q), i);
    assert Live(tx, q.bucket, cp);
    var k :| 0 <= k < |tx.keys| && HasPrefix(tx.keys[k], ScanPrefix(q.bucket, cp)) && tx.values[k].ObjectRecord? && LiveAt(tx, q.bucket, k);
    GroupStable(tx, q, i, k);
    UnderIsInScan(tx, q, k);
    LiveAtIsLiveKey(tx, q.bucket, k);
    assert CollapsesTo(q, Key(tx, q, k), cp);
  }

  // ----- versions

  /** Record `i` is version `o`, listed by itself; `latest` says whether it is the newest of
      its key. */
  ghost predicate IsVersion(tx: Tx, q: Query, i: nat, o: Object, latest: bool)
    requires ValidQuery(tx, q)
  {
    && i < |tx.keys| && Under(tx, q, i) && tx.values[i] == ObjectRecord(o)
    && Collapse(q.prefix, q.delimiter, Key(tx, q, i)).None?
    && latest == (Latest(tx, q.bucket, Key(tx, q, i)) == Some(o))
  }

  /** A version is listed by itself exactly when its key is under the prefix and has no
      delimiter after it; it is flagged exactly when it is the newest of its key. */
  lemma VersionListed(tx: Tx, q: Query, o: Object, latest: bool)
    requires ValidQuery(tx, q) && q.versions
    ensures Version(o, latest) in Full(tx, q) <==> exists i :: IsVersion(tx, q, i, o, latest)
  {
    hide Items;
    var s := ScanStart(tx, q);
    InFull(tx, q, Version(o, latest));
    if i :| s <= i < |tx.keys| && Contribution(tx, q, s, i) == [Version(o, latest)] {
      ContributionShape(tx, q, s, i);
      NewestFlag(tx, q, i);
      assert IsVersion(tx, q, i, o, latest);
    }
    if i :| IsVersion(tx, q, i, o, latest) {
      UnderIsInScan(tx, q, i);
      NewestFlag(tx, q, i);
      assert Contribution(tx, q, s, i) == [Version(o, latest)];
    }
  }

  lemma NewestFlag(tx: Tx, q: Query, i: nat)
    requires ValidQuery(tx, q) && i < |tx.keys| && Under(tx, q, i) && !Collapsed(tx, q, i) && ScanStart(tx, q) <= i
    ensures First(tx, ScanStart(tx, q), i, ObjectPrefix(q.bucket, Key(tx, q, i))) <==>
            Latest(tx, q.bucket, Key(tx, q, i)) == Some(tx.values[i].o)
  {
    FirstFromScan(tx, q, i);
    UnderIsInScan(tx, q, i);
    var o := tx.values[i].o;
    VersionsMeaning(q.bucket, o.key, o.key, o.seqNo);
    LatestIsNewest(tx, q.bucket, o.key, i);
  }

  // ----- order

  lemma KeyOrder(tx: Tx, q: Query, i: nat, k: nat)
    requires ValidQuery(tx, q) && i < k < |tx.keys| && Under(tx, q, i) && Under(tx, q, k)
    ensures Le(Key(tx, q, i), Key(tx, q, k))
    ensures Key(tx, q, i) == Key(tx, q, k) ==> tx.values[i].o.seqNo > tx.values[k].o.seqNo
  {
    var a, b := tx.values[i].o, tx.values[k].o;
    RecordOrder(q.bucket, a.key, a.seqNo, b.key, b.seqNo);
    LtIrreflexive(a.key);
  }

  /** A text between a prefix and a text that has the prefix has it too. */
  lemma PrefixBetween(p: Bytes, x: Bytes, y: Bytes)
    requires Le(p, x) && Le(x, y) && HasPrefix(y, p)
    ensures HasPrefix(x, p)
  {
    if p != x && x != y { PrefixConvex(p, p, x, y); }
  }

  /** Two entries of a listing of keys, in the order of their records. */
  lemma NamesAscend(tx: Tx, q: Query, start: nat, i: nat, k: nat)
    requires ValidQuery(tx, q) && !q.versions && start <= i < k < |tx.keys|
    requires Contribution(tx, q, start, i) != [] && Contribution(tx, q, start, k) != []
    ensures Lt(NextKey(Contribution(tx, q, start, i)[0]), NextKey(Contribution(tx, q, start, k)[0]))
  {
    ContributionShape(tx, q, start, i);
    ContributionShape(tx, q, start, k);
    hide Contribution, Group, Collapse;
    NamesOfGroupsAscend(tx, q, start, i, k, NextKey(Contribution(tx, q, start, i)[0]), NextKey(Contribution(tx, q, start, k)[0]));
  }

  lemma NamesOfGroupsAscend(tx: Tx, q: Query, start: nat, i: nat, k: nat, a: Bytes, b: Bytes)
    requires ValidQuery(tx, q) && start <= i < k < |tx.keys| && Under(tx, q, i) && Under(tx, q, k)
    requires HasPrefix(Key(tx, q, i), a) && HasPrefix(Key(tx, q, k), b)
    requires if Collapsed(tx, q, k) then Collapse(q.prefix, q.delimiter, Key(tx, q, k)) == Some(b) else Key(tx, q, k) == b
    requires First(tx, start, k, Group(tx, q, k))
    ensures Lt(a, b)
  {
    hide Group, Collapse, Lt, HasPrefix;
    KeyOrder(tx, q, i, k);
    if !Lt(a, b) {
      // then record i belongs to the group of record k, which is not its first
      NotAscending(a, Key(tx, q, i), b, Key(tx, q, k));
      SameGroup(tx, q, i, k, b);
      GroupShape(tx, q, i);
      GroupShape(tx, q, k);
      Consecutive(tx.keys, Group(tx, q, k), i, k - 1, k);
    }
  }

  lemma NotAscending(a: Bytes, x: Bytes, b: Bytes, y: Bytes)
    requires HasPrefix(x, a) && HasPrefix(y, b) && Le(x, y) && !Lt(a, b)
    ensures HasPrefix(x, b)
  {
    PrefixLe(a, x);
    LtTotal(a, b);
    if b != a && a != x { LtTransitive(b, a, x); }
    PrefixBetween(b, x, y);
  }

  lemma SameGroup(tx: Tx, q: Query, i: nat, k: nat, b: Bytes)
    requires ValidQuery(tx, q) && i < k < |tx.keys| && Under(tx, q, i) && Under(tx, q, k)
    requires HasPrefix(Key(tx, q, i), b) && Le(Key(tx, q, i), Key(tx, q, k))
    requires if Collapsed(tx, q, k) then Collapse(q.prefix, q.delimiter, Key(tx, q, k)) == Some(b) else Key(tx, q, k) == b
    ensures Group(tx, q, i) == Group(tx, q, k)
  {
    var x, y := Key(tx, q, i), Key(tx, q, k);
    if Collapsed(tx, q, k) {
      CollapseSame(q.prefix, q.delimiter, y, x);
    } else {
      PrefixLe(b, x);
      if x != y { LtAsymmetric(x, y); }
    }
  }

  /** The entries of a listing of keys strictly ascend, common prefixes among the keys, so no
      key and no prefix is listed twice. */
  lemma ObjectListingAscends(tx: Tx, q: Query, a: nat, b: nat)
    requires ValidQuery(tx, q) && !q.versions && a < b < |Full(tx, q)|
    ensures Lt(NextKey(Full(tx, q)[a]), NextKey(Full(tx, q)[b]))
  {
    hide Contribution, Items;
    var s := ScanStart(tx, q);
    var i, k := LocateTwo(tx, q, s, a, b);
    NamesAscend(tx, q, s, i, k);
  }

  /** Listed versions of one key descend by sequence. */
  lemma VersionListingNewestFirst(tx: Tx, q: Query, a: nat, b: nat)
    requires ValidQuery(tx, q) && q.versions && a < b < |Full(tx, q)|
    requires var es := Full(tx, q); es[a].Version? && es[b].Version?
    ensures var es := Full(tx, q);
      Le(es[a].o.key, es[b].o.key) && (es[a].o.key == es[b].o.key ==> es[a].o.seqNo > es[b].o.seqNo)
  {
    var s := ScanStart(tx, q);
    var i, k := LocateTwo(tx, q, s, a, b);
    ContributionShape(tx, q, s, i);
    ContributionShape(tx, q, s, k);
    hide Contribution, Items;
    KeyOrder(tx, q, i, k);
  }

  lemma LocateTwo(tx: Tx, q: Query, start: nat, a: nat, b: nat) returns (i: nat, k: nat)
    requires ValidQuery(tx, q) && a < b < |Items(tx, q, start, start)|
    ensures start <= i < k < |tx.keys|
    ensures Contribution(tx, q, start, i) == [Items(tx, q, start, start)[a]]
    ensures Contribution(tx, q, start, k) == [Items(tx, q, start, start)[b]]
  {
    hide Contribution, Items;
    i := Locate(tx, q, start, start, a);
    k := Locate(tx, q, start, i + 1, b - a - 1);
    assert Items(tx, q, start, start)[b] == Items(tx, q, start, start)[a + 1..][b - a - 1];
  }

  // ----- the latest flag on a page

  /** Record `i` starts in the middle of the versions of its key. */
  ghost predicate MidKey(tx: Tx, q: Query, i: nat)
    requires ValidQuery(tx, q)
  {
    0 < i < |tx.keys| && Under(tx, q, i) && !Collapsed(tx, q, i) && HasPrefix(tx.keys[i - 1], Group(tx, q, i))
  }

  ghost predicate FlagsRight(tx: Tx, q: Query, es: seq<ListEntry>)
    requires ValidQuery(tx, q)
  {
    forall n :: 0 <= n < |es| && es[n].Version? && Free(NUL, es[n].o.key) ==> FlagRight(tx, q, es[n])
  }

  ghost predicate FlagRight(tx: Tx, q: Query, e: ListEntry)
    requires ValidQuery(tx, q) && e.Version? && Free(NUL, e.o.key)
  {
    e.isLatest <==> Latest(tx, q.bucket, e.o.key) == Some(e.o)
  }

  /** The latest flags of a page of versions are right if and only if the page does not start
      in the middle of a key. */
  lemma FlagsRightUnlessMidKey(tx: Tx, q: Query, start: nat)
    requires ValidQuery(tx, q) && q.versions && StartsIn(tx, q, start)
    ensures FlagsRight(tx, q, Items(tx, q, start, start)) <==> !MidKey(tx, q, start)
  {
    hide Items, Contribution;
    var es := Items(tx, q, start, start);
    if MidKey(tx, q, start) {
      var n := WrongFlag(tx, q, start);
      assert !FlagRight(tx, q, es[n]);
    } else {
      forall n | 0 <= n < |es| && es[n].Version? && Free(NUL, es[n].o.key)
        ensures FlagRight(tx, q, es[n])
      {
        var i := Locate(tx, q, start, start, n);
        RightFlag(tx, q, start, i, es[n]);
      }
    }
  }

  lemma WrongFlag(tx: Tx, q: Query, start: nat) returns (n: nat)
    requires ValidQuery(tx, q) && q.versions && StartsIn(tx, q, start) && MidKey(tx, q, start)
    ensures var es := Items(tx, q, start, start);
      n < |es| && es[n].Version? && Free(NUL, es[n].o.key) && !FlagRight(tx, q, es[n])
  {
    hide Items;
    n := Appears(tx, q, start, start, start);
    var o := tx.values[start].o;
    assert [Items(tx, q, start, start)[n]] == [Version(o, true)];
    assert Key(tx, q, start) == o.key;
    VersionsMeaning(q.bucket, o.key, o.key, o.seqNo);
    LatestIsNewest(tx, q.bucket, o.key, start);
  }

  lemma RightFlag(tx: Tx, q: Query, start: nat, i: nat, e: ListEntry)
    requires ValidQuery(tx, q) && q.versions && StartsIn(tx, q, start) && !MidKey(tx, q, start)
    requires start <= i < |tx.keys| && Contribution(tx, q, start, i) == [e] && e.Version? && Free(NUL, e.o.key)
    ensures FlagRight(tx, q, e)
  {
    ContributionShape(tx, q, start, i);
    var o := tx.values[i].o;
    assert Key(tx, q, i) == o.key;
    VersionsMeaning(q.bucket, o.key, o.key, o.seqNo);
    LatestIsNewest(tx, q.bucket, o.key, i);
  }
}
