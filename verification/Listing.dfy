/** Listing a bucket by seeking over the ordered index (internal/meta/store.go). */
module Listing {
  import opened Kv
  import opened Keys

  const NULL_ID: Bytes := [110, 117, 108, 108]  // "null"

  /** The fields of an object version that a listing looks at. */
  datatype Object = Object(key: Bytes, versionID: Bytes, seqNo: nat, deleteMarker: bool)

  datatype Value = ObjectRecord(o: Object) | OtherRecord

  /** One read transaction: every key of the store in order, the records of those keys, and
      the null-version pointers of the bucket by object key. */
  datatype Tx = Tx(keys: seq<Bytes>, values: seq<Value>, nulls: map<Bytes, Bytes>)

  ghost predicate IsRecord(tx: Tx, bucket: Bytes, i: nat)
    requires i < |tx.keys| == |tx.values|
  {
    && tx.values[i].ObjectRecord?
    && var o := tx.values[i].o;
       o.key != [] && Free(NUL, o.key) && o.seqNo <= MAX_SEQ && tx.keys[i] == ObjectKey(bucket, o.key, o.seqNo)
  }

  /** The store is in key order, and what lies under the bucket's prefix are version records
      of non-empty keys without the separator, each under its own record key. */
  ghost predicate Valid(tx: Tx, bucket: Bytes) {
    && |tx.keys| == |tx.values|
    && Ascending(tx.keys)
    && Free(SLASH, bucket)
    && forall i :: 0 <= i < |tx.keys| && HasPrefix(tx.keys[i], BucketPrefix(bucket)) ==> IsRecord(tx, bucket, i)
  }

  datatype ListOptions = ListOptions(prefix: Bytes, delimiter: Bytes, startAfter: Bytes,
                                     keyMarker: Bytes, versionMarker: Bytes, maxKeys: int)

  datatype ListEntry = Version(o: Object, isLatest: bool) | CommonPrefix(prefix: Bytes)

  datatype ListResult = ListResult(entries: seq<ListEntry>, isTruncated: bool, nextKey: Bytes, nextVersion: Bytes)

  // ----- where a page starts

  function HasSuffix(s: Bytes, t: Bytes): bool {
    |t| <= |s| && s[|s| - |t|..] == t
  }

  function AfterKey(bucket: Bytes, marker: Bytes, delimiter: Bytes): Option<Bytes> {
    if delimiter != [] && HasSuffix(marker, delimiter) then Successor(ScanPrefix(bucket, marker))
    else Successor(ObjectPrefix(bucket, marker))
  }

  function SeqFromVersionID(vid: Bytes): Option<nat> {
    if |vid| != 32 then None
    else
      var v := ParseHex(vid[..16]);
      if v.Some? && v.value <= MAX_SEQ then v else None
  }

  /** The key the iterator is placed at; `None` ends the listing at once. */
  function Start(tx: Tx, bucket: Bytes, opt: ListOptions, versions: bool): Option<Bytes> {
    var scan := ScanPrefix(bucket, opt.prefix);
    if !versions then
      if opt.startAfter != [] && Le(opt.prefix, opt.startAfter) then AfterKey(bucket, opt.startAfter, opt.delimiter)
      else Some(scan)
    else if opt.keyMarker != [] && Le(opt.prefix, opt.keyMarker) then
      var seqNo := SeqFromVersionID(opt.versionMarker);
      if opt.versionMarker == [] then AfterKey(bucket, opt.keyMarker, opt.delimiter)
      else if seqNo.Some? then Some(ObjectKey(bucket, opt.keyMarker, seqNo.value) + [NUL])
      else if opt.versionMarker == NULL_ID then
        if opt.keyMarker in tx.nulls then Some(ObjectPrefix(bucket, opt.keyMarker) + tx.nulls[opt.keyMarker] + [NUL])
        else Successor(ObjectPrefix(bucket, opt.keyMarker))
      else Some(scan)
    else Some(scan)
  }

  // ----- the listing, record by record

  predicate Occurs(s: Bytes, sub: Bytes, j: nat) {
    j + |sub| <= |s| && s[j..j + |sub|] == sub
  }

  /** `bytes.Index` */
  function Index(s: Bytes, sub: Bytes): (i: Option<nat>)
    ensures i.Some? ==> Occurs(s, sub, i.value)
    ensures i.Some? ==> forall j :: 0 <= j < i.value ==> !Occurs(s, sub, j)
    ensures i.None? ==> forall j :: 0 <= j <= |s| ==> !Occurs(s, sub, j)
  {
    IndexFrom(s, sub, 0)
  }

  function IndexFrom(s: Bytes, sub: Bytes, from: nat): (i: Option<nat>)
    requires from <= |s|
    ensures i.Some? ==> from <= i.value && Occurs(s, sub, i.value)
    ensures i.Some? ==> forall j :: from <= j < i.value ==> !Occurs(s, sub, j)
    ensures i.None? ==> forall j :: from <= j <= |s| ==> !Occurs(s, sub, j)
    decreases |s| - from
  {
    if Occurs(s, sub, from) then Some(from)
    else if from == |s| then None
    else IndexFrom(s, sub, from + 1)
  }

  /** The common prefix a key collapses to: up to the first delimiter after the prefix. */
  function Collapse(prefix: Bytes, delimiter: Bytes, key: Bytes): Option<Bytes>
    requires HasPrefix(key, prefix)
  {
    if delimiter == [] then None
    else
      var i := Index(key[|prefix|..], delimiter);
      if i.None? then None else Some(prefix + key[|prefix|..][..i.value + |delimiter|])
  }

  /** What is being listed. */
  datatype Query = Query(bucket: Bytes, prefix: Bytes, delimiter: Bytes, versions: bool)

  ghost predicate ValidQuery(tx: Tx, q: Query) {
    Valid(tx, q.bucket) && Free(NUL, q.prefix)
  }

  ghost predicate Under(tx: Tx, q: Query, i: nat)
    requires i < |tx.keys|
  {
    HasPrefix(tx.keys[i], ScanPrefix(q.bucket, q.prefix))
  }

  ghost function Key(tx: Tx, q: Query, i: nat): (k: Bytes)
    requires ValidQuery(tx, q) && i < |tx.keys| && Under(tx, q, i)
    ensures tx.values[i].ObjectRecord? && k == tx.values[i].o.key
    ensures IsRecord(tx, q.bucket, i) && HasPrefix(k, q.prefix)
  {
    UnderIsRecord(tx, q, i);
    tx.values[i].o.key
  }

  lemma UnderIsRecord(tx: Tx, q: Query, i: nat)
    requires ValidQuery(tx, q) && i < |tx.keys| && Under(tx, q, i)
    ensures IsRecord(tx, q.bucket, i) && HasPrefix(tx.values[i].o.key, q.prefix)
  {
    var p := BucketPrefix(q.bucket);
    assert HasPrefix(tx.keys[i], p) by {
      assert tx.keys[i][..|p|] == ScanPrefix(q.bucket, q.prefix)[..|p|] == p;
    }
    var o := tx.values[i].o;
    ScanMeaning(q.bucket, q.prefix, o.key, o.seqNo);
  }

  /** The first record at or after `start` under `p`. */
  ghost predicate First(tx: Tx, start: nat, i: nat, p: Bytes)
    requires start <= i < |tx.keys|
  {
    i == start || !HasPrefix(tx.keys[i - 1], p)
  }

  /** Record `i` is the newest version of its key and not a delete marker. */
  ghost predicate LiveAt(tx: Tx, bucket: Bytes, i: nat)
    requires i < |tx.keys| == |tx.values| && tx.values[i].ObjectRecord?
  {
    First(tx, 0, i, ObjectPrefix(bucket, tx.values[i].o.key)) && !tx.values[i].o.deleteMarker
  }

  /** Some key under `prefix` has a live newest version. */
  ghost predicate Live(tx: Tx, bucket: Bytes, prefix: Bytes)
    requires Valid(tx, bucket)
  {
    exists i :: 0 <= i < |tx.keys| && HasPrefix(tx.keys[i], ScanPrefix(bucket, prefix)) && tx.values[i].ObjectRecord? && LiveAt(tx, bucket, i)
  }

  /** The entry that record `i` adds to a listing that starts at record `start`. */
  ghost function Contribution(tx: Tx, q: Query, start: nat, i: nat): (es: seq<ListEntry>)
    requires ValidQuery(tx, q) && start <= i < |tx.keys|
    ensures |es| <= 1
  {
    if !Under(tx, q, i) then []
    else
      var key := Key(tx, q, i);
      var o := tx.values[i].o;
      var cp := Collapse(q.prefix, q.delimiter, key);
      var first := First(tx, start, i, ObjectPrefix(q.bucket, key));
      if cp.Some? then
        if First(tx, start, i, ScanPrefix(q.bucket, cp.value)) && (q.versions || Live(tx, q.bucket, cp.value))
        then [CommonPrefix(cp.value)] else []
      else if q.versions then [Version(o, first)]
      else if first && !o.deleteMarker then [Version(o, true)] else []
  }

  /** The listing from record `i` on. */
  ghost function Items(tx: Tx, q: Query, start: nat, i: nat): seq<ListEntry>
    requires ValidQuery(tx, q) && start <= i
    decreases |tx.keys| - i
  {
    if i >= |tx.keys| then [] else Contribution(tx, q, start, i) + Items(tx, q, start, i + 1)
  }

  // ----- facts about prefixes in the index

  lemma SuccessorSome(p: Bytes)
    requires p != [] && p[0] != 0xff
    ensures Successor(p).Some?
  {
    if p[|p| - 1] == 0xff { SuccessorSome(p[..|p| - 1]); }
  }

  lemma {:induction false} PrefixConvex(p: Bytes, x: Bytes, y: Bytes, z: Bytes)
    requires HasPrefix(x, p) && HasPrefix(z, p) && Lt(x, y) && Lt(y, z)
    ensures HasPrefix(y, p)
  {
    if p != [] {
      assert x[1..][..|p| - 1] == p[1..] && z[1..][..|p| - 1] == p[1..];
      PrefixConvex(p[1..], x[1..], y[1..], z[1..]);
      assert y[..|p|] == [y[0]] + y[1..][..|p| - 1];
      assert p == [p[0]] + p[1..];
    }
  }

  /** The records under a prefix are consecutive. */
  lemma Consecutive(keys: seq<Bytes>, p: Bytes, i: nat, j: nat, k: nat)
    requires Ascending(keys) && i <= j <= k < |keys| && HasPrefix(keys[i], p) && HasPrefix(keys[k], p)
    ensures HasPrefix(keys[j], p)
  {
    if i < j < k { PrefixConvex(p, keys[i], keys[j], keys[k]); }
  }

  lemma PrefixTransitive(k: Bytes, p: Bytes, r: Bytes)
    requires HasPrefix(k, p) && HasPrefix(p, r)
    ensures HasPrefix(k, r)
  {
    assert k[..|r|] == k[..|p|][..|r|];
  }

  lemma TwoPrefixes(k: Bytes, p: Bytes, r: Bytes)
    requires HasPrefix(k, p) && HasPrefix(k, r) && |p| <= |r|
    ensures HasPrefix(r, p)
  {
    assert r[..|p|] == k[..|r|][..|p|];
  }

  lemma ScanPrefixExtends(bucket: Bytes, prefix: Bytes, longer: Bytes)
    requires HasPrefix(longer, prefix)
    ensures HasPrefix(ScanPrefix(bucket, longer), ScanPrefix(bucket, prefix))
  {
    var p := BucketPrefix(bucket);
    assert (p + longer)[..|p + prefix|] == p + longer[..|prefix|];
  }

  lemma CollapseShape(prefix: Bytes, delimiter: Bytes, key: Bytes)
    requires HasPrefix(key, prefix) && Collapse(prefix, delimiter, key).Some?
    ensures var cp := Collapse(prefix, delimiter, key).value;
      HasPrefix(key, cp) && HasPrefix(cp, prefix) && HasSuffix(cp, delimiter) && delimiter != [] && |cp| >= |prefix| + |delimiter|
  {
    var rest := key[|prefix|..];
    var n := Index(rest, delimiter).value + |delimiter|;
    var cp := prefix + rest[..n];
    assert key == prefix + rest;
    assert key[..|prefix| + n] == prefix + rest[..n];
    assert cp[..|prefix|] == prefix;
    assert cp[|cp| - |delimiter|..] == rest[n - |delimiter|..n];
  }

  /** Two texts that agree up to the end of the first occurrence in one of them have the
      same first occurrence. */
  lemma IndexSame(a: Bytes, b: Bytes, sub: Bytes)
    requires Index(a, sub).Some?
    requires var m := Index(a, sub).value + |sub|; m <= |a| && m <= |b| && a[..m] == b[..m]
    ensures Index(b, sub) == Index(a, sub)
  {
    var n := Index(a, sub).value;
    OccursIn(a, b, n + |sub|, sub, n);
    var l := Index(b, sub);
    if l.Some? { OccursIn(b, a, n + |sub|, sub, l.value); }
  }

  lemma OccursIn(a: Bytes, b: Bytes, m: nat, sub: Bytes, l: nat)
    requires m <= |a| && m <= |b| && a[..m] == b[..m]
    requires Occurs(a, sub, l)
    ensures l + |sub| <= m ==> Occurs(b, sub, l)
  {
    if l + |sub| <= m {
      assert a[l..l + |sub|] == a[..m][l..l + |sub|] == b[..m][l..l + |sub|] == b[l..l + |sub|];
    }
  }

  /** A key that has the common prefix of another key collapses to the same prefix. */
  lemma CollapseSame(prefix: Bytes, delimiter: Bytes, key: Bytes, other: Bytes)
    requires HasPrefix(key, prefix) && Collapse(prefix, delimiter, key).Some?
    requires HasPrefix(other, Collapse(prefix, delimiter, key).value)
    ensures HasPrefix(other, prefix) && Collapse(prefix, delimiter, other) == Collapse(prefix, delimiter, key)
  {
    var cp := Collapse(prefix, delimiter, key).value;
    CollapseShape(prefix, delimiter, key);
    PrefixTransitive(other, cp, prefix);
    var a, b := key[|prefix|..], other[|prefix|..];
    var m := Index(a, delimiter).value + |delimiter|;
    assert a[..m] == cp[|prefix|..];
    assert b[..m] == other[..|cp|][|prefix|..];
    IndexSame(a, b, delimiter);
  }

  // ----- groups: the records a seek steps over at once

  /** The prefix shared by the records that are listed together with record `i`. */
  ghost function Group(tx: Tx, q: Query, i: nat): Bytes
    requires ValidQuery(tx, q) && i < |tx.keys| && Under(tx, q, i)
  {
    var key := Key(tx, q, i);
    var cp := Collapse(q.prefix, q.delimiter, key);
    if cp.Some? then ScanPrefix(q.bucket, cp.value) else ObjectPrefix(q.bucket, key)
  }

  ghost predicate Collapsed(tx: Tx, q: Query, i: nat)
    requires ValidQuery(tx, q) && i < |tx.keys| && Under(tx, q, i)
  {
    Collapse(q.prefix, q.delimiter, Key(tx, q, i)).Some?
  }

  lemma GroupShape(tx: Tx, q: Query, i: nat)
    requires ValidQuery(tx, q) && i < |tx.keys| && Under(tx, q, i)
    ensures HasPrefix(tx.keys[i], Group(tx, q, i))
    ensures HasPrefix(Group(tx, q, i), ScanPrefix(q.bucket, q.prefix))
    ensures Successor(Group(tx, q, i)).Some?
  {
    var key, o := Key(tx, q, i), tx.values[i].o;
    SuccessorSome(Group(tx, q, i));
    if Collapsed(tx, q, i) {
      var cp := Collapse(q.prefix, q.delimiter, key).value;
      CollapseShape(q.prefix, q.delimiter, key);
      KeyPrefixFree(key, cp);
      ScanMeaning(q.bucket, cp, key, o.seqNo);
      ScanPrefixExtends(q.bucket, q.prefix, cp);
    } else {
      VersionsMeaning(q.bucket, key, key, o.seqNo);
      ScanPrefixExtends(q.bucket, q.prefix, key);
      PrefixTransitive(ObjectPrefix(q.bucket, key), ScanPrefix(q.bucket, key), ScanPrefix(q.bucket, q.prefix)) by {
        assert ObjectPrefix(q.bucket, key)[..|ScanPrefix(q.bucket, key)|] == ScanPrefix(q.bucket, key);
      }
    }
  }

  lemma KeyPrefixFree(key: Bytes, p: Bytes)
    requires Free(NUL, key) && HasPrefix(key, p)
    ensures Free(NUL, p)
  {
    assert forall i :: 0 <= i < |p| ==> p[i] == key[..|p|][i] == key[i];
  }

  /** Every record under the prefix of a group belongs to that group. */
  lemma GroupStable(tx: Tx, q: Query, i: nat, k: nat)
    requires ValidQuery(tx, q) && i < |tx.keys| && k < |tx.keys|
    requires Under(tx, q, i) && HasPrefix(tx.keys[k], Group(tx, q, i))
    ensures Under(tx, q, k) && Group(tx, q, k) == Group(tx, q, i)
    ensures Collapsed(tx, q, k) == Collapsed(tx, q, i)
    ensures Collapsed(tx, q, i) ==>
      Collapse(q.prefix, q.delimiter, Key(tx, q, k)) == Collapse(q.prefix, q.delimiter, Key(tx, q, i))
    ensures !Collapsed(tx, q, i) ==> Key(tx, q, k) == Key(tx, q, i)
  {
    GroupShape(tx, q, i);
    PrefixTransitive(tx.keys[k], Group(tx, q, i), ScanPrefix(q.bucket, q.prefix));
    var key, other := Key(tx, q, i), Key(tx, q, k);
    var s := tx.values[k].o.seqNo;
    if Collapsed(tx, q, i) {
      var cp := Collapse(q.prefix, q.delimiter, key).value;
      CollapseShape(q.prefix, q.delimiter, key);
      KeyPrefixFree(key, cp);
      ScanMeaning(q.bucket, cp, other, s);
      CollapseSame(q.prefix, q.delimiter, key, other);
    } else {
      VersionsMeaning(q.bucket, key, other, s);
    }
  }

  /** Record `i` starts its group, as far as a listing from `start` can see. */
  ghost predicate Boundary(tx: Tx, q: Query, start: nat, i: nat)
    requires ValidQuery(tx, q) && start <= i
  {
    i < |tx.keys| && Under(tx, q, i) ==> First(tx, start, i, Group(tx, q, i))
  }

  /** Seeking past a group lands on the start of the next one. */
  lemma NextGroup(tx: Tx, q: Query, start: nat, i: nat)
    requires ValidQuery(tx, q) && start <= i < |tx.keys| && Under(tx, q, i)
    ensures Successor(Group(tx, q, i)).Some?
    ensures var j := Seek(tx.keys, Successor(Group(tx, q, i)).value);
      i < j <= |tx.keys| && Boundary(tx, q, start, j) &&
      (forall k :: i <= k < j ==> HasPrefix(tx.keys[k], Group(tx, q, i)))
  {
    var g := Group(tx, q, i);
    GroupShape(tx, q, i);
    SeekSkipsPrefix(tx.keys, g, i);
    var j := Seek(tx.keys, Successor(g).value);
    BoundaryAfter(tx, q, start, i, j);
  }

  lemma BoundaryAfter(tx: Tx, q: Query, start: nat, i: nat, j: nat)
    requires ValidQuery(tx, q) && start <= i < j <= |tx.keys| && Under(tx, q, i)
    requires HasPrefix(tx.keys[j - 1], Group(tx, q, i))
    requires j < |tx.keys| ==> !HasPrefix(tx.keys[j], Group(tx, q, i))
    ensures Boundary(tx, q, start, j)
  {
    if j < |tx.keys| && Under(tx, q, j) { NewGroup(tx, q, i, j); }
  }

  /** The first record outside a group starts a new one. */
  lemma NewGroup(tx: Tx, q: Query, i: nat, j: nat)
    requires ValidQuery(tx, q) && i < j < |tx.keys| && Under(tx, q, i) && Under(tx, q, j)
    requires HasPrefix(tx.keys[j - 1], Group(tx, q, i)) && !HasPrefix(tx.keys[j], Group(tx, q, i))
    ensures !HasPrefix(tx.keys[j - 1], Group(tx, q, j))
  {
    if HasPrefix(tx.keys[j - 1], Group(tx, q, j)) {
      GroupStable(tx, q, i, j - 1);
      GroupStable(tx, q, j, j - 1);
      GroupShape(tx, q, j);
    }
  }

  /** Within a group only the first record adds an entry, unless versions are listed one by
      one. */
  lemma GroupContributesOnce(tx: Tx, q: Query, start: nat, i: nat, k: nat)
    requires ValidQuery(tx, q) && start <= i < k < |tx.keys| && Under(tx, q, i)
    requires HasPrefix(tx.keys[k - 1], Group(tx, q, i)) && HasPrefix(tx.keys[k], Group(tx, q, i))
    requires q.versions ==> Collapsed(tx, q, i)
    ensures Contribution(tx, q, start, k) == []
  {
    GroupStable(tx, q, i, k);
    assert !First(tx, start, k, Group(tx, q, k));
  }

  lemma {:induction false} ItemsSkip(tx: Tx, q: Query, start: nat, i: nat, j: nat)
    requires ValidQuery(tx, q) && start <= i <= j <= |tx.keys|
    requires forall k :: i <= k < j ==> Contribution(tx, q, start, k) == []
    ensures Items(tx, q, start, i) == Items(tx, q, start, j)
    decreases j - i
  {
    if i < j { ItemsSkip(tx, q, start, i + 1, j); }
  }

  /** A seek past a whole group loses no entry. */
  lemma SkipGroup(tx: Tx, q: Query, start: nat, i: nat)
    requires ValidQuery(tx, q) && start <= i < |tx.keys| && Under(tx, q, i)
    requires q.versions ==> Collapsed(tx, q, i)
    ensures Successor(Group(tx, q, i)).Some?
    ensures var j := Seek(tx.keys, Successor(Group(tx, q, i)).value);
      i < j <= |tx.keys| && Boundary(tx, q, start, j) &&
      Items(tx, q, start, i) == Contribution(tx, q, start, i) + Items(tx, q, start, j)
  {
    NextGroup(tx, q, start, i);
    var j := Seek(tx.keys, Successor(Group(tx, q, i)).value);
    forall k | i + 1 <= k < j
      ensures Contribution(tx, q, start, k) == []
    {
      GroupContributesOnce(tx, q, start, i, k);
    }
    ItemsSkip(tx, q, start, i + 1, j);
  }

  /** The scan is over at the first record outside it. */
  lemma EndOfScan(tx: Tx, q: Query, start: nat, i: nat)
    requires ValidQuery(tx, q) && Seek(tx.keys, ScanPrefix(q.bucket, q.prefix)) <= start <= i <= |tx.keys|
    requires i < |tx.keys| ==> !Under(tx, q, i)
    ensures Items(tx, q, start, i) == []
  {
    NoneAfter(tx, q, i);
    ItemsSkip(tx, q, start, i, |tx.keys|);
  }

  // ----- hasLiveKey

  lemma FirstAtScan(tx: Tx, scan: Bytes, i: nat, p: Bytes)
    requires i == Seek(tx.keys, scan) < |tx.keys| && HasPrefix(p, scan)
    ensures First(tx, 0, i, p)
  {
    if i > 0 && HasPrefix(tx.keys[i - 1], p) {
      PrefixTransitive(tx.keys[i - 1], p, scan);
      PrefixLe(scan, tx.keys[i - 1]);
      LtAsymmetric(tx.keys[i - 1], scan);
    }
  }

  /** No record before `n` makes the prefix live. */
  ghost predicate NoLiveBefore(tx: Tx, bucket: Bytes, prefix: Bytes, n: nat)
    requires n <= |tx.keys| == |tx.values|
  {
    forall k :: 0 <= k < n && HasPrefix(tx.keys[k], ScanPrefix(bucket, prefix)) && tx.values[k].ObjectRecord? ==>
      !LiveAt(tx, bucket, k)
  }

  lemma NoLiveAtStart(tx: Tx, q: Query, it: nat)
    requires ValidQuery(tx, q) && it == Seek(tx.keys, ScanPrefix(q.bucket, q.prefix))
    ensures NoLiveBefore(tx, q.bucket, q.prefix, it) && Boundary(tx, q, 0, it)
  {
    var scan := ScanPrefix(q.bucket, q.prefix);
    forall k | 0 <= k < it
      ensures !HasPrefix(tx.keys[k], scan)
    {
      if HasPrefix(tx.keys[k], scan) {
        PrefixLe(scan, tx.keys[k]);
        LtAsymmetric(tx.keys[k], scan);
      }
    }
    if it < |tx.keys| && Under(tx, q, it) {
      GroupShape(tx, q, it);
      FirstAtScan(tx, scan, it, Group(tx, q, it));
    }
  }

  /** Past the versions of a key whose newest is a delete marker. */
  lemma NoLiveStep(tx: Tx, q: Query, i: nat, j: nat)
    requires ValidQuery(tx, q) && i < j <= |tx.keys| && Under(tx, q, i) && !Collapsed(tx, q, i)
    requires NoLiveBefore(tx, q.bucket, q.prefix, i) && tx.values[i].o.deleteMarker
    requires forall k :: i <= k < j ==> HasPrefix(tx.keys[k], Group(tx, q, i))
    ensures NoLiveBefore(tx, q.bucket, q.prefix, j)
  {
    forall k | i < k < j
      ensures tx.values[k].ObjectRecord? && !LiveAt(tx, q.bucket, k)
    {
      GroupStable(tx, q, i, k);
      assert HasPrefix(tx.keys[k - 1], Group(tx, q, i));
    }
  }

  lemma NoLiveAtEnd(tx: Tx, q: Query, i: nat)
    requires ValidQuery(tx, q) && Seek(tx.keys, ScanPrefix(q.bucket, q.prefix)) <= i <= |tx.keys|
    requires NoLiveBefore(tx, q.bucket, q.prefix, i)
    requires i < |tx.keys| ==> !Under(tx, q, i)
    ensures !Live(tx, q.bucket, q.prefix)
  {
    NoneAfter(tx, q, i);
    forall k | i <= k < |tx.keys|
      ensures !HasPrefix(tx.keys[k], ScanPrefix(q.bucket, q.prefix))
    {
      assert !Under(tx, q, k);
    }
  }

  /** Whether any key under `prefix` has a live newest version, looking at one record per
      key. */
  method HasLiveKey(tx: Tx, bucket: Bytes, prefix: Bytes) returns (live: bool)
    requires Valid(tx, bucket) && Free(NUL, prefix)
    ensures live == Live(tx, bucket, prefix)
  {
    var scan := ScanPrefix(bucket, prefix);
    ghost var q := Query(bucket, prefix, [], false);
    var it := Seek(tx.keys, scan);
    NoLiveAtStart(tx, q, it);
    while it < |tx.keys| && HasPrefix(tx.keys[it], scan)
      invariant Seek(tx.keys, scan) <= it <= |tx.keys|
      invariant Boundary(tx, q, 0, it)
      invariant NoLiveBefore(tx, bucket, prefix, it)
    {
      assert Under(tx, q, it);
      ghost var key := Key(tx, q, it);
      var o := tx.values[it].o;
      if !o.deleteMarker {
        assert LiveAt(tx, bucket, it);
        return true;
      }
      var next := PrefixSuccessor(ObjectPrefix(bucket, o.key));
      NextGroup(tx, q, 0, it);  // so the successor exists
      var j := Seek(tx.keys, next.value);
      NoLiveStep(tx, q, it, j);
      it := j;
    }
    NoLiveAtEnd(tx, q, it);
    return false;
  }

  lemma NoneAfter(tx: Tx, q: Query, i: nat)
    requires ValidQuery(tx, q) && Seek(tx.keys, ScanPrefix(q.bucket, q.prefix)) <= i <= |tx.keys|
    requires i < |tx.keys| ==> !Under(tx, q, i)
    ensures forall k :: i <= k < |tx.keys| ==> !Under(tx, q, k)
  {
    var scan := ScanPrefix(q.bucket, q.prefix);
    forall k | i <= k < |tx.keys|
      ensures !Under(tx, q, k)
    {
      if Under(tx, q, k) {
        SeekSplits(tx.keys, scan, i);
        LtTotal(scan, tx.keys[i]);
        if scan != tx.keys[i] { PrefixConvex(scan, scan, tx.keys[i], tx.keys[k]); }
      }
    }
  }

  // ----- list

  function PageSize(maxKeys: int): (n: nat)
    ensures maxKeys > 0 ==> n == maxKeys
    ensures maxKeys <= 0 ==> n == 1000
  {
    if maxKeys <= 0 then 1000 else maxKeys
  }

  /** The markers that resume after an entry. */
  function NextKey(e: ListEntry): Bytes {
    match e
    case Version(o, _) => o.key
    case CommonPrefix(p) => p
  }

  function NextVersion(e: ListEntry, versions: bool): Bytes {
    if versions && e.Version? then e.o.versionID else []
  }

  /** A page: the first entries of `all`, with the markers of the last one. */
  predicate IsPage(res: ListResult, all: seq<ListEntry>, size: nat, versions: bool) {
    && |res.entries| <= |all| && res.entries == all[..|res.entries|]
    && |res.entries| == (if |all| <= size then |all| else size)
    && res.isTruncated == (|all| > size)
    && HasMarkers(res, versions)
  }

  predicate HasMarkers(res: ListResult, versions: bool) {
    if res.entries == [] then res.nextKey == [] && res.nextVersion == []
    else
      var e := res.entries[|res.entries| - 1];
      res.nextKey == NextKey(e) && res.nextVersion == NextVersion(e, versions)
  }

  ghost predicate StartsIn(tx: Tx, q: Query, start: nat) {
    Seek(tx.keys, ScanPrefix(q.bucket, q.prefix)) <= start <= |tx.keys|
  }

  /** A marker at or after the prefix never moves the iterator before the scan. */
  lemma StartInScan(tx: Tx, q: Query, opt: ListOptions)
    requires ValidQuery(tx, q) && opt.prefix == q.prefix
    requires Start(tx, q.bucket, opt, q.versions).Some?
    ensures StartsIn(tx, q, Seek(tx.keys, Start(tx, q.bucket, opt, q.versions).value))
  {
    var scan := ScanPrefix(q.bucket, q.prefix);
    var start := Start(tx, q.bucket, opt, q.versions).value;
    var marker := if q.versions then opt.keyMarker else opt.startAfter;
    if start != scan {
      var at := ScanPrefix(q.bucket, marker);
      LtCommon(BucketPrefix(q.bucket), opt.prefix, marker);
      assert Le(scan, at);
      MarkerStart(tx, q.bucket, opt, q.versions, marker);
      assert Le(scan, start) by {
        if scan != at && at != start { LtTransitive(scan, at, start); }
      }
    }
    SeekMonotone(tx.keys, scan, start);
  }

  lemma SeekMonotone(keys: seq<Bytes>, a: Bytes, b: Bytes)
    requires Ascending(keys) && Le(a, b)
    ensures Seek(keys, a) <= Seek(keys, b)
  {
    var i, j := Seek(keys, a), Seek(keys, b);
    if j < i {
      LtLeTransitive(keys[j], a, b);
    }
  }

  lemma MarkerStart(tx: Tx, bucket: Bytes, opt: ListOptions, versions: bool, marker: Bytes)
    requires marker == if versions then opt.keyMarker else opt.startAfter
    requires Start(tx, bucket, opt, versions).Some?
    requires Start(tx, bucket, opt, versions).value != ScanPrefix(bucket, opt.prefix)
    ensures Le(opt.prefix, marker) && Le(ScanPrefix(bucket, marker), Start(tx, bucket, opt, versions).value)
  {
    var at, p := ScanPrefix(bucket, marker), ObjectPrefix(bucket, marker);
    var start := Start(tx, bucket, opt, versions).value;
    assert HasPrefix(p, at) by { assert p[..|at|] == at; }
    PrefixLe(at, p);
    if Successor(at) == Some(start) {
      BelowSuccessor(at, at);
    } else if Successor(p) == Some(start) {
      BelowSuccessor(p, p);
      LeLtTransitive(at, p, start);
    } else {
      assert HasPrefix(start, at) by { assert start[..|at|] == at; }
      PrefixLe(at, start);
    }
  }

  /** The record key of the iterator decodes to the key of the record under it. */
  lemma IteratorKey(tx: Tx, q: Query, i: nat)
    requires ValidQuery(tx, q) && i < |tx.keys| && Under(tx, q, i)
    ensures SplitObjectKey(tx.keys[i]) == Some(RecordKey(q.bucket, Key(tx, q, i), tx.values[i].o.seqNo))
  {
    SplitInvertsEncode(q.bucket, Key(tx, q, i), tx.values[i].o.seqNo);
  }

  /** The key of the last plain record the loop has decoded. */
  ghost predicate TracksLastKey(tx: Tx, q: Query, start: nat, i: nat, lastKey: Bytes)
    requires ValidQuery(tx, q) && start <= i <= |tx.keys|
  {
    && (lastKey != [] ==> exists m :: start <= m < i && Under(tx, q, m) && Key(tx, q, m) == lastKey)
    && (i > start && Under(tx, q, i - 1) && !Collapsed(tx, q, i - 1) ==> lastKey == Key(tx, q, i - 1))
  }

  /** The comparison with the last key finds the first record of each key. */
  lemma LastKeyIsFirst(tx: Tx, q: Query, start: nat, i: nat, lastKey: Bytes)
    requires ValidQuery(tx, q) && start <= i < |tx.keys| && Under(tx, q, i) && !Collapsed(tx, q, i)
    requires TracksLastKey(tx, q, start, i, lastKey)
    ensures (Key(tx, q, i) != lastKey) == First(tx, start, i, Group(tx, q, i))
  {
    GroupShape(tx, q, i);
    hide ObjectKey, HasPrefix, Collapse, Ascending;
    if Key(tx, q, i) == lastKey {
      var m :| start <= m < i && Under(tx, q, m) && Key(tx, q, m) == lastKey;
      VersionsMeaning(q.bucket, lastKey, lastKey, tx.values[m].o.seqNo);
      Consecutive(tx.keys, Group(tx, q, i), m, i - 1, i);
    } else if !First(tx, start, i, Group(tx, q, i)) {
      GroupStable(tx, q, i, i - 1);
    }
  }

  /** What the loop has collected when the iterator stands at record `it`. */
  ghost predicate Collected(tx: Tx, q: Query, start: nat, it: nat, res: ListResult, size: nat)
    requires ValidQuery(tx, q) && start <= it
  {
    && res.entries + Items(tx, q, start, it) == Items(tx, q, start, start)
    && |res.entries| <= size && !res.isTruncated && HasMarkers(res, q.versions)
  }

  /** Where the iterator may stand: inside a key only when its versions are listed one by one. */
  ghost predicate AtBoundary(tx: Tx, q: Query, start: nat, it: nat)
    requires ValidQuery(tx, q) && start <= it
  {
    it < |tx.keys| && Under(tx, q, it) && (Collapsed(tx, q, it) || !q.versions) ==> First(tx, start, it, Group(tx, q, it))
  }

  /** A full page that still has something to add is truncated. */
  lemma PageFull(tx: Tx, q: Query, start: nat, it: nat, res: ListResult)
    requires ValidQuery(tx, q) && start <= it < |tx.keys| && Collected(tx, q, start, it, res, |res.entries|)
    requires Contribution(tx, q, start, it) != []
    ensures IsPage(res.(isTruncated := true), Items(tx, q, start, start), |res.entries|, q.versions)
  {
    var all := Items(tx, q, start, start);
    assert all[..|res.entries|] == res.entries;
  }

  /** A scan that is over is a last page. */
  lemma PageDone(tx: Tx, q: Query, start: nat, it: nat, res: ListResult, size: nat)
    requires ValidQuery(tx, q) && start <= it && Collected(tx, q, start, it, res, size)
    requires Items(tx, q, start, it) == []
    ensures IsPage(res, Items(tx, q, start, start), size, q.versions)
  {
    assert res.entries + [] == res.entries;
    assert res.entries[..|res.entries|] == res.entries;
  }

  /** The iterator has moved from `i` to `j`, over records that add nothing after record `i`. */
  lemma Collect(tx: Tx, q: Query, start: nat, i: nat, j: nat, res: ListResult, res': ListResult, size: nat)
    requires ValidQuery(tx, q) && start <= i < j && i < |tx.keys| && Collected(tx, q, start, i, res, size)
    requires Items(tx, q, start, i) == Contribution(tx, q, start, i) + Items(tx, q, start, j)
    requires res'.entries == res.entries + Contribution(tx, q, start, i) && |res'.entries| <= size
    requires !res'.isTruncated && HasMarkers(res', q.versions)
    ensures Collected(tx, q, start, j, res', size)
  {
    Reassociated(res.entries, Contribution(tx, q, start, i), Items(tx, q, start, j));
  }

  lemma Reassociated(a: seq<ListEntry>, b: seq<ListEntry>, c: seq<ListEntry>)
    ensures a + (b + c) == (a + b) + c
  {
  }

  /** The records seen so far when the iterator moves within a group to `j`. */
  lemma TrackJump(tx: Tx, q: Query, start: nat, i: nat, j: nat, lastKey: Bytes, lastKey': Bytes)
    requires ValidQuery(tx, q) && start <= i < j <= |tx.keys| && Under(tx, q, i)
    requires TracksLastKey(tx, q, start, i, lastKey)
    requires lastKey' == if Collapsed(tx, q, i) then lastKey else Key(tx, q, i)
    requires HasPrefix(tx.keys[j - 1], Group(tx, q, i))
    ensures TracksLastKey(tx, q, start, j, lastKey')
  {
    GroupStable(tx, q, i, j - 1);
    if !Collapsed(tx, q, i) {
      assert Under(tx, q, i) && Key(tx, q, i) == lastKey';
    }
  }

  lemma BoundaryAfterVersion(tx: Tx, q: Query, start: nat, i: nat)
    requires ValidQuery(tx, q) && start <= i < |tx.keys| && Under(tx, q, i) && q.versions && !Collapsed(tx, q, i)
    ensures AtBoundary(tx, q, start, i + 1)
  {
    if i + 1 < |tx.keys| && Under(tx, q, i + 1) && Collapsed(tx, q, i + 1) && HasPrefix(tx.keys[i], Group(tx, q, i + 1)) {
      GroupStable(tx, q, i + 1, i);
    }
  }

  ghost predicate Progress(tx: Tx, q: Query, start: nat, it: nat, res: ListResult, size: nat, lastKey: Bytes)
    requires ValidQuery(tx, q)
  {
    && start <= it <= |tx.keys|
    && Collected(tx, q, start, it, res, size)
    && AtBoundary(tx, q, start, it)
    && TracksLastKey(tx, q, start, it, lastKey)
  }

  /** The iterator jumps over the rest of a group. */
  lemma Jump(tx: Tx, q: Query, start: nat, i: nat, res: ListResult, res': ListResult, size: nat, lastKey: Bytes, lastKey': Bytes)
    requires ValidQuery(tx, q) && Progress(tx, q, start, i, res, size, lastKey)
    requires i < |tx.keys| && Under(tx, q, i) && (q.versions ==> Collapsed(tx, q, i))
    requires lastKey' == if Collapsed(tx, q, i) then lastKey else Key(tx, q, i)
    requires res'.entries == res.entries + Contribution(tx, q, start, i) && |res'.entries| <= size
    requires !res'.isTruncated && HasMarkers(res', q.versions)
    ensures Successor(Group(tx, q, i)).Some?
    ensures var j := Seek(tx.keys, Successor(Group(tx, q, i)).value);
      i < j && Progress(tx, q, start, j, res', size, lastKey')
  {
    SkipGroup(tx, q, start, i);
    NextGroup(tx, q, start, i);
    var j := Seek(tx.keys, Successor(Group(tx, q, i)).value);
    Collect(tx, q, start, i, j, res, res', size);
    TrackJump(tx, q, start, i, j, lastKey, lastKey');
  }

  /** The iterator steps to the next version. */
  lemma StepVersion(tx: Tx, q: Query, start: nat, i: nat, res: ListResult, res': ListResult, size: nat, lastKey: Bytes)
    requires ValidQuery(tx, q) && Progress(tx, q, start, i, res, size, lastKey)
    requires i < |tx.keys| && Under(tx, q, i) && q.versions && !Collapsed(tx, q, i)
    requires res'.entries == res.entries + Contribution(tx, q, start, i) && |res'.entries| <= size
    requires !res'.isTruncated && HasMarkers(res', q.versions)
    ensures Progress(tx, q, start, i + 1, res', size, Key(tx, q, i))
  {
    GroupShape(tx, q, i);
    TrackJump(tx, q, start, i, i + 1, lastKey, Key(tx, q, i));
    BoundaryAfterVersion(tx, q, start, i);
    Collect(tx, q, start, i, i + 1, res, res', size);
  }

  /** What a collapsed record adds when the iterator reaches it. */
  lemma ContributesPrefix(tx: Tx, q: Query, start: nat, i: nat)
    requires ValidQuery(tx, q) && start <= i < |tx.keys| && Under(tx, q, i) && Collapsed(tx, q, i)
    requires AtBoundary(tx, q, start, i)
    ensures var cp := Collapse(q.prefix, q.delimiter, Key(tx, q, i)).value;
      Contribution(tx, q, start, i) == if q.versions || Live(tx, q.bucket, cp) then [CommonPrefix(cp)] else []
  {
  }

  /** What a plain record adds when the iterator reaches it. */
  lemma ContributesVersion(tx: Tx, q: Query, start: nat, i: nat, lastKey: Bytes)
    requires ValidQuery(tx, q) && start <= i < |tx.keys| && Under(tx, q, i) && !Collapsed(tx, q, i)
    requires AtBoundary(tx, q, start, i) && TracksLastKey(tx, q, start, i, lastKey)
    ensures var o := tx.values[i].o;
      Contribution(tx, q, start, i) ==
        if q.versions then [Version(o, Key(tx, q, i) != lastKey)] else if !o.deleteMarker then [Version(o, true)] else []
  {
    LastKeyIsFirst(tx, q, start, i, lastKey);
  }

  /** Nothing of the bucket lies at or after a seek target outside the bucket. */
  lemma OutsideBucket(tx: Tx, q: Query, start: nat, i: nat, next: Bytes)
    requires ValidQuery(tx, q) && StartsIn(tx, q, start) && start <= i < |tx.keys| && Under(tx, q, i)
    requires Successor(Group(tx, q, i)) == Some(next) && !HasPrefix(next, BucketPrefix(q.bucket))
    ensures start <= Seek(tx.keys, next) && Items(tx, q, start, Seek(tx.keys, next)) == []
  {
    var p, scan := BucketPrefix(q.bucket), ScanPrefix(q.bucket, q.prefix);
    var j := Seek(tx.keys, next);
    NextGroup(tx, q, start, i);
    if j < |tx.keys| && Under(tx, q, j) {
      assert HasPrefix(scan, p) by { assert scan[..|p|] == p; }
      PrefixTransitive(tx.keys[i], scan, p);
      PrefixTransitive(tx.keys[j], scan, p);
      SeekSplits(tx.keys, next, i);
      SeekSplits(tx.keys, next, j);
      LtTotal(next, tx.keys[j]);
      if next != tx.keys[j] { PrefixConvex(p, tx.keys[i], next, tx.keys[j]); }
    }
    EndOfScan(tx, q, start, j);
  }

  /** The result after a common prefix, if it is listed. */
  function WithPrefix(res: ListResult, cp: Bytes, listed: bool): ListResult {
    if listed then ListResult(res.entries + [CommonPrefix(cp)], false, cp, []) else res
  }

  function WithVersion(res: ListResult, o: Object, isLatest: bool): ListResult {
    ListResult(res.entries + [Version(o, isLatest)], false, o.key, o.versionID)
  }

  function WithObject(res: ListResult, o: Object): ListResult {
    if o.deleteMarker then res else ListResult(res.entries + [Version(o, true)], false, o.key, res.nextVersion)
  }

  ghost predicate OnPrefix(tx: Tx, q: Query, it: nat, cp: Bytes)
    requires ValidQuery(tx, q)
  {
    it < |tx.keys| && Under(tx, q, it) && Collapse(q.prefix, q.delimiter, Key(tx, q, it)) == Some(cp)
  }

  ghost predicate OnKey(tx: Tx, q: Query, it: nat, key: Bytes)
    requires ValidQuery(tx, q)
  {
    it < |tx.keys| && Under(tx, q, it) && !Collapsed(tx, q, it) && key == Key(tx, q, it)
  }

  ghost predicate Done(tx: Tx, q: Query, start: nat, res: ListResult, size: nat)
    requires ValidQuery(tx, q)
  {
    IsPage(res, Items(tx, q, start, start), size, q.versions)
  }

  lemma PrefixTruncates(tx: Tx, q: Query, start: nat, it: nat, res: ListResult, size: nat, lastKey: Bytes, cp: Bytes)
    requires ValidQuery(tx, q) && Progress(tx, q, start, it, res, size, lastKey) && OnPrefix(tx, q, it, cp)
    requires (q.versions || Live(tx, q.bucket, cp)) && |res.entries| >= size
    ensures Done(tx, q, start, res.(isTruncated := true), size)
  {
    ContributesPrefix(tx, q, start, it);
    PageFull(tx, q, start, it, res);
  }

  lemma PrefixAdvances(tx: Tx, q: Query, start: nat, it: nat, res: ListResult, size: nat, lastKey: Bytes, cp: Bytes, listed: bool)
    requires ValidQuery(tx, q) && Progress(tx, q, start, it, res, size, lastKey) && OnPrefix(tx, q, it, cp)
    requires listed == (q.versions || Live(tx, q.bucket, cp)) && (listed ==> |res.entries| < size)
    ensures Group(tx, q, it) == ScanPrefix(q.bucket, cp) && Successor(ScanPrefix(q.bucket, cp)).Some?
    ensures var j := Seek(tx.keys, Successor(ScanPrefix(q.bucket, cp)).value);
      it < j && Progress(tx, q, start, j, WithPrefix(res, cp, listed), size, lastKey)
  {
    ContributesPrefix(tx, q, start, it);
    if !listed { assert res.entries + [] == res.entries; }
    Jump(tx, q, start, it, res, WithPrefix(res, cp, listed), size, lastKey, lastKey);
  }

  lemma PrefixEnds(tx: Tx, q: Query, start: nat, it: nat, res: ListResult, size: nat, lastKey: Bytes, cp: Bytes)
    requires ValidQuery(tx, q) && StartsIn(tx, q, start) && start <= it && OnPrefix(tx, q, it, cp)
    requires Successor(ScanPrefix(q.bucket, cp)).Some?
    requires var next := Successor(ScanPrefix(q.bucket, cp)).value;
      !HasPrefix(next, BucketPrefix(q.bucket)) && Progress(tx, q, start, Seek(tx.keys, next), res, size, lastKey)
    ensures Done(tx, q, start, res, size)
  {
    var next := Successor(ScanPrefix(q.bucket, cp)).value;
    OutsideBucket(tx, q, start, it, next);
    PageDone(tx, q, start, Seek(tx.keys, next), res, size);
  }

  lemma RecordTruncates(tx: Tx, q: Query, start: nat, it: nat, res: ListResult, size: nat, lastKey: Bytes, key: Bytes)
    requires ValidQuery(tx, q) && Progress(tx, q, start, it, res, size, lastKey) && OnKey(tx, q, it, key)
    requires (q.versions || !tx.values[it].o.deleteMarker) && |res.entries| >= size
    ensures Done(tx, q, start, res.(isTruncated := true), size)
  {
    ContributesVersion(tx, q, start, it, lastKey);
    PageFull(tx, q, start, it, res);
  }

  lemma VersionAdvances(tx: Tx, q: Query, start: nat, it: nat, res: ListResult, size: nat, lastKey: Bytes, key: Bytes)
    requires ValidQuery(tx, q) && Progress(tx, q, start, it, res, size, lastKey) && OnKey(tx, q, it, key)
    requires q.versions && |res.entries| < size
    ensures Progress(tx, q, start, it + 1, WithVersion(res, tx.values[it].o, key != lastKey), size, key)
  {
    ContributesVersion(tx, q, start, it, lastKey);
    StepVersion(tx, q, start, it, res, WithVersion(res, tx.values[it].o, key != lastKey), size, lastKey);
  }

  lemma ObjectAdvances(tx: Tx, q: Query, start: nat, it: nat, res: ListResult, size: nat, lastKey: Bytes, key: Bytes)
    requires ValidQuery(tx, q) && Progress(tx, q, start, it, res, size, lastKey) && OnKey(tx, q, it, key)
    requires !q.versions && (!tx.values[it].o.deleteMarker ==> |res.entries| < size)
    ensures Successor(ObjectPrefix(q.bucket, key)).Some?
    ensures var j := Seek(tx.keys, Successor(ObjectPrefix(q.bucket, key)).value);
      it < j && Progress(tx, q, start, j, WithObject(res, tx.values[it].o), size, key)
  {
    ContributesVersion(tx, q, start, it, lastKey);
    MarkersOfObjects(res, tx.values[it].o);
    if tx.values[it].o.deleteMarker { assert res.entries + [] == res.entries; }
    Jump(tx, q, start, it, res, WithObject(res, tx.values[it].o), size, lastKey, key);
  }

  lemma MarkersOfObjects(res: ListResult, o: Object)
    requires HasMarkers(res, false)
    ensures HasMarkers(WithObject(res, o), false)
  {
  }

  /** The branch of the loop for a key that collapses to `cp`: list the prefix once and seek
      past everything under it. */
  method VisitPrefix(tx: Tx, q: Query, ghost start: nat, it: nat, res: ListResult, maxKeys: nat, ghost lastKey: Bytes, cp: Bytes)
    returns (res': ListResult, it': nat, done: bool)
    requires ValidQuery(tx, q) && StartsIn(tx, q, start) && Progress(tx, q, start, it, res, maxKeys, lastKey)
    requires OnPrefix(tx, q, it, cp) && Free(NUL, cp)
    ensures done ==> Done(tx, q, start, res', maxKeys)
    ensures !done ==> it < it' && Progress(tx, q, start, it', res', maxKeys, lastKey)
  {
    hide Items, IsPage, HasMarkers, Group, Valid, Contribution, Collected, AtBoundary, TracksLastKey, Seek, Live;
    res', it', done := res, it, true;
    var next := PrefixSuccessor(ScanPrefix(q.bucket, cp));
    var listed := q.versions;
    if !listed {
      listed := HasLiveKey(tx, q.bucket, cp);
    }
    if listed {
      if |res.entries| >= maxKeys {
        PrefixTruncates(tx, q, start, it, res, maxKeys, lastKey, cp);
        res' := res.(isTruncated := true);
        return;
      }
      res' := ListResult(res.entries + [CommonPrefix(cp)], false, cp, []);
    }
    PrefixAdvances(tx, q, start, it, res, maxKeys, lastKey, cp, listed);
    if next.None? || !HasPrefix(next.value, BucketPrefix(q.bucket)) {
      PrefixEnds(tx, q, start, it, res', maxKeys, lastKey, cp);
      return;
    }
    it', done := Seek(tx.keys, next.value), false;
  }

  /** The branch for a plain key: list this version, or the key if its newest version is
      live, and seek past its other versions. */
  method VisitRecord(tx: Tx, q: Query, ghost start: nat, it: nat, res: ListResult, maxKeys: nat, lastKey: Bytes, key: Bytes)
    returns (res': ListResult, it': nat, done: bool)
    requires ValidQuery(tx, q) && Progress(tx, q, start, it, res, maxKeys, lastKey)
    requires OnKey(tx, q, it, key)
    ensures done ==> Done(tx, q, start, res', maxKeys)
    ensures !done ==> it < it' && Progress(tx, q, start, it', res', maxKeys, key)
  {
    hide Items, IsPage, HasMarkers, Group, Contribution, Progress, Seek;
    res', it', done := res, it, true;
    ghost var k := Key(tx, q, it);
    var o := tx.values[it].o;
    var isLatest := key != lastKey;
    if q.versions {
      if |res.entries| >= maxKeys {
        RecordTruncates(tx, q, start, it, res, maxKeys, lastKey, key);
        res' := res.(isTruncated := true);
        return;
      }
      res' := ListResult(res.entries + [Version(o, isLatest)], false, o.key, o.versionID);
      VersionAdvances(tx, q, start, it, res, maxKeys, lastKey, key);
      it', done := it + 1, false;
      return;
    }
    if !o.deleteMarker {
      if |res.entries| >= maxKeys {
        RecordTruncates(tx, q, start, it, res, maxKeys, lastKey, key);
        res' := res.(isTruncated := true);
        return;
      }
      res' := ListResult(res.entries + [Version(o, true)], false, o.key, res.nextVersion);
    }
    ObjectAdvances(tx, q, start, it, res, maxKeys, lastKey, key);
    var next := PrefixSuccessor(ObjectPrefix(q.bucket, key));
    it', done := Seek(tx.keys, next.value), false;
  }

  /** `list`: one page, found by seeking over whole groups of records. */
  method List(tx: Tx, bucket: Bytes, opt: ListOptions, versions: bool) returns (res: ListResult)
    requires Valid(tx, bucket) && Free(NUL, opt.prefix)
    ensures Start(tx, bucket, opt, versions).None? ==> res == ListResult([], false, [], [])
    ensures Start(tx, bucket, opt, versions).Some? ==>
      var q := Query(bucket, opt.prefix, opt.delimiter, versions);
      var start := Seek(tx.keys, Start(tx, bucket, opt, versions).value);
      IsPage(res, Items(tx, q, start, start), PageSize(opt.maxKeys), versions)
  {
    var maxKeys := PageSize(opt.maxKeys);
    res := ListResult([], false, [], []);
    var scan := ScanPrefix(bucket, opt.prefix);
    var startKey := Start(tx, bucket, opt, versions);
    if startKey.None? {
      return;
    }
    var q := Query(bucket, opt.prefix, opt.delimiter, versions);
    var it := Seek(tx.keys, startKey.value);
    ghost var start := it;
    StartInScan(tx, q, opt);
    var lastKey: Bytes := [];
    while it < |tx.keys| && HasPrefix(tx.keys[it], scan)
      invariant Progress(tx, q, start, it, res, maxKeys, lastKey)
    {
      assert Under(tx, q, it);
      IteratorKey(tx, q, it);
      var key := SplitObjectKey(tx.keys[it]).value.key;
      var cp := Collapse(opt.prefix, opt.delimiter, key);
      var done: bool;
      if cp.Some? {
        CollapseShape(opt.prefix, opt.delimiter, key);
        KeyPrefixFree(key, cp.value);
        res, it, done := VisitPrefix(tx, q, start, it, res, maxKeys, lastKey, cp.value);
      } else {
        res, it, done := VisitRecord(tx, q, start, it, res, maxKeys, lastKey, key);
        lastKey := key;
      }
      if done {
        return;
      }
    }
    EndOfScan(tx, q, start, it);
    PageDone(tx, q, start, it, res, maxKeys);
  }
}
