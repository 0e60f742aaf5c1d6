/** What the markers of a listing and its delimiter mean in terms of keys and versions
    (internal/meta/store.go). */
module Markers {
  import opened Kv
  import opened Keys
  import opened Listing

  // ----- common prefixes

  /** The delimiter stands in the key at position `j`. */
  predicate StandsAt(key: Bytes, delimiter: Bytes, j: int) {
    0 <= j && j + |delimiter| <= |key| && key[j..j + |delimiter|] == delimiter
  }

  /** The text is the key up to and including the first delimiter after the prefix. */
  predicate UpToFirst(prefix: Bytes, delimiter: Bytes, key: Bytes, cp: Bytes) {
    delimiter != [] && |cp| >= |prefix| + |delimiter| && HasPrefix(key, cp) && StandsAt(key, delimiter, |cp| - |delimiter|) &&
    forall j :: |prefix| <= j < |cp| - |delimiter| ==> !StandsAt(key, delimiter, j)
  }

  /** A key collapses exactly to that text, and does not collapse when no delimiter comes after the prefix. */
  lemma CollapseMeans(prefix: Bytes, delimiter: Bytes, key: Bytes, cp: Bytes)
    requires HasPrefix(key, prefix)
    ensures Collapse(prefix, delimiter, key) == Some(cp) <==> UpToFirst(prefix, delimiter, key, cp)
    ensures Collapse(prefix, delimiter, key).None? <==> delimiter == [] || forall j :: |prefix| <= j <= |key| ==> !StandsAt(key, delimiter, j)
  {
    var rest, p := key[|prefix|..], |prefix|;
    CollapseIs(prefix, delimiter, key);
    NoneStands(prefix, delimiter, key, cp);
    hide Collapse, Index, Occurs, StandsAt, UpToFirst;
    if delimiter != [] {
      var i := Index(rest, delimiter);
      var end := if i.Some? then p + i.value else |key| + 1;
      forall j | p <= j < end
        ensures !StandsAt(key, delimiter, j)
      {
        Shifted(prefix, delimiter, key, j - p);
      }
      if i.Some? {
        Shifted(prefix, delimiter, key, i.value);
        FirstStands(prefix, delimiter, key, end, cp);
      }
    }
  }

  lemma CollapseIs(prefix: Bytes, delimiter: Bytes, key: Bytes)
    requires HasPrefix(key, prefix)
    ensures var i := Index(key[|prefix|..], delimiter);
      if delimiter == [] || i.None? then Collapse(prefix, delimiter, key).None?
      else |prefix| + i.value + |delimiter| <= |key| && Collapse(prefix, delimiter, key) == Some(key[..|prefix| + i.value + |delimiter|])
  {
    var i := Index(key[|prefix|..], delimiter);
    if delimiter != [] && i.Some? { Rejoined(prefix, key, i.value + |delimiter|); }
    hide Index;
  }

  lemma NoneStands(prefix: Bytes, delimiter: Bytes, key: Bytes, cp: Bytes)
    ensures delimiter == [] || (forall j :: |prefix| <= j <= |key| ==> !StandsAt(key, delimiter, j)) ==> !UpToFirst(prefix, delimiter, key, cp)
    ensures StandsAt(key, delimiter, |cp| - |delimiter|) ==> |cp| <= |key|
  {
  }

  lemma Shifted(prefix: Bytes, delimiter: Bytes, key: Bytes, j: nat)
    requires HasPrefix(key, prefix)
    ensures Occurs(key[|prefix|..], delimiter, j) <==> StandsAt(key, delimiter, |prefix| + j)
  {
    var rest, p := key[|prefix|..], |prefix|;
    if j + |delimiter| <= |rest| { assert rest[j..j + |delimiter|] == key[p + j..p + j + |delimiter|]; }
  }

  lemma Rejoined(prefix: Bytes, key: Bytes, n: nat)
    requires HasPrefix(key, prefix) && |prefix| + n <= |key|
    ensures prefix + key[|prefix|..][..n] == key[..|prefix| + n]
  {
  }

  lemma FirstStands(prefix: Bytes, delimiter: Bytes, key: Bytes, i: nat, cp: Bytes)
    requires delimiter != [] && i >= |prefix| && StandsAt(key, delimiter, i)
    requires forall j :: |prefix| <= j < i ==> !StandsAt(key, delimiter, j)
    ensures i + |delimiter| <= |key| && (UpToFirst(prefix, delimiter, key, cp) <==> cp == key[..i + |delimiter|])
  {
    var whole := key[..i + |delimiter|];
    assert HasPrefix(key, whole);
    if UpToFirst(prefix, delimiter, key, cp) {
      var j := |cp| - |delimiter|;
      assert !(j < i) && !(i < j);
      assert cp == key[..|cp|];
    }
  }

  // ----- where a listing starts

  predicate EndsIn(s: Bytes, t: Bytes) {
    |t| <= |s| && s[|s| - |t|..] == t
  }

  /** A key comes after a key marker; a marker that ends in the delimiter stands for all that begins with it. */
  predicate Past(key: Bytes, marker: Bytes, delimiter: Bytes) {
    Lt(marker, key) && !(delimiter != [] && EndsIn(marker, delimiter) && HasPrefix(key, marker))
  }

  lemma {:induction false} SeparatorLt(k: Bytes, m: Bytes, t: Bytes)
    requires Free(NUL, k) && Free(NUL, m)
    ensures Lt(k + [NUL] + t, m) <==> Lt(k, m)
  {
    var a := k + [NUL] + t;
    if k != [] && m != [] && k[0] == m[0] {
      assert a[1..] == k[1..] + [NUL] + t;
      SeparatorLt(k[1..], m[1..], t);
    }
  }

  /** Records before the end of the versions of a key, and before the end of a subtree. */
  lemma BeforeEnds(bucket: Bytes, key: Bytes, seqNo: nat, m: Bytes)
    requires Free(NUL, key) && Free(NUL, m) && seqNo <= MAX_SEQ
    ensures Successor(ObjectPrefix(bucket, m)).Some? && Successor(ScanPrefix(bucket, m)).Some?
    ensures Lt(ObjectKey(bucket, key, seqNo), Successor(ObjectPrefix(bucket, m)).value) <==> !Lt(m, key)
    ensures Lt(ObjectKey(bucket, key, seqNo), Successor(ScanPrefix(bucket, m)).value) <==> !Lt(m, key) || HasPrefix(key, m)
  {
    var bp, ver, rk := BucketPrefix(bucket), VerKey(seqNo), ObjectKey(bucket, key, seqNo);
    SuccessorExists(bucket, m);
    BelowSuccessor(ObjectPrefix(bucket, m), rk);
    BelowSuccessor(ScanPrefix(bucket, m), rk);
    VersionsMeaning(bucket, m, key, seqNo);
    ScanMeaning(bucket, m, key, seqNo);
    assert rk == bp + (key + [NUL] + ver) && ObjectPrefix(bucket, m) == bp + (m + [NUL] + []) && ScanPrefix(bucket, m) == bp + m;
    LtCommon(bp, key + [NUL] + ver, m + [NUL] + []);
    LtCommon(bp, key + [NUL] + ver, m);
    SeparatorOrder(key, m, ver, []);
    SeparatorLt(key, m, ver);
    LtTotal(key, m);
    hide Lt, Successor;
    if Lt(key, m) { LtAsymmetric(key, m); }
    if Lt(m, key) { LtAsymmetric(m, key); }
    LtIrreflexive(m);
    if key == m { assert HasPrefix(key, m) by { assert m[..|m|] == m; } }
  }

  lemma SuccessorExists(bucket: Bytes, m: Bytes)
    ensures Successor(ObjectPrefix(bucket, m)).Some? && Successor(ScanPrefix(bucket, m)).Some?
  {
    assert ObjectPrefix(bucket, m)[0] == 111 && ScanPrefix(bucket, m)[0] == 111;
    SuccessorSome(ObjectPrefix(bucket, m));
    SuccessorSome(ScanPrefix(bucket, m));
  }

  /** What `afterKey` leaves behind. */
  lemma AfterKeyMeans(bucket: Bytes, key: Bytes, seqNo: nat, m: Bytes, delimiter: Bytes)
    requires Free(NUL, key) && Free(NUL, m) && seqNo <= MAX_SEQ
    ensures AfterKey(bucket, m, delimiter).Some?
    ensures Lt(ObjectKey(bucket, key, seqNo), AfterKey(bucket, m, delimiter).value) <==> !Past(key, m, delimiter)
  {
    BeforeEnds(bucket, key, seqNo, m);
    hide Successor, Lt, ObjectKey, HasPrefix;
  }

  /** Record `i` lies under the prefix of the listing. */
  ghost predicate IsUnder(tx: Tx, bucket: Bytes, prefix: Bytes, i: nat) {
    Valid(tx, bucket) && Free(NUL, prefix) && i < |tx.keys| && HasPrefix(tx.keys[i], ScanPrefix(bucket, prefix))
  }

  lemma UnderRecord(tx: Tx, bucket: Bytes, prefix: Bytes, i: nat)
    requires IsUnder(tx, bucket, prefix, i)
    ensures IsRecord(tx, bucket, i) && HasPrefix(tx.values[i].o.key, prefix)
  {
    var bp := BucketPrefix(bucket);
    assert tx.keys[i][..|bp|] == ScanPrefix(bucket, prefix)[..|bp|] == bp;
    ScanMeaning(bucket, prefix, tx.values[i].o.key, tx.values[i].o.seqNo);
  }

  /** A listing of objects starts with the first record of a key that comes after the marker; a marker
      before the prefix excludes nothing. */
  lemma ObjectMarkerMeans(tx: Tx, bucket: Bytes, opt: ListOptions, i: nat)
    requires IsUnder(tx, bucket, opt.prefix, i) && Free(NUL, opt.startAfter)
    ensures var start := Start(tx, bucket, opt, false);
      start.Some? &&
      (Seek(tx.keys, start.value) <= i <==>
        (opt.startAfter != [] && Le(opt.prefix, opt.startAfter) ==> Past(tx.values[i].o.key, opt.startAfter, opt.delimiter)))
  {
    UnderRecord(tx, bucket, opt.prefix, i);
    var o := tx.values[i].o;
    AfterKeyMeans(bucket, o.key, o.seqNo, opt.startAfter, opt.delimiter);
    NotBeforeScan(tx, bucket, opt.prefix, i);
    hide AfterKey, Past, ObjectKey, Lt, Le;
    SeekSplits(tx.keys, Start(tx, bucket, opt, false).value, i);
  }

  lemma NotBeforeScan(tx: Tx, bucket: Bytes, prefix: Bytes, i: nat)
    requires IsUnder(tx, bucket, prefix, i)
    ensures !Lt(tx.keys[i], ScanPrefix(bucket, prefix))
  {
    var scan := ScanPrefix(bucket, prefix);
    PrefixLe(scan, tx.keys[i]);
    LtIrreflexive(scan);
    if Lt(scan, tx.keys[i]) { LtAsymmetric(scan, tx.keys[i]); }
  }

  /** Where a marker of a version leads: past a version of the key. */
  predicate PastVersion(o: Object, key: Bytes, seqNo: nat) {
    Lt(key, o.key) || (o.key == key && o.seqNo < seqNo)
  }

  /** A listing of versions starts after the version that the markers name, after the null version
      when they say so, and after all versions of the key when they name none; an ID that does not
      parse excludes nothing. */
  lemma VersionMarkerMeans(tx: Tx, bucket: Bytes, opt: ListOptions, i: nat)
    requires IsUnder(tx, bucket, opt.prefix, i) && Free(NUL, opt.keyMarker)
    ensures var start, o, seqNo := Start(tx, bucket, opt, true), tx.values[i].o, SeqFromVersionID(opt.versionMarker);
      start.Some? &&
      (opt.keyMarker == [] || !Le(opt.prefix, opt.keyMarker) ==> Seek(tx.keys, start.value) <= i) &&
      (opt.keyMarker != [] && Le(opt.prefix, opt.keyMarker) && opt.versionMarker == [] ==>
        (Seek(tx.keys, start.value) <= i <==> Past(o.key, opt.keyMarker, opt.delimiter))) &&
      (opt.keyMarker != [] && Le(opt.prefix, opt.keyMarker) && seqNo.Some? ==>
        (Seek(tx.keys, start.value) <= i <==> PastVersion(o, opt.keyMarker, seqNo.value)))
    ensures forall n: nat ::
      opt.keyMarker != [] && Le(opt.prefix, opt.keyMarker) && opt.versionMarker == NULL_ID && n <= MAX_SEQ &&
      opt.keyMarker in tx.nulls && tx.nulls[opt.keyMarker] == VerKey(n) ==>
        (Seek(tx.keys, Start(tx, bucket, opt, true).value) <= i <==> PastVersion(tx.values[i].o, opt.keyMarker, n))
    ensures opt.keyMarker != [] && Le(opt.prefix, opt.keyMarker) && opt.versionMarker == NULL_ID && opt.keyMarker !in tx.nulls ==>
      (Seek(tx.keys, Start(tx, bucket, opt, true).value) <= i <==> Lt(opt.keyMarker, tx.values[i].o.key))
  {
    UnderRecord(tx, bucket, opt.prefix, i);
    var o := tx.values[i].o;
    AfterKeyMeans(bucket, o.key, o.seqNo, opt.keyMarker, opt.delimiter);
    BeforeEnds(bucket, o.key, o.seqNo, opt.keyMarker);
    NotBeforeScan(tx, bucket, opt.prefix, i);
    var seqNo := SeqFromVersionID(opt.versionMarker);
    if seqNo.Some? { AfterVersion(bucket, o, opt.keyMarker, seqNo.value); }
    forall n: nat | n <= MAX_SEQ
      ensures Lt(tx.keys[i], ObjectPrefix(bucket, opt.keyMarker) + VerKey(n) + [NUL]) <==> !PastVersion(o, opt.keyMarker, n)
    {
      AfterVersion(bucket, o, opt.keyMarker, n);
    }
    hide AfterKey, Past, Lt, Le, SeqFromVersionID, PastVersion, Successor, VerKey;
    SeekSplits(tx.keys, Start(tx, bucket, opt, true).value, i);
  }

  /** A version ID begins with its sequence in hexadecimal; an ID of another length has none. */
  lemma IdHoldsSequence(seqNo: nat, random: Bytes, vid: Bytes)
    requires seqNo <= MAX_SEQ && |random| == 16
    ensures SeqFromVersionID(Hex(seqNo, 16) + random) == Some(seqNo)
    ensures |vid| != 32 ==> SeqFromVersionID(vid).None?
  {
    Pow16At16();
    HexRoundTrip(seqNo, 16);
    assert (Hex(seqNo, 16) + random)[..16] == Hex(seqNo, 16);
  }

  lemma AfterVersion(bucket: Bytes, o: Object, key: Bytes, seqNo: nat)
    requires Free(NUL, o.key) && Free(NUL, key) && o.seqNo <= MAX_SEQ && seqNo <= MAX_SEQ
    ensures Lt(ObjectKey(bucket, o.key, o.seqNo), ObjectKey(bucket, key, seqNo) + [NUL]) <==> !PastVersion(o, key, seqNo)
  {
    var x, y := ObjectKey(bucket, o.key, o.seqNo), ObjectKey(bucket, key, seqNo);
    NothingBetween(y, x);
    RecordOrder(bucket, o.key, o.seqNo, key, seqNo);
    RecordOrder(bucket, key, seqNo, o.key, o.seqNo);
    LtTotal(x, y);
    if Lt(x, y) { LtAsymmetric(x, y); }
    LtIrreflexive(x);
    LtTotal(o.key, key);
    if Lt(o.key, key) { LtAsymmetric(o.key, key); }
    hide Lt, ObjectKey;
  }
}
