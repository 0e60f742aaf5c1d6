/** The key layout of object records (internal/meta/keys.go). */
module Keys {
  import opened Kv

  const NUL: Byte := 0
  const SLASH: Byte := 47
  const NS_OBJECT: Bytes := [111, SLASH]  // "o/"
  const MAX_SEQ: nat := 0xFFFF_FFFF_FFFF_FFFF

  predicate Free(b: Byte, s: Bytes) {
    forall i :: 0 <= i < |s| ==> s[i] != b
  }

  // ----- hexadecimal

  function Digit(n: nat): (d: Byte)
    requires n < 16
    ensures d != NUL && d != SLASH
  {
    if n < 10 then 48 + n else 87 + n
  }

  /** A digit as `strconv.ParseUint(s, 16, 64)` reads it, in either case. */
  function DigitValue(b: Byte): Option<nat> {
    if 48 <= b <= 57 then Some(b - 48)
    else if 97 <= b <= 102 then Some(b - 87)
    else if 65 <= b <= 70 then Some(b - 55)
    else None
  }

  /** `%0*x`: the low `width` hexadecimal digits of `n`, most significant first. */
  function Hex(n: nat, width: nat): (s: Bytes)
    ensures |s| == width && Free(NUL, s) && Free(SLASH, s)
  {
    if width == 0 then [] else Hex(n / 16, width - 1) + [Digit(n % 16)]
  }

  function ParseHex(s: Bytes): Option<nat> {
    if s == [] then Some(0)
    else
      var high, low := ParseHex(s[..|s| - 1]), DigitValue(s[|s| - 1]);
      if high.Some? && low.Some? then Some(16 * high.value + low.value) else None
  }

  function Pow16(n: nat): nat {
    if n == 0 then 1 else 16 * Pow16(n - 1)
  }

  lemma {:induction false} HexRoundTrip(n: nat, width: nat)
    requires n < Pow16(width)
    ensures ParseHex(Hex(n, width)) == Some(n)
  {
    if width != 0 {
      HexRoundTrip(n / 16, width - 1);
      var s := Hex(n, width);
      assert s[..|s| - 1] == Hex(n / 16, width - 1);
    }
  }

  lemma {:induction false} ParseHexBound(s: Bytes)
    ensures ParseHex(s).Some? ==> ParseHex(s).value < Pow16(|s|)
  {
    if s != [] { ParseHexBound(s[..|s| - 1]); }
  }

  /** Equal-width hexadecimal compares as the numbers do. */
  lemma {:induction false} HexOrder(m: nat, n: nat, width: nat)
    requires m < Pow16(width) && n < Pow16(width)
    ensures Lt(Hex(m, width), Hex(n, width)) <==> m < n
  {
    if width != 0 {
      var a, b := Hex(m / 16, width - 1), Hex(n / 16, width - 1);
      HexOrder(m / 16, n / 16, width - 1);
      LtAppend(a, b, Digit(m % 16), Digit(n % 16));
      if a == b {
        HexRoundTrip(m / 16, width - 1);
        HexRoundTrip(n / 16, width - 1);
      }
    }
  }

  lemma {:induction false} LtAppend(a: Bytes, b: Bytes, x: Byte, y: Byte)
    requires |a| == |b|
    ensures Lt(a + [x], b + [y]) <==> Lt(a, b) || (a == b && x < y)
  {
    if a == [] {
      assert a + [x] == [x] && b + [y] == [y];
    } else {
      assert (a + [x])[1..] == a[1..] + [x] && (b + [y])[1..] == b[1..] + [y];
      LtAppend(a[1..], b[1..], x, y);
      if a[0] == b[0] && a[1..] == b[1..] { assert a == [a[0]] + a[1..] == b; }
    }
  }

  lemma Pow16At16()
    ensures Pow16(16) == MAX_SEQ + 1
  {
    assert Pow16(4) == 0x1_0000;
    assert Pow16(8) == 0x1_0000_0000;
    assert Pow16(12) == 0x1_0000_0000_0000;
  }

  // ----- record keys

  function BucketPrefix(bucket: Bytes): Bytes {
    NS_OBJECT + bucket + [SLASH]
  }

  function ScanPrefix(bucket: Bytes, prefix: Bytes): Bytes {
    BucketPrefix(bucket) + prefix
  }

  /** The prefix of all versions of one key. */
  function ObjectPrefix(bucket: Bytes, key: Bytes): Bytes {
    BucketPrefix(bucket) + key + [NUL]
  }

  /** The complement of the sequence, so that newer versions sort first. */
  function VerKey(seqNo: nat): (s: Bytes)
    requires seqNo <= MAX_SEQ
    ensures |s| == 16 && Free(NUL, s) && Free(SLASH, s)
  {
    Hex(MAX_SEQ - seqNo, 16)
  }

  function ObjectKey(bucket: Bytes, key: Bytes, seqNo: nat): Bytes
    requires seqNo <= MAX_SEQ
  {
    ObjectPrefix(bucket, key) + VerKey(seqNo)
  }

  function IndexByte(s: Bytes, b: Byte): (i: Option<nat>)
    ensures i.Some? ==> i.value < |s| && s[i.value] == b && forall n :: 0 <= n < i.value ==> s[n] != b
    ensures i.None? ==> Free(b, s)
  {
    if s == [] then None
    else if s[0] == b then Some(0)
    else
      var j := IndexByte(s[1..], b);
      if j.None? then None else Some(j.value + 1)
  }

  function LastIndex(s: Bytes, b: Byte): (i: Option<nat>)
    ensures i.Some? ==> i.value < |s| && s[i.value] == b && forall n :: i.value < n < |s| ==> s[n] != b
    ensures i.None? ==> Free(b, s)
  {
    if s == [] then None
    else if s[|s| - 1] == b then Some(|s| - 1)
    else LastIndex(s[..|s| - 1], b)
  }

  datatype RecordKey = RecordKey(bucket: Bytes, key: Bytes, seqNo: nat)

  function SplitObjectKey(k: Bytes): Option<RecordKey> {
    if !HasPrefix(k, NS_OBJECT) then None
    else
      var s := k[2..];
      var i := IndexByte(s, SLASH);
      if i.None? then None else SplitVersion(s[..i.value], s[i.value + 1..])
  }

  /** The second half of `SplitObjectKey`: key, separator and 16 hexadecimal digits. */
  function SplitVersion(bucket: Bytes, rest: Bytes): Option<RecordKey> {
    var j := LastIndex(rest, NUL);
    if j.None? || |rest| - j.value - 1 != 16 then None
    else
      var v := ParseHex(rest[j.value + 1..]);
      if v.None? || v.value > MAX_SEQ then None
      else Some(RecordKey(bucket, rest[..j.value], MAX_SEQ - v.value))
  }

  lemma FirstOccurrence(s: Bytes, a: Bytes, b: Byte, t: Bytes)
    requires s == a + [b] + t && Free(b, a)
    ensures IndexByte(s, b) == Some(|a|)
  {
    assert s[|a|] == b && forall n :: 0 <= n < |a| ==> s[n] == a[n];
  }

  lemma LastOccurrence(s: Bytes, a: Bytes, b: Byte, t: Bytes)
    requires s == a + [b] + t && Free(b, t)
    ensures LastIndex(s, b) == Some(|a|)
  {
    assert s[|a|] == b && forall n :: |a| < n < |s| ==> s[n] == t[n - |a| - 1];
  }

  lemma SplitVersionInverts(bucket: Bytes, key: Bytes, seqNo: nat)
    requires seqNo <= MAX_SEQ
    ensures SplitVersion(bucket, key + [NUL] + VerKey(seqNo)) == Some(RecordKey(bucket, key, seqNo))
  {
    var ver := VerKey(seqNo);
    var rest := key + [NUL] + ver;
    LastOccurrence(rest, key, NUL, ver);
    assert rest[|key| + 1..] == ver && rest[..|key|] == key;
    Pow16At16();
    HexRoundTrip(MAX_SEQ - seqNo, 16);
  }

  /** Splitting inverts encoding, for every key (even one that holds the separator). */
  lemma SplitInvertsEncode(bucket: Bytes, key: Bytes, seqNo: nat)
    requires Free(SLASH, bucket) && seqNo <= MAX_SEQ
    ensures SplitObjectKey(ObjectKey(bucket, key, seqNo)) == Some(RecordKey(bucket, key, seqNo))
  {
    var k := ObjectKey(bucket, key, seqNo);
    var rest := key + [NUL] + VerKey(seqNo);
    var s := bucket + [SLASH] + rest;
    assert k == NS_OBJECT + s;
    assert k[..2] == NS_OBJECT && k[2..] == s;
    FirstOccurrence(s, bucket, SLASH, rest);
    assert s[|bucket| + 1..] == rest && s[..|bucket|] == bucket;
    SplitVersionInverts(bucket, key, seqNo);
  }

  /** No upper-case hexadecimal digit. */
  predicate LowerCase(s: Bytes) {
    forall i :: 0 <= i < |s| ==> !(65 <= s[i] <= 70)
  }

  lemma LowerCaseTail(s: Bytes, i: nat)
    requires LowerCase(s) && i <= |s|
    ensures LowerCase(s[i..])
  {
  }

  lemma EncodeInvertsVersion(bucket: Bytes, rest: Bytes)
    requires SplitVersion(bucket, rest).Some? && LowerCase(rest)
    ensures var r := SplitVersion(bucket, rest).value;
      r.bucket == bucket && r.seqNo <= MAX_SEQ && rest == r.key + [NUL] + VerKey(r.seqNo)
  {
    var j := LastIndex(rest, NUL).value;
    LowerCaseTail(rest, j + 1);
    ParseLowerCase(rest[j + 1..]);
  }

  /** Encoding inverts splitting, for record keys written in lower case. */
  lemma EncodeInvertsSplit(k: Bytes)
    requires SplitObjectKey(k).Some? && LowerCase(k)
    ensures var r := SplitObjectKey(k).value;
      r.seqNo <= MAX_SEQ && Free(SLASH, r.bucket) && ObjectKey(r.bucket, r.key, r.seqNo) == k
  {
    var s := k[2..];
    var i := IndexByte(s, SLASH).value;
    LowerCaseTail(k, 2);
    LowerCaseTail(s, i + 1);
    EncodeInvertsVersion(s[..i], s[i + 1..]);
    var r := SplitVersion(s[..i], s[i + 1..]).value;
    Rebuild(k, s, i, r.key, VerKey(r.seqNo));
  }

  lemma Rebuild(k: Bytes, s: Bytes, i: nat, key: Bytes, ver: Bytes)
    requires HasPrefix(k, NS_OBJECT) && s == k[2..] && i < |s| && s[i] == SLASH
    requires s[i + 1..] == key + [NUL] + ver
    ensures k == NS_OBJECT + s[..i] + [SLASH] + key + [NUL] + ver
  {
    assert s == s[..i] + [SLASH] + s[i + 1..];
    assert k == k[..2] + s;
  }

  lemma {:induction false} ParseLowerCase(s: Bytes)
    requires ParseHex(s).Some? && LowerCase(s)
    ensures Hex(ParseHex(s).value, |s|) == s
  {
    if s != [] {
      var high, low := ParseHex(s[..|s| - 1]).value, DigitValue(s[|s| - 1]).value;
      ParseLowerCase(s[..|s| - 1]);
      assert (16 * high + low) / 16 == high && (16 * high + low) % 16 == low;
      assert Digit(low) == s[|s| - 1];
    }
  }

  // ----- the order of records

  /** Keys ascend; within one key the sequence descends. */
  predicate Before(k1: Bytes, s1: nat, k2: Bytes, s2: nat) {
    Lt(k1, k2) || (k1 == k2 && s1 > s2)
  }

  lemma {:induction false} SeparatorOrder(k1: Bytes, k2: Bytes, t1: Bytes, t2: Bytes)
    requires Free(NUL, k1) && Free(NUL, k2)
    ensures Lt(k1 + [NUL] + t1, k2 + [NUL] + t2) <==> Lt(k1, k2) || (k1 == k2 && Lt(t1, t2))
  {
    var a, b := k1 + [NUL] + t1, k2 + [NUL] + t2;
    if k1 == [] || k2 == [] {
      if k1 == k2 { assert a == [NUL] + t1 && b == [NUL] + t2; LtCommon([NUL], t1, t2); }
    } else if k1[0] == k2[0] {
      assert a[1..] == k1[1..] + [NUL] + t1 && b[1..] == k2[1..] + [NUL] + t2;
      SeparatorOrder(k1[1..], k2[1..], t1, t2);
      if k1[1..] == k2[1..] { assert k1 == [k1[0]] + k1[1..] == k2; }
    }
  }

  /** Byte order on record keys of a bucket is key ascending, then sequence descending. */
  lemma RecordOrder(bucket: Bytes, k1: Bytes, s1: nat, k2: Bytes, s2: nat)
    requires Free(NUL, k1) && Free(NUL, k2) && s1 <= MAX_SEQ && s2 <= MAX_SEQ
    ensures Lt(ObjectKey(bucket, k1, s1), ObjectKey(bucket, k2, s2)) <==> Before(k1, s1, k2, s2)
  {
    var p := BucketPrefix(bucket);
    var t1, t2 := VerKey(s1), VerKey(s2);
    assert ObjectKey(bucket, k1, s1) == p + (k1 + [NUL] + t1);
    assert ObjectKey(bucket, k2, s2) == p + (k2 + [NUL] + t2);
    LtCommon(p, k1 + [NUL] + t1, k2 + [NUL] + t2);
    SeparatorOrder(k1, k2, t1, t2);
    Pow16At16();
    HexOrder(MAX_SEQ - s1, MAX_SEQ - s2, 16);
  }

  /** A record lies under a scan prefix exactly when its key has the (NUL-free) prefix. */
  lemma ScanMeaning(bucket: Bytes, prefix: Bytes, key: Bytes, seqNo: nat)
    requires Free(NUL, prefix) && Free(NUL, key) && seqNo <= MAX_SEQ
    ensures HasPrefix(ObjectKey(bucket, key, seqNo), ScanPrefix(bucket, prefix)) <==> HasPrefix(key, prefix)
  {
    var p := BucketPrefix(bucket);
    var rest := key + [NUL] + VerKey(seqNo);
    var k := ObjectKey(bucket, key, seqNo);
    assert k == p + rest;
    if HasPrefix(k, p + prefix) {
      assert prefix == (p + prefix)[|p|..] == k[|p|..|p| + |prefix|] == rest[..|prefix|];
      assert rest[|key|] == NUL && forall i :: 0 <= i < |prefix| ==> prefix[i] == rest[i];
      assert |prefix| <= |key|;
      assert rest[..|prefix|] == key[..|prefix|];
    }
    if HasPrefix(key, prefix) {
      assert k[..|p + prefix|] == p + key[..|prefix|];
    }
  }

  /** A record lies under the version prefix of a key exactly when it is a version of it. */
  lemma VersionsMeaning(bucket: Bytes, other: Bytes, key: Bytes, seqNo: nat)
    requires Free(NUL, other) && Free(NUL, key) && seqNo <= MAX_SEQ
    ensures HasPrefix(ObjectKey(bucket, key, seqNo), ObjectPrefix(bucket, other)) <==> key == other
  {
    var p := BucketPrefix(bucket);
    var rest := key + [NUL] + VerKey(seqNo);
    var k := ObjectKey(bucket, key, seqNo);
    assert k == p + rest;
    if HasPrefix(k, p + other + [NUL]) {
      assert other + [NUL] == (p + other + [NUL])[|p|..] == k[|p|..|p| + |other| + 1] == rest[..|other| + 1];
      var q := other + [NUL];
      assert q[|other|] == NUL && rest[|other|] == NUL && rest[|key|] == NUL;
      assert forall i :: 0 <= i < |key| ==> rest[i] == key[i];
      assert forall i :: 0 <= i < |other| ==> rest[i] == q[i] == other[i];
      assert |other| == |key|;
      assert other == q[..|other|] == rest[..|other|] == key;
    }
    if key == other {
      assert k[..|p + other + [NUL]|] == p + other + [NUL];
    }
  }

  // ----- resuming

  /** No byte string lies between a key and the key followed by a zero byte. */
  lemma {:induction false} NothingBetween(k: Bytes, x: Bytes)
    ensures Lt(x, k + [NUL]) <==> Le(x, k)
  {
    if k == [] {
      assert k + [NUL] == [NUL];
    } else {
      assert (k + [NUL])[1..] == k[1..] + [NUL];
      if x != [] {
        NothingBetween(k[1..], x[1..]);
        if x[0] == k[0] && x[1..] == k[1..] { assert x == [x[0]] + x[1..] == k; }
      }
    }
  }

  /** Seeking just past a key lands on the next one. */
  lemma SeekAfter(keys: seq<Bytes>, i: nat)
    requires Ascending(keys) && i < |keys|
    ensures Seek(keys, keys[i] + [NUL]) == i + 1
  {
    var s := keys[i] + [NUL];
    NothingBetween(keys[i], keys[i]);
    SeekSplits(keys, s, i);
    if i + 1 < |keys| {
      NothingBetween(keys[i], keys[i + 1]);
      LtAsymmetric(keys[i], keys[i + 1]);
      SeekSplits(keys, s, i + 1);
    }
  }
}
