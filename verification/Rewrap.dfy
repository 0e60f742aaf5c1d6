/** Re-wrapping everything under the current master key, in interruptible batches
    (internal/masterkey/rewrap.go), and the commands that rotate and retire keys
    (cmd/opens3/master.go). */
module Rewrap {
  import opened Kv
  import opened Kms
  import Keys

  // ----- records

  /** A stored record: malformed, or some content with the value the ring may have wrapped. */
  datatype Value = Value(content: Bytes, wrapped: Option<Wrapped>) | Malformed(junk: Bytes)

  /** The five classes of records that are walked. */
  datatype Space = CheckValue | NamedKeys | Secrets | Objects | Uploads

  const SPACES := [CheckValue, NamedKeys, Secrets, Objects, Uploads]

  const CHECK_KEY: Bytes := [105, 47, 107, 109, 115, 47, 46, 109, 97, 115, 116, 101, 114, 45, 99, 104, 101, 99, 107]  // "i/kms/.master-check"
  const KMS_PREFIX: Bytes := [105, 47, 107, 109, 115, 47]                                                             // "i/kms/"
  const SECRET_PREFIX: Bytes := [105, 47, 107, 47]                                                                    // "i/k/"
  const UPLOAD_PREFIX: Bytes := [117, 47]                                                                             // "u/"

  function Prefix(sp: Space): Bytes {
    match sp
    case CheckValue => CHECK_KEY
    case NamedKeys => KMS_PREFIX
    case Secrets => SECRET_PREFIX
    case Objects => Keys.NS_OBJECT
    case Uploads => UPLOAD_PREFIX
  }

  /** What a codec makes of a record. */
  datatype Decoded = Protected(wrapped: Wrapped, aad: Aad) | NotWrapped | Bad

  /** The bytes a record holds in place of a wrapped value; none are as good as junk. */
  function Stored(v: Value): Wrapped {
    if v.Value? && v.wrapped.Some? then v.wrapped.value else Corrupt([])
  }

  function Codec(sp: Space, key: Bytes, v: Value): Decoded {
    match sp
    case CheckValue =>
      if key != CHECK_KEY then NotWrapped else Protected(Stored(v), CheckAad)
    case NamedKeys =>
      if key == CHECK_KEY then NotWrapped
      else if v.Malformed? then Bad
      else Protected(Stored(v), KeyAad(if HasPrefix(key, KMS_PREFIX) then key[|KMS_PREFIX|..] else key))
    case Secrets =>
      if v.Malformed? then Bad else Protected(Stored(v), SecretAad)
    case Objects =>
      if v.Malformed? then Bad
      else if v.wrapped.None? then NotWrapped
      else if Keys.SplitObjectKey(key).None? then Bad
      else Protected(v.wrapped.value, BucketAad(Keys.SplitObjectKey(key).value.bucket))
    case Uploads =>
      if v.Malformed? then Bad
      else if v.wrapped.None? then NotWrapped
      else
        var rest := if HasPrefix(key, UPLOAD_PREFIX) then key[|UPLOAD_PREFIX|..] else key;
        var i := Keys.IndexByte(rest, Keys.SLASH);
        if i.None? then Bad else Protected(v.wrapped.value, BucketAad(rest[..i.value]))
  }

  function Rebuild(v: Value, w: Wrapped): Value {
    if v.Value? then v.(wrapped := Some(w)) else v
  }

  /** The ring index a record is wrapped under, -1 if no key opens it, -2 if the ring does not
      wrap it. */
  function Class(ring: seq<MasterKey>, sp: Space, key: Bytes, v: Value): (c: int)
    ensures -2 <= c < |ring|
  {
    var d := Codec(sp, key, v);
    if HasPrefix(key, Prefix(sp)) && d.Protected? then IndexOf(ring, d.wrapped, d.aad) else -2
  }

  /** What the ring reads from a record of the class. */
  function Reads(ring: seq<MasterKey>, sp: Space, key: Bytes, v: Value): Option<Bytes> {
    var d := Codec(sp, key, v);
    if HasPrefix(key, Prefix(sp)) && d.Protected? then Plain(ring, d.wrapped, d.aad) else None
  }

  /** A key belongs to one class: the check value lies under the prefix of the named keys, but
      their codec passes it over. */
  lemma OneSpace(key: Bytes, v: Value, sp: Space, sq: Space)
    requires HasPrefix(key, Prefix(sp)) && Codec(sp, key, v).Protected? && HasPrefix(key, Prefix(sq)) && sp != sq
    ensures !Codec(sq, key, v).Protected?
  {
    StartsWith(key, Prefix(sp));
    StartsWith(key, Prefix(sq));
  }

  lemma StartsWith(key: Bytes, p: Bytes)
    requires HasPrefix(key, p)
    ensures p != [] ==> key != [] && key[0] == p[0]
    ensures |p| > 3 ==> |key| > 3 && key[3] == p[3]
  {
  }

  /** Re-wrapping a record under the current key: the ring reads the same from it, whatever the
      class it is read as, and now with the current key. */
  lemma RewrapRecord(ring: seq<MasterKey>, sp: Space, key: Bytes, v: Value, sq: Space)
    requires Class(ring, sp, key, v) >= 0
    ensures var d := Codec(sp, key, v);
      var v' := Rebuild(v, Sealed(ring[0].key, d.aad, d.wrapped.plain));
      Class(ring, sp, key, v') == 0 && v'.Value? && v.Value? && v'.content == v.content &&
      Reads(ring, sq, key, v') == Reads(ring, sq, key, v) && (sq != sp ==> Class(ring, sq, key, v') == Class(ring, sq, key, v))
  {
    hide Keys.SplitObjectKey, Keys.IndexByte;
    var d := Codec(sp, key, v);
    var v' := Rebuild(v, Sealed(ring[0].key, d.aad, d.wrapped.plain));
    assert Opens(ring[0], v'.wrapped.value, d.aad);
    if sq != sp && HasPrefix(key, Prefix(sq)) {
      OneSpace(key, v, sp, sq);
      OneSpace(key, v', sp, sq);
    }
  }

  // ----- the store

  class Store {
    var keys: seq<Bytes>
    var values: seq<Value>

    ghost predicate Valid()
      reads this
    {
      |keys| == |values| && Ascending(keys)
    }

    constructor (keys: seq<Bytes>, values: seq<Value>)
      requires |keys| == |values| && Ascending(keys)
      ensures Valid() && this.keys == keys && this.values == values
    {
      this.keys, this.values := keys, values;
    }
  }

  /** Nothing is lost: every record keeps its content and its plaintext. */
  ghost predicate Preserved(ring: seq<MasterKey>, keys: seq<Bytes>, values: seq<Value>, values': seq<Value>)
    requires |keys| == |values|
  {
    && |values'| == |values|
    && forall i :: 0 <= i < |keys| ==> Kept(ring, keys[i], values[i], values'[i])
  }

  ghost predicate Kept(ring: seq<MasterKey>, key: Bytes, v: Value, v': Value) {
    && (v' == v || (v'.Value? && v.Value? && v'.content == v.content))
    && forall sp: Space :: Reads(ring, sp, key, v') == Reads(ring, sp, key, v)
  }

  // ----- counting

  ghost function Count(ring: seq<MasterKey>, sp: Space, keys: seq<Bytes>, values: seq<Value>, lo: nat, hi: nat, c: int): nat
    requires lo <= hi <= |keys| == |values|
  {
    if lo == hi then 0
    else Count(ring, sp, keys, values, lo, hi - 1, c) + if Class(ring, sp, keys[hi - 1], values[hi - 1]) == c then 1 else 0
  }

  function Sum(s: seq<nat>): nat {
    if s == [] then 0 else Sum(s[..|s| - 1]) + s[|s| - 1]
  }

  lemma {:induction false} SumUpdate(s: seq<nat>, i: nat, v: nat)
    requires i < |s|
    ensures Sum(s[i := v]) == Sum(s) - s[i] + v
    decreases |s|
  {
    var init := s[..|s| - 1];
    if i < |s| - 1 {
      SumUpdate(init, i, v);
      assert s[i := v][..|s| - 1] == init[i := v];
    } else {
      assert s[i := v][..|s| - 1] == init;
    }
  }

  lemma {:induction false} SumZero(s: seq<nat>)
    ensures Sum(s) == 0 <==> forall i :: 0 <= i < |s| ==> s[i] == 0
    decreases |s|
  {
    if s != [] { SumZero(s[..|s| - 1]); }
  }

  /** Changing one record moves it from one class to another. */
  lemma {:induction false} CountUpdate(ring: seq<MasterKey>, sp: Space, keys: seq<Bytes>, values: seq<Value>, lo: nat, hi: nat, p: nat, v: Value, c: int)
    requires lo <= p < hi <= |keys| == |values|
    ensures var before, after := Class(ring, sp, keys[p], values[p]), Class(ring, sp, keys[p], v);
      Count(ring, sp, keys, values[p := v], lo, hi, c) ==
        Count(ring, sp, keys, values, lo, hi, c) - (if before == c then 1 else 0) + (if after == c then 1 else 0)
    decreases hi
  {
    hide Class;
    if p < hi - 1 {
      CountUpdate(ring, sp, keys, values, lo, hi - 1, p, v, c);
    } else {
      CountOutside(ring, sp, keys, values, values[p := v], lo, hi - 1, c);
    }
  }

  lemma {:induction false} CountOutside(ring: seq<MasterKey>, sp: Space, keys: seq<Bytes>, values: seq<Value>, values': seq<Value>, lo: nat, hi: nat, c: int)
    requires lo <= hi <= |keys| == |values| == |values'|
    requires forall i :: lo <= i < hi ==> Class(ring, sp, keys[i], values'[i]) == Class(ring, sp, keys[i], values[i])
    ensures Count(ring, sp, keys, values', lo, hi, c) == Count(ring, sp, keys, values, lo, hi, c)
    decreases hi
  {
    hide Class;
    if lo < hi { CountOutside(ring, sp, keys, values, values', lo, hi - 1, c); }
  }

  lemma {:induction false} CountZero(ring: seq<MasterKey>, sp: Space, keys: seq<Bytes>, values: seq<Value>, lo: nat, hi: nat, c: int)
    requires lo <= hi <= |keys| == |values|
    ensures Count(ring, sp, keys, values, lo, hi, c) == 0 <==>
      forall i :: lo <= i < hi ==> Class(ring, sp, keys[i], values[i]) != c
    decreases hi
  {
    hide Class;
    if lo < hi { CountZero(ring, sp, keys, values, lo, hi - 1, c); }
  }

  /** The outcome for one class of records. */
  class Kind {
    var total: nat
    var byKey: seq<nat>
    var unreadable: nat
    var rewrapped: nat

    constructor (n: nat)
      ensures total == 0 && byKey == seq(n, _ => 0) && unreadable == 0 && rewrapped == 0
    {
      total, byKey, unreadable, rewrapped := 0, seq(n, _ => 0), 0, 0;
    }

    /** The counts are those of the records from `lo` to `hi`, as they are now. */
    ghost predicate Tallies(ring: seq<MasterKey>, sp: Space, keys: seq<Bytes>, values: seq<Value>, lo: nat, hi: nat)
      requires lo <= hi <= |keys| == |values|
      reads this
    {
      && |byKey| == |ring|
      && total == Sum(byKey) + unreadable
      && unreadable == Count(ring, sp, keys, values, lo, hi, -1)
      && forall j :: 0 <= j < |ring| ==> byKey[j] == Count(ring, sp, keys, values, lo, hi, j)
    }

    /** Count the record at position `i`, which the ring key `index` opens (-1 for none). */
    method Note(index: int, ghost ring: seq<MasterKey>, ghost sp: Space, ghost keys: seq<Bytes>, ghost values: seq<Value>, ghost lo: nat, ghost i: nat)
      requires lo <= i < |keys| == |values| && Tallies(ring, sp, keys, values, lo, i)
      requires -1 <= index < |ring| && index == Class(ring, sp, keys[i], values[i])
      modifies this
      ensures Tallies(ring, sp, keys, values, lo, i + 1) && rewrapped == old(rewrapped)
    {
      hide Class, Sum;
      CountNext(ring, sp, keys, values, lo, i);
      hide Count;
      total := total + 1;
      if index < 0 {
        unreadable := unreadable + 1;
      } else {
        SumUpdate(byKey, index, byKey[index] + 1);
        byKey := byKey[index := byKey[index] + 1];
      }
    }

    /** The record at position `p` moves from an older key to the current one. */
    method Move(index: int, ghost ring: seq<MasterKey>, ghost sp: Space, ghost keys: seq<Bytes>, ghost values: seq<Value>, ghost lo: nat,
                ghost hi: nat, ghost p: nat, ghost v: Value)
      requires lo <= p < hi <= |keys| == |values| && Tallies(ring, sp, keys, values, lo, hi)
      requires 0 < index < |ring| && index == Class(ring, sp, keys[p], values[p]) && Class(ring, sp, keys[p], v) == 0
      modifies this
      ensures Tallies(ring, sp, keys, values[p := v], lo, hi) && rewrapped == old(rewrapped) + 1
    {
      hide Class, Sum;
      CountZero(ring, sp, keys, values, lo, hi, index);
      forall c: int
        ensures Count(ring, sp, keys, values[p := v], lo, hi, c) ==
          Count(ring, sp, keys, values, lo, hi, c) - (if index == c then 1 else 0) + (if 0 == c then 1 else 0)
      {
        CountUpdate(ring, sp, keys, values, lo, hi, p, v, c);
      }
      hide Count;
      rewrapped := rewrapped + 1;
      SumUpdate(byKey, index, byKey[index] - 1);
      byKey := byKey[index := byKey[index] - 1];
      SumUpdate(byKey, 0, byKey[0] + 1);
      byKey := byKey[0 := byKey[0] + 1];
    }

    /** The number of records still under an older key. */
    method Stale() returns (n: nat)
      ensures n == StaleSum(byKey)
    {
      n := 0;
      var i := 1;
      while i < |byKey|
        invariant byKey == [] || 1 <= i <= |byKey|
        invariant n == if byKey == [] then 0 else Sum(byKey[1..i])
      {
        assert byKey[1..i + 1][..i - 1] == byKey[1..i];
        n := n + byKey[i];
        i := i + 1;
      }
      assert byKey != [] ==> byKey[1..|byKey|] == byKey[1..];
    }
  }

  function StaleSum(byKey: seq<nat>): nat {
    if byKey == [] then 0 else Sum(byKey[1..])
  }

  /** No record of the class is under an older key. */
  ghost predicate NoneStale(ring: seq<MasterKey>, sp: Space, keys: seq<Bytes>, values: seq<Value>)
    requires |keys| == |values|
  {
    forall i :: 0 <= i < |keys| ==> Class(ring, sp, keys[i], values[i]) <= 0
  }

  /** The records of the class lie between two positions. */
  ghost predicate Covers(sp: Space, keys: seq<Bytes>, lo: nat, hi: nat) {
    forall i :: 0 <= i < |keys| && HasPrefix(keys[i], Prefix(sp)) ==> lo <= i < hi
  }

  /** When the counts cover all records, no stale count means no stale record. */
  lemma StaleMeans(k: Kind, ring: seq<MasterKey>, sp: Space, keys: seq<Bytes>, values: seq<Value>, lo: nat, hi: nat)
    requires lo <= hi <= |keys| == |values| && k.Tallies(ring, sp, keys, values, lo, hi) && Covers(sp, keys, lo, hi)
    ensures StaleSum(k.byKey) == 0 <==> NoneStale(ring, sp, keys, values)
  {
    hide Sum, Count;
    ClassOutside(ring, sp, keys, values, lo, hi);
    if k.byKey != [] {
      SumZero(k.byKey[1..]);
      assert forall j :: 1 <= j < |ring| ==> k.byKey[j] == k.byKey[1..][j - 1];
      assert StaleSum(k.byKey) == 0 <==> forall j :: 1 <= j < |ring| ==> k.byKey[j] == 0;
      hide Class, StaleSum;
      forall j | 1 <= j < |ring|
        ensures k.byKey[j] == 0 <==> forall i :: lo <= i < hi ==> Class(ring, sp, keys[i], values[i]) != j
      {
        CountZero(ring, sp, keys, values, lo, hi, j);
      }
      forall i | lo <= i < hi && Class(ring, sp, keys[i], values[i]) > 0
        ensures StaleSum(k.byKey) != 0
      {
        assert k.byKey[Class(ring, sp, keys[i], values[i])] != 0;
      }
    }
  }

  lemma ClassOutside(ring: seq<MasterKey>, sp: Space, keys: seq<Bytes>, values: seq<Value>, lo: nat, hi: nat)
    requires |keys| == |values| && Covers(sp, keys, lo, hi)
    ensures forall i :: 0 <= i < |keys| && !(lo <= i < hi) ==> Class(ring, sp, keys[i], values[i]) == -2
  {
  }

  // ----- the walk

  /** Keys under a prefix are contiguous. */
  lemma {:induction false} BeyondPrefix(p: Bytes, x: Bytes, y: Bytes)
    requires !Lt(x, p) && !HasPrefix(x, p) && HasPrefix(y, p)
    ensures Lt(y, x)
    decreases |p|
  {
    if x != [] && p != [] && x[0] == p[0] {
      PrefixRest(p, x);
      PrefixRest(p, y);
      BeyondPrefix(p[1..], x[1..], y[1..]);
    }
  }

  lemma PrefixRest(p: Bytes, x: Bytes)
    requires p != []
    ensures HasPrefix(x, p) <==> x != [] && x[0] == p[0] && HasPrefix(x[1..], p[1..])
  {
    if x != [] && |x| >= |p| {
      assert x[..|p|] == [x[0]] + x[1..][..|p| - 1];
      assert p == [p[0]] + p[1..];
    }
  }

  lemma RangeEnds(sp: Space, keys: seq<Bytes>, hi: nat)
    requires Ascending(keys) && Seek(keys, Prefix(sp)) <= hi <= |keys|
    requires hi < |keys| ==> !HasPrefix(keys[hi], Prefix(sp))
    ensures Covers(sp, keys, Seek(keys, Prefix(sp)), hi)
  {
    hide Prefix, Seek, Lt, Ascending;
    forall i | 0 <= i < |keys| && HasPrefix(keys[i], Prefix(sp))
      ensures Seek(keys, Prefix(sp)) <= i < hi
    {
      InRange(Prefix(sp), keys, hi, i);
    }
  }

  lemma InRange(p: Bytes, keys: seq<Bytes>, hi: nat, i: nat)
    requires Ascending(keys) && Seek(keys, p) <= hi <= |keys| && (hi < |keys| ==> !HasPrefix(keys[hi], p))
    requires i < |keys| && HasPrefix(keys[i], p)
    ensures Seek(keys, p) <= i < hi
  {
    hide Seek, Lt;
    PrefixLe(p, keys[i]);
    LtIrreflexive(p);
    if p != keys[i] { LtAsymmetric(p, keys[i]); }
    if i >= hi {
      SeekSplits(keys, p, hi);
      BeyondPrefix(p, keys[hi], keys[i]);
      LtAsymmetric(keys[i], keys[hi]);
    }
  }

  lemma SeekFinds(keys: seq<Bytes>, i: nat)
    requires Ascending(keys) && i < |keys|
    ensures Seek(keys, keys[i]) == i
  {
    LtIrreflexive(keys[i]);
    SeekSplits(keys, keys[i], i);
    assert forall j :: 0 <= j < i ==> Lt(keys[j], keys[i]);
  }

  /** A record joins the counts. */
  lemma CountNext(ring: seq<MasterKey>, sp: Space, keys: seq<Bytes>, values: seq<Value>, lo: nat, i: nat)
    requires lo <= i < |keys| == |values|
    ensures forall c: int ::
      Count(ring, sp, keys, values, lo, i + 1, c) ==
      Count(ring, sp, keys, values, lo, i, c) + if Class(ring, sp, keys[i], values[i]) == c then 1 else 0
  {
    hide Class;
  }

  lemma ClassIs(ring: seq<MasterKey>, sp: Space, key: Bytes, v: Value)
    requires HasPrefix(key, Prefix(sp))
    ensures var d := Codec(sp, key, v);
      Class(ring, sp, key, v) == if d.Protected? then IndexOf(ring, d.wrapped, d.aad) else -2
  {
    hide Codec, Prefix;
  }

  /** A record that the ring does not wrap is not counted. */
  lemma PassedOver(k: Kind, ring: seq<MasterKey>, sp: Space, keys: seq<Bytes>, values: seq<Value>, lo: nat, i: nat)
    requires lo <= i < |keys| == |values| && k.Tallies(ring, sp, keys, values, lo, i) && Class(ring, sp, keys[i], values[i]) == -2
    ensures k.Tallies(ring, sp, keys, values, lo, i + 1)
  {
    CountNext(ring, sp, keys, values, lo, i);
    hide Class, Count, Sum;
  }

  /** The collected keys are those of records of the class, at the given positions. */
  ghost predicate Listed(sp: Space, keys: seq<Bytes>, stale: seq<Bytes>, pos: seq<nat>, lo: nat, hi: nat) {
    |pos| == |stale| && hi <= |keys| &&
    forall m :: 0 <= m < |pos| ==> lo <= pos[m] < hi && stale[m] == keys[pos[m]] && HasPrefix(stale[m], Prefix(sp))
  }

  /** Every stale record of a stretch is collected. */
  ghost predicate AllStale(ring: seq<MasterKey>, sp: Space, keys: seq<Bytes>, values: seq<Value>, pos: seq<nat>, first: nat, end: nat)
    requires end <= |keys| == |values|
  {
    forall i: nat :: first <= i < end && Class(ring, sp, keys[i], values[i]) > 0 ==> i in pos
  }

  lemma NothingStale(ring: seq<MasterKey>, sp: Space, keys: seq<Bytes>, values: seq<Value>, lo: nat, i: nat)
    requires i <= |keys| == |values|
    ensures Listed(sp, keys, [], [], lo, i) && AllStale(ring, sp, keys, values, [], i, i)
  {
  }

  /** The record at `i` is stale and collected, or it is not stale. */
  lemma StaleNext(ring: seq<MasterKey>, sp: Space, keys: seq<Bytes>, values: seq<Value>, stale: seq<Bytes>, pos: seq<nat>, lo: nat, first: nat, i: nat)
    requires lo <= i < |keys| == |values| && HasPrefix(keys[i], Prefix(sp))
    requires Listed(sp, keys, stale, pos, lo, i) && AllStale(ring, sp, keys, values, pos, first, i)
    ensures Class(ring, sp, keys[i], values[i]) <= 0 ==>
      Listed(sp, keys, stale, pos, lo, i + 1) && AllStale(ring, sp, keys, values, pos, first, i + 1)
    ensures Listed(sp, keys, stale + [keys[i]], pos + [i], lo, i + 1) && AllStale(ring, sp, keys, values, pos + [i], first, i + 1)
  {
    hide Class, Prefix;
  }

  /** Records of the class moved to the current key; nothing else changed class or meaning. */
  ghost predicate Improved(ring: seq<MasterKey>, sp: Space, keys: seq<Bytes>, values: seq<Value>, values': seq<Value>)
    requires |keys| == |values|
  {
    |values'| == |values| && forall i :: 0 <= i < |keys| ==> Better(ring, sp, keys[i], values[i], values'[i])
  }

  ghost predicate Better(ring: seq<MasterKey>, sp: Space, key: Bytes, v: Value, v': Value) {
    && Kept(ring, key, v, v')
    && (Class(ring, sp, key, v') == Class(ring, sp, key, v) || (Class(ring, sp, key, v) > 0 && Class(ring, sp, key, v') == 0))
    && forall sq: Space :: sq != sp ==> Class(ring, sq, key, v') == Class(ring, sq, key, v)
  }

  lemma ImprovedSame(ring: seq<MasterKey>, sp: Space, keys: seq<Bytes>, values: seq<Value>)
    requires |keys| == |values|
    ensures Improved(ring, sp, keys, values, values)
  {
    hide Class, Reads;
  }

  lemma ImprovedOne(ring: seq<MasterKey>, sp: Space, keys: seq<Bytes>, values: seq<Value>, values': seq<Value>, i: nat, v: Value)
    requires |keys| == |values| && i < |keys| && Improved(ring, sp, keys, values, values') && Better(ring, sp, keys[i], values'[i], v)
    ensures Improved(ring, sp, keys, values, values'[i := v])
  {
    BetterTwice(ring, sp, keys[i], values[i], values'[i], v);
    hide Better;
  }

  lemma BetterTwice(ring: seq<MasterKey>, sp: Space, key: Bytes, v: Value, v': Value, v'': Value)
    requires Better(ring, sp, key, v, v') && Better(ring, sp, key, v', v'')
    ensures Better(ring, sp, key, v, v'')
  {
    hide Class, Reads;
  }

  lemma ImprovedTwice(ring: seq<MasterKey>, sp: Space, keys: seq<Bytes>, values: seq<Value>, values': seq<Value>, values'': seq<Value>)
    requires |keys| == |values| && Improved(ring, sp, keys, values, values') && Improved(ring, sp, keys, values', values'')
    ensures Improved(ring, sp, keys, values, values'')
  {
    forall i | 0 <= i < |keys|
      ensures Better(ring, sp, keys[i], values[i], values''[i])
    {
      BetterTwice(ring, sp, keys[i], values[i], values'[i], values''[i]);
    }
    hide Better;
  }

  lemma RewrapIsBetter(ring: seq<MasterKey>, sp: Space, key: Bytes, v: Value)
    requires Class(ring, sp, key, v) > 0
    ensures var d := Codec(sp, key, v);
      Better(ring, sp, key, v, Rebuild(v, Sealed(ring[0].key, d.aad, d.wrapped.plain)))
    ensures var d := Codec(sp, key, v); Class(ring, sp, key, Rebuild(v, Sealed(ring[0].key, d.aad, d.wrapped.plain))) == 0
  {
    var d := Codec(sp, key, v);
    hide Reads, Codec, Rebuild;
    forall sq: Space { RewrapRecord(ring, sp, key, v, sq); }
    hide Class;
  }

  /** No record of a stretch is under an older key. */
  ghost predicate Clean(ring: seq<MasterKey>, sp: Space, keys: seq<Bytes>, values: seq<Value>, lo: nat, hi: nat)
    requires hi <= |keys| == |values|
  {
    forall i: nat :: lo <= i < hi ==> Class(ring, sp, keys[i], values[i]) <= 0
  }

  /** After a batch is rewritten the stretch is clean up to its end. */
  lemma CleanNext(ring: seq<MasterKey>, sp: Space, keys: seq<Bytes>, values: seq<Value>, values': seq<Value>, pos: seq<nat>, lo: nat, cur: nat, hi: nat)
    requires lo <= cur <= hi <= |keys| == |values| && Clean(ring, sp, keys, values, lo, cur)
    requires AllStale(ring, sp, keys, values, pos, cur, hi) && Improved(ring, sp, keys, values, values')
    requires forall m :: 0 <= m < |pos| ==> pos[m] < |keys| && Class(ring, sp, keys[pos[m]], values'[pos[m]]) <= 0
    ensures Clean(ring, sp, keys, values', lo, hi)
  {
    hide Class, Kept;
  }

  lemma CleanMeans(ring: seq<MasterKey>, sp: Space, keys: seq<Bytes>, values: seq<Value>, lo: nat, hi: nat)
    requires hi <= |keys| == |values| && Clean(ring, sp, keys, values, lo, hi) && Covers(sp, keys, lo, hi)
    ensures NoneStale(ring, sp, keys, values)
  {
    ClassOutside(ring, sp, keys, values, lo, hi);
    hide Class, Covers;
  }

  class Runner {
    const db: Store
    const ring: Master
    const dryRun: bool
    const batch: nat
    /** The number of transactions until the run is interrupted. */
    var budget: nat

    constructor (db: Store, ring: Master, dryRun: bool, batch: int, budget: nat)
      ensures this.db == db && this.ring == ring && this.dryRun == dryRun && this.budget == budget
      ensures this.batch == if batch <= 0 then 1000 else batch
    {
      this.db, this.ring, this.dryRun, this.budget := db, ring, dryRun, budget;
      this.batch := if batch <= 0 then 1000 else batch;
    }

    /** The read transaction of one batch: count its records and collect the stale keys. */
    method Scan(sp: Space, k: Kind, start: Bytes, ghost lo: nat)
      returns (ok: bool, stale: seq<Bytes>, last: Bytes, n: nat, ghost pos: seq<nat>)
      requires db.Valid() && ring.keys != [] && lo <= Seek(db.keys, start)
      requires k.Tallies(ring.keys, sp, db.keys, db.values, lo, Seek(db.keys, start))
      modifies k
      ensures k.total == Sum(k.byKey) + k.unreadable && k.rewrapped == old(k.rewrapped)
      ensures ok ==> Seek(db.keys, start) + n <= |db.keys| && n <= batch
      ensures ok ==> k.Tallies(ring.keys, sp, db.keys, db.values, lo, Seek(db.keys, start) + n)
      ensures ok && n > 0 ==> last == db.keys[Seek(db.keys, start) + n - 1]
      ensures ok && n < batch ==>
        var end := Seek(db.keys, start) + n; end < |db.keys| ==> !HasPrefix(db.keys[end], Prefix(sp))
      ensures ok ==> Listed(sp, db.keys, stale, pos, lo, Seek(db.keys, start) + n)
      ensures ok ==> AllStale(ring.keys, sp, db.keys, db.values, pos, Seek(db.keys, start), Seek(db.keys, start) + n)
    {
      hide Count, Sum, Codec, Class, Prefix, Ascending, Listed, AllStale, Seek, IndexOf;
      stale, last, n, pos := [], [], 0, [];
      NothingStale(ring.keys, sp, db.keys, db.values, lo, Seek(db.keys, start));
      var i := Seek(db.keys, start);
      while i < |db.keys| && HasPrefix(db.keys[i], Prefix(sp)) && n < batch
        invariant i == Seek(db.keys, start) + n <= |db.keys| && n <= batch
        invariant k.Tallies(ring.keys, sp, db.keys, db.values, lo, i) && k.rewrapped == old(k.rewrapped)
        invariant n > 0 ==> last == db.keys[i - 1]
        invariant Listed(sp, db.keys, stale, pos, lo, i)
        invariant AllStale(ring.keys, sp, db.keys, db.values, pos, Seek(db.keys, start), i)
      {
        n := n + 1;
        last := db.keys[i];
        var d := Codec(sp, db.keys[i], db.values[i]);
        if d.Bad? { return false, stale, last, n, pos; }
        ClassIs(ring.keys, sp, db.keys[i], db.values[i]);
        StaleNext(ring.keys, sp, db.keys, db.values, stale, pos, lo, Seek(db.keys, start), i);
        if d.Protected? {
          var idx, _ := ring.UnwrapIndex(d.wrapped, d.aad);
          k.Note(idx, ring.keys, sp, db.keys, db.values, lo, i);
          if idx > 0 {
            stale := stale + [db.keys[i]];
            pos := pos + [i];
          }
        } else {
          PassedOver(k, ring.keys, sp, db.keys, db.values, lo, i);
        }
        i := i + 1;
      }
      ok := true;
    }
  
    /** The write transaction of one batch: re-read each stale record and re-wrap it. */
    method Rewrite(sp: Space, k: Kind, stale: seq<Bytes>, ghost pos: seq<nat>, ghost lo: nat, ghost hi: nat)
      requires db.Valid() && ring.keys != [] && lo <= hi <= |db.keys|
      requires k.Tallies(ring.keys, sp, db.keys, db.values, lo, hi) && Listed(sp, db.keys, stale, pos, lo, hi)
      modifies db`values, k
      ensures db.Valid() && Improved(ring.keys, sp, db.keys, old(db.values), db.values)
      ensures k.Tallies(ring.keys, sp, db.keys, db.values, lo, hi) && k.total == Sum(k.byKey) + k.unreadable
      ensures forall m :: 0 <= m < |pos| ==> Class(ring.keys, sp, db.keys[pos[m]], db.values[pos[m]]) <= 0
    {
      hide Count, Sum, Codec, Class, Prefix, Ascending, Improved, Better, Rebuild, Seek, IndexOf;
      ImprovedSame(ring.keys, sp, db.keys, db.values);
      var m := 0;
      while m < |stale|
        invariant 0 <= m <= |stale| && db.Valid() && Improved(ring.keys, sp, db.keys, old(db.values), db.values)
        invariant k.Tallies(ring.keys, sp, db.keys, db.values, lo, hi)
        invariant forall n :: 0 <= n < m ==> Class(ring.keys, sp, db.keys[pos[n]], db.values[pos[n]]) <= 0
      {
        SeekFinds(db.keys, pos[m]);
        var i := Seek(db.keys, stale[m]);
        if i < |db.keys| && db.keys[i] == stale[m] {
          var d := Codec(sp, db.keys[i], db.values[i]);
          ClassIs(ring.keys, sp, db.keys[i], db.values[i]);
          if d.Protected? {
            var idx, plain := ring.UnwrapIndex(d.wrapped, d.aad);
            if idx > 0 {
              var v := Rebuild(db.values[i], Sealed(ring.keys[0].key, d.aad, plain));
              RewrapIsBetter(ring.keys, sp, db.keys[i], db.values[i]);
              ImprovedOne(ring.keys, sp, db.keys, old(db.values), db.values, i, v);
              k.Move(idx, ring.keys, sp, db.keys, db.values, lo, hi, i, v);
              db.values := db.values[i := v];
            }
          }
        }
        m := m + 1;
      }
    }
  
    /** One batch: a read transaction and, when it found stale records, a write transaction. */
    method Batch(sp: Space, k: Kind, start: Bytes, ghost lo: nat) returns (ok: bool, last: Bytes, n: nat)
      requires db.Valid() && ring.keys != [] && lo <= Seek(db.keys, start)
      requires k.Tallies(ring.keys, sp, db.keys, db.values, lo, Seek(db.keys, start))
      requires !dryRun ==> Clean(ring.keys, sp, db.keys, db.values, lo, Seek(db.keys, start))
      requires k.total == Sum(k.byKey) + k.unreadable
      modifies this`budget, db`values, k
      ensures db.Valid() && Improved(ring.keys, sp, db.keys, old(db.values), db.values)
      ensures k.total == Sum(k.byKey) + k.unreadable && (dryRun ==> db.values == old(db.values))
      ensures ok ==> Seek(db.keys, start) + n <= |db.keys| && n <= batch
      ensures ok ==> k.Tallies(ring.keys, sp, db.keys, db.values, lo, Seek(db.keys, start) + n)
      ensures ok && !dryRun ==> Clean(ring.keys, sp, db.keys, db.values, lo, Seek(db.keys, start) + n)
      ensures ok && n > 0 ==> last == db.keys[Seek(db.keys, start) + n - 1]
      ensures ok && n < batch ==>
        var end := Seek(db.keys, start) + n; end < |db.keys| ==> !HasPrefix(db.keys[end], Prefix(sp))
    {
      hide Count, Sum, Codec, Class, Prefix, Ascending, Improved, Listed, AllStale, Clean, Seek, HasPrefix, Kind.Tallies;
      ImprovedSame(ring.keys, sp, db.keys, db.values);
      if budget == 0 { return false, [], 0; }
      budget := budget - 1;
      var stale; ghost var pos;
      ok, stale, last, n, pos := Scan(sp, k, start, lo);
      if !ok || dryRun { return; }
      ghost var cur := Seek(db.keys, start);
      if stale != [] {
        if budget == 0 { return false, [], 0; }
        budget := budget - 1;
        Rewrite(sp, k, stale, pos, lo, cur + n);
      }
      PositionsBelow(sp, db.keys, stale, pos, lo, cur + n);
      CleanNext(ring.keys, sp, db.keys, old(db.values), db.values, pos, lo, cur, cur + n);
    }

    /** Scan one class in batches and re-wrap what is stale, until done or interrupted. */
    method Walk(sp: Space, k: Kind) returns (done: bool)
      requires db.Valid() && ring.keys != [] && batch > 0
      requires k.total == 0 && k.byKey == seq(|ring.keys|, _ => 0) && k.unreadable == 0
      modifies this`budget, db`values, k
      ensures db.Valid() && Improved(ring.keys, sp, db.keys, old(db.values), db.values)
      ensures k.total == Sum(k.byKey) + k.unreadable
      ensures done ==> (StaleSum(k.byKey) == 0 <==> NoneStale(ring.keys, sp, db.keys, db.values))
      ensures done && !dryRun ==> NoneStale(ring.keys, sp, db.keys, db.values)
      ensures dryRun ==> db.values == old(db.values)
    {
      hide Count, Sum, StaleSum, Codec, Class, Prefix, Ascending, Improved, Listed, AllStale, Clean, Covers, NoneStale, Kind.Tallies, HasPrefix, Seek, Lt;
      var start := Prefix(sp);
      ghost var lo := Seek(db.keys, start);
      ImprovedSame(ring.keys, sp, db.keys, db.values);
      NothingCounted(k, ring.keys, sp, db.keys, db.values, lo);
      while true
        invariant db.Valid() && lo <= Seek(db.keys, start) && lo == Seek(db.keys, Prefix(sp))
        invariant Improved(ring.keys, sp, db.keys, old(db.values), db.values)
        invariant k.Tallies(ring.keys, sp, db.keys, db.values, lo, Seek(db.keys, start)) && k.total == Sum(k.byKey) + k.unreadable
        invariant !dryRun ==> Clean(ring.keys, sp, db.keys, db.values, lo, Seek(db.keys, start))
        invariant dryRun ==> db.values == old(db.values)
        decreases |db.keys| - Seek(db.keys, start)
      {
        ghost var before, cur := db.values, Seek(db.keys, start);
        var ok, last, n := Batch(sp, k, start, lo);
        ImprovedTwice(ring.keys, sp, db.keys, old(db.values), before, db.values);
        if !ok { return false; }
        if n < batch {
          Finished(k, ring.keys, sp, db.keys, db.values, cur + n);
          return true;
        }
        Keys.SeekAfter(db.keys, cur + n - 1);
        start := last + [0];
      }
    }

    /** Walk all five classes. A report with no stale record says that none is left; a completed
        run that was not dry leaves none. */
    method Run() returns (rep: seq<Kind>, done: bool)
      requires db.Valid() && ring.keys != [] && batch > 0
      modifies this`budget, db`values
      ensures db.Valid() && Preserved(ring.keys, db.keys, old(db.values), db.values)
      ensures forall j :: 0 <= j < |rep| ==> rep[j].total == Sum(rep[j].byKey) + rep[j].unreadable
      ensures done ==> (NoStaleCount(rep) <==> forall sp: Space :: NoneStale(ring.keys, sp, db.keys, db.values))
      ensures done && !dryRun ==> forall sp: Space :: NoneStale(ring.keys, sp, db.keys, db.values)
      ensures dryRun ==> db.values == old(db.values)
    {
      hide Sum, StaleSum, NoneStale, Ascending, Improved, Preserved;
      rep := [];
      PreservedSame(ring.keys, db.keys, db.values);
      var i := 0;
      while i < |SPACES|
        invariant 0 <= i <= |SPACES| && |rep| == i && db.Valid()
        invariant Preserved(ring.keys, db.keys, old(db.values), db.values)
        invariant forall j :: 0 <= j < i ==> fresh(rep[j]) && rep[j].total == Sum(rep[j].byKey) + rep[j].unreadable
        invariant forall j :: 0 <= j < i ==> (StaleSum(rep[j].byKey) == 0 <==> NoneStale(ring.keys, SPACES[j], db.keys, db.values))
        invariant !dryRun ==> forall j :: 0 <= j < i ==> NoneStale(ring.keys, SPACES[j], db.keys, db.values)
        invariant dryRun ==> db.values == old(db.values)
      {
        var k := new Kind(|ring.keys|);
        ghost var before := db.values;
        var ok := Walk(SPACES[i], k);
        ImprovedPreserves(ring.keys, SPACES[i], db.keys, old(db.values), before, db.values);
        forall j | 0 <= j < i
          ensures NoneStale(ring.keys, SPACES[j], db.keys, db.values) <==> NoneStale(ring.keys, SPACES[j], db.keys, before)
        {
          OthersStay(ring.keys, SPACES[i], SPACES[j], db.keys, before, db.values);
        }
        rep := rep + [k];
        if !ok { return rep, false; }
        i := i + 1;
      }
      done := true;
      forall sp: Space
        ensures NoStaleCount(rep) || !dryRun ==> NoneStale(ring.keys, sp, db.keys, db.values)
      {
        assert SPACES[PlaceOf(sp)] == sp;
      }
    }
  }

  ghost predicate NoStaleCount(rep: seq<Kind>)
    reads rep
  {
    forall j :: 0 <= j < |rep| ==> StaleSum(rep[j].byKey) == 0
  }

  /** `Report.Stale`: the stale records of all classes. */
  method ReportStale(rep: seq<Kind>) returns (n: nat)
    ensures n == 0 <==> NoStaleCount(rep)
  {
    n := 0;
    var i := 0;
    while i < |rep|
      invariant 0 <= i <= |rep|
      invariant n == 0 <==> forall j :: 0 <= j < i ==> StaleSum(rep[j].byKey) == 0
    {
      var s := rep[i].Stale();
      n := n + s;
      i := i + 1;
    }
  }

  /** Every class is walked. */
  function PlaceOf(sp: Space): (j: nat)
    ensures j < |SPACES| && SPACES[j] == sp
  {
    match sp
    case CheckValue => 0
    case NamedKeys => 1
    case Secrets => 2
    case Objects => 3
    case Uploads => 4
  }

  lemma PreservedSame(ring: seq<MasterKey>, keys: seq<Bytes>, values: seq<Value>)
    requires |keys| == |values|
    ensures Preserved(ring, keys, values, values)
  {
    hide Reads;
  }

  lemma ImprovedPreserves(ring: seq<MasterKey>, sp: Space, keys: seq<Bytes>, values: seq<Value>, values': seq<Value>, values'': seq<Value>)
    requires |keys| == |values| && Preserved(ring, keys, values, values') && Improved(ring, sp, keys, values', values'')
    ensures Preserved(ring, keys, values, values'')
  {
    hide Reads, Class;
    forall i | 0 <= i < |keys|
      ensures Kept(ring, keys[i], values[i], values''[i])
    {
      assert Kept(ring, keys[i], values[i], values'[i]) && Better(ring, sp, keys[i], values'[i], values''[i]);
    }
  }

  lemma OthersStay(ring: seq<MasterKey>, sp: Space, sq: Space, keys: seq<Bytes>, values: seq<Value>, values': seq<Value>)
    requires |keys| == |values| && Improved(ring, sp, keys, values, values') && sq != sp
    ensures NoneStale(ring, sq, keys, values') <==> NoneStale(ring, sq, keys, values)
  {
    hide Class, Kept;
  }

  // ----- the commands

  /** Everything the first ring reads, the second ring reads the same. */
  ghost predicate Still(keys: seq<Bytes>, ring: seq<MasterKey>, values: seq<Value>, ring': seq<MasterKey>, values': seq<Value>)
    requires |keys| == |values| == |values'|
  {
    forall sp: Space, i :: 0 <= i < |keys| && Reads(ring, sp, keys[i], values[i]).Some? ==>
      Reads(ring', sp, keys[i], values'[i]) == Reads(ring, sp, keys[i], values[i])
  }

  lemma StillTwice(keys: seq<Bytes>, r1: seq<MasterKey>, v1: seq<Value>, r2: seq<MasterKey>, v2: seq<Value>, r3: seq<MasterKey>, v3: seq<Value>)
    requires |keys| == |v1| == |v2| == |v3| && Still(keys, r1, v1, r2, v2) && Still(keys, r2, v2, r3, v3)
    ensures Still(keys, r1, v1, r3, v3)
  {
    hide Reads;
  }

  lemma PreservedStill(keys: seq<Bytes>, ring: seq<MasterKey>, values: seq<Value>, values': seq<Value>)
    requires |keys| == |values| && Preserved(ring, keys, values, values')
    ensures Still(keys, ring, values, ring, values')
  {
    hide Reads;
  }

  lemma MoreKeysStill(keys: seq<Bytes>, ring: seq<MasterKey>, values: seq<Value>, ring': seq<MasterKey>)
    requires |keys| == |values| && forall k :: k in ring ==> k in ring'
    ensures Still(keys, ring, values, ring', values)
  {
    hide Codec, Prefix, Plain;
    forall sp: Space, i | 0 <= i < |keys| && Reads(ring, sp, keys[i], values[i]).Some?
      ensures Reads(ring', sp, keys[i], values[i]) == Reads(ring, sp, keys[i], values[i])
    {
      var d := Codec(sp, keys[i], values[i]);
      MoreKeys(ring, ring', d.wrapped, d.aad);
    }
  }

  /** When no record is stale the current key alone reads everything the ring reads. */
  lemma FirstKeyStill(keys: seq<Bytes>, ring: seq<MasterKey>, values: seq<Value>)
    requires |keys| == |values| && ring != [] && forall sp: Space :: NoneStale(ring, sp, keys, values)
    ensures Still(keys, ring, values, ring[..1], values)
  {
    hide Codec, Prefix;
    forall sp: Space, i | 0 <= i < |keys| && Reads(ring, sp, keys[i], values[i]).Some?
      ensures Reads(ring[..1], sp, keys[i], values[i]) == Reads(ring, sp, keys[i], values[i])
    {
      assert NoneStale(ring, sp, keys, values);
      var d := Codec(sp, keys[i], values[i]);
      assert Class(ring, sp, keys[i], values[i]) <= 0;
      FirstKeySuffices(ring, d.wrapped, d.aad);
    }
  }

  // ----- what the server seals

  /** A record with a value that the server sealed under the master key: the key-check value, a named
      key, the secret of an access key, and the data key of an object version or of an upload. */
  datatype Secret =
    | Check
    | NamedKey(id: Bytes)
    | AccessKey(accessKey: Bytes)
    | ObjectData(bucket: Bytes, key: Bytes, seqNo: nat)
    | UploadData(bucket: Bytes, key: Bytes, id: Bytes)

  function Ascii(s: string): (b: Bytes)
    requires forall i :: 0 <= i < |s| ==> s[i] as int < 256
    ensures |b| == |s|
  {
    seq(|s|, i requires 0 <= i < |s| => s[i] as int)
  }

  /** Bucket names hold no slash, sequences have 64 bits, and no named key is called like the check
      value. */
  predicate MayBe(x: Secret) {
    match x
    case NamedKey(id) => id != Ascii(".master-check")
    case ObjectData(bucket, _, seqNo) => Keys.Free(Keys.SLASH, bucket) && seqNo <= Keys.MAX_SEQ
    case UploadData(bucket, _, _) => Keys.Free(Keys.SLASH, bucket)
    case _ => true
  }

  /** Where the server stores the record. */
  function HomeOf(x: Secret): Bytes
    requires MayBe(x)
  {
    match x
    case Check => Ascii("i/kms/.master-check")
    case NamedKey(id) => Ascii("i/kms/") + id
    case AccessKey(accessKey) => Ascii("i/k/") + accessKey
    case ObjectData(bucket, key, seqNo) => Keys.ObjectKey(bucket, key, seqNo)
    case UploadData(bucket, key, id) => Ascii("u/") + bucket + Ascii("/") + key + [0] + id
  }

  /** The associated data the server seals and opens its value with: data keys are bound to their
      bucket. */
  function SealedWith(x: Secret): Aad {
    match x
    case Check => CheckAad
    case NamedKey(id) => KeyAad(id)
    case AccessKey(_) => SecretAad
    case ObjectData(bucket, _, _) => BucketAad(bucket)
    case UploadData(bucket, _, _) => BucketAad(bucket)
  }

  function SpaceOf(x: Secret): Space {
    match x
    case Check => CheckValue
    case NamedKey(_) => NamedKeys
    case AccessKey(_) => Secrets
    case ObjectData(_, _, _) => Objects
    case UploadData(_, _, _) => Uploads
  }

  /** The stored record holds the plaintext, sealed under some key of the ring. */
  ghost predicate Unseals(ring: seq<MasterKey>, x: Secret, v: Value, plain: Bytes) {
    v.Value? && exists k :: k in ring && v.wrapped == Some(Sealed(k.key, SealedWith(x), plain))
  }

  /** A record of the server and a plaintext of it. */
  ghost predicate Holds(ring: seq<MasterKey>, key: Bytes, v: Value, x: Secret, plain: Bytes) {
    MayBe(x) && key == HomeOf(x) && Unseals(ring, x, v, plain)
  }

  /** Every sealed record of the server that the first ring unseals, the second ring unseals to the
      same plaintext. */
  ghost predicate StillUnsealed(keys: seq<Bytes>, ring: seq<MasterKey>, values: seq<Value>, ring': seq<MasterKey>, values': seq<Value>)
    requires |keys| == |values| == |values'|
  {
    forall i, x, plain :: 0 <= i < |keys| && Holds(ring, keys[i], values[i], x, plain) ==> Holds(ring', keys[i], values'[i], x, plain)
  }

  /** The codec of its class decodes each record as the server sealed it. */
  lemma CodecDecodes(x: Secret, v: Value)
    requires MayBe(x) && v.Value? && v.wrapped.Some?
    ensures HasPrefix(HomeOf(x), Prefix(SpaceOf(x))) && Codec(SpaceOf(x), HomeOf(x), v) == Protected(v.wrapped.value, SealedWith(x))
  {
    hide HomeOf, Codec, Prefix, HasPrefix, Ascii;
    match x
    case Check => DecodesCheck(v);
    case NamedKey(id) => DecodesNamed(id, v);
    case AccessKey(accessKey) => DecodesAccess(accessKey, v);
    case ObjectData(bucket, key, seqNo) => DecodesObject(bucket, key, seqNo, v);
    case UploadData(bucket, key, id) => DecodesUpload(bucket, key, id, v);
  }

  /** The record is found in its class and decoded as it was sealed. */
  predicate Decoding(x: Secret, v: Value)
    requires MayBe(x) && v.Value? && v.wrapped.Some?
  {
    HasPrefix(HomeOf(x), Prefix(SpaceOf(x))) && Codec(SpaceOf(x), HomeOf(x), v) == Protected(v.wrapped.value, SealedWith(x))
  }

  lemma DecodesCheck(v: Value)
    requires v.Value? && v.wrapped.Some?
    ensures Decoding(Check, v)
  {
    Spelled();
    hide Ascii;
    assert CHECK_KEY[..|CHECK_KEY|] == CHECK_KEY;
  }

  lemma DecodesNamed(id: Bytes, v: Value)
    requires MayBe(NamedKey(id)) && v.Value? && v.wrapped.Some?
    ensures Decoding(NamedKey(id), v)
  {
    Spelled();
    hide Ascii, HasPrefix;
    NamedHome(id);
  }

  lemma DecodesAccess(accessKey: Bytes, v: Value)
    requires v.Value? && v.wrapped.Some?
    ensures Decoding(AccessKey(accessKey), v)
  {
    Spelled();
    hide Ascii;
    assert (SECRET_PREFIX + accessKey)[..4] == SECRET_PREFIX;
  }

  lemma DecodesObject(bucket: Bytes, key: Bytes, seqNo: nat, v: Value)
    requires MayBe(ObjectData(bucket, key, seqNo)) && v.Value? && v.wrapped.Some?
    ensures Decoding(ObjectData(bucket, key, seqNo), v)
  {
    hide Keys.SplitObjectKey, Keys.ObjectKey, HasPrefix;
    ObjectHome(bucket, key, seqNo);
  }

  lemma DecodesUpload(bucket: Bytes, key: Bytes, id: Bytes, v: Value)
    requires MayBe(UploadData(bucket, key, id)) && v.Value? && v.wrapped.Some?
    ensures Decoding(UploadData(bucket, key, id), v)
  {
    Spelled();
    hide Ascii, Keys.IndexByte, HasPrefix;
    UploadHome(bucket, key, id);
  }

  lemma NamedHome(id: Bytes)
    ensures var home := KMS_PREFIX + id;
      HasPrefix(home, KMS_PREFIX) && home[6..] == id && (home == CHECK_KEY ==> id == CHECK_KEY[6..])
  {
    assert (KMS_PREFIX + id)[..6] == KMS_PREFIX;
  }

  lemma ObjectHome(bucket: Bytes, key: Bytes, seqNo: nat)
    requires Keys.Free(Keys.SLASH, bucket) && seqNo <= Keys.MAX_SEQ
    ensures var home := Keys.ObjectKey(bucket, key, seqNo);
      HasPrefix(home, Keys.NS_OBJECT) && Keys.SplitObjectKey(home).Some? && Keys.SplitObjectKey(home).value.bucket == bucket
  {
    Keys.SplitInvertsEncode(bucket, key, seqNo);
    hide Keys.SplitObjectKey;
    assert Keys.ObjectKey(bucket, key, seqNo)[..2] == Keys.NS_OBJECT;
  }

  lemma UploadHome(bucket: Bytes, key: Bytes, id: Bytes)
    requires Keys.Free(Keys.SLASH, bucket)
    ensures var home := UPLOAD_PREFIX + bucket + [Keys.SLASH] + key + [0] + id;
      HasPrefix(home, UPLOAD_PREFIX) && Keys.IndexByte(home[2..], Keys.SLASH) == Some(|bucket|) && home[2..][..|bucket|] == bucket
  {
    var rest := key + [0] + id;
    var tail := bucket + [Keys.SLASH] + rest;
    var home := UPLOAD_PREFIX + bucket + [Keys.SLASH] + key + [0] + id;
    assert home == UPLOAD_PREFIX + tail;
    assert home[..2] == UPLOAD_PREFIX && home[2..] == tail;
    Keys.FirstOccurrence(tail, bucket, Keys.SLASH, rest);
    assert tail[..|bucket|] == bucket;
  }

  /** The prefixes, spelled out. */
  lemma Spelled()
    ensures Ascii("i/kms/.master-check") == CHECK_KEY && Ascii(".master-check") == CHECK_KEY[6..]
    ensures Ascii("i/kms/") == KMS_PREFIX && Ascii("i/k/") == SECRET_PREFIX && Ascii("u/") == UPLOAD_PREFIX && Ascii("/") == [Keys.SLASH]
  {
  }

  /** What the ring unseals is what it reads in the record's class. */
  lemma UnsealsReads(ring: seq<MasterKey>, key: Bytes, v: Value, x: Secret, plain: Bytes)
    requires MayBe(x) && key == HomeOf(x) && v.Value? && v.wrapped.Some? && v.wrapped.value.Sealed?
    ensures Unseals(ring, x, v, plain) <==> Reads(ring, SpaceOf(x), key, v) == Some(plain)
    ensures Unseals(ring, x, v, plain) ==>
      Class(ring, SpaceOf(x), key, v) >= 0 && ring[Class(ring, SpaceOf(x), key, v)].key == v.wrapped.value.key
  {
    CodecDecodes(x, v);
    hide HomeOf, Codec, Prefix, MayBe, HasPrefix;
    var w := v.wrapped.value;
    var i := IndexOf(ring, w, SealedWith(x));
    if Unseals(ring, x, v, plain) {
      var k :| k in ring && v.wrapped == Some(Sealed(k.key, SealedWith(x), plain));
      var j :| 0 <= j < |ring| && ring[j] == k;
      assert Opens(ring[j], w, SealedWith(x));
    }
    if i >= 0 { assert ring[i] in ring && w == Sealed(ring[i].key, SealedWith(x), w.plain); }
  }

  /** What stays readable class by class stays unsealed record by record. */
  lemma StillUnseals(keys: seq<Bytes>, ring: seq<MasterKey>, values: seq<Value>, ring': seq<MasterKey>, values': seq<Value>)
    requires |keys| == |values| == |values'| && Still(keys, ring, values, ring', values')
    ensures StillUnsealed(keys, ring, values, ring', values')
  {
    hide HomeOf, MayBe, Unseals, Reads, Still;
    forall i, x, plain | 0 <= i < |keys| && Holds(ring, keys[i], values[i], x, plain)
      ensures Holds(ring', keys[i], values'[i], x, plain)
    {
      StillAt(keys, ring, values, ring', values', SpaceOf(x), i);
      SealedShape(ring, x, values[i], plain);
      UnsealsReads(ring, keys[i], values[i], x, plain);
      ReadsSealed(ring', keys[i], values'[i], x, plain);
    }
  }

  lemma StillAt(keys: seq<Bytes>, ring: seq<MasterKey>, values: seq<Value>, ring': seq<MasterKey>, values': seq<Value>, sp: Space, i: nat)
    requires |keys| == |values| == |values'| && Still(keys, ring, values, ring', values') && i < |keys|
    ensures Reads(ring, sp, keys[i], values[i]).Some? ==> Reads(ring', sp, keys[i], values'[i]) == Reads(ring, sp, keys[i], values[i])
  {
    hide Reads;
  }

  lemma SealedShape(ring: seq<MasterKey>, x: Secret, v: Value, plain: Bytes)
    requires Unseals(ring, x, v, plain)
    ensures v.Value? && v.wrapped.Some? && v.wrapped.value.Sealed?
  {
  }

  /** Only a sealed value is read. */
  lemma ReadsSealed(ring: seq<MasterKey>, key: Bytes, v: Value, x: Secret, plain: Bytes)
    requires MayBe(x) && key == HomeOf(x) && Reads(ring, SpaceOf(x), key, v) == Some(plain)
    ensures Unseals(ring, x, v, plain)
  {
    ReadsShape(ring, SpaceOf(x), key, v);
    hide Reads, HomeOf, MayBe, Unseals;
    UnsealsReads(ring, key, v, x, plain);
  }

  lemma ReadsShape(ring: seq<MasterKey>, sp: Space, key: Bytes, v: Value)
    requires Reads(ring, sp, key, v).Some?
    ensures v.Value? && v.wrapped.Some? && v.wrapped.value.Sealed?
  {
    hide Keys.SplitObjectKey, Keys.IndexByte, HasPrefix;
  }

  /** Every sealed record of the server that the ring unseals is sealed under its first key. */
  ghost predicate AllCurrent(ring: seq<MasterKey>, keys: seq<Bytes>, values: seq<Value>)
    requires |keys| == |values| && ring != []
  {
    forall i, x, plain :: 0 <= i < |keys| && Holds(ring, keys[i], values[i], x, plain) ==>
      values[i].wrapped == Some(Sealed(ring[0].key, SealedWith(x), plain))
  }

  lemma NoneStaleMeans(ring: seq<MasterKey>, keys: seq<Bytes>, values: seq<Value>)
    requires |keys| == |values| && ring != [] && forall sp: Space :: NoneStale(ring, sp, keys, values)
    ensures AllCurrent(ring, keys, values)
  {
    hide HomeOf, MayBe, Class;
    forall i, x, plain | 0 <= i < |keys| && Holds(ring, keys[i], values[i], x, plain)
      ensures values[i].wrapped == Some(Sealed(ring[0].key, SealedWith(x), plain))
    {
      assert NoneStale(ring, SpaceOf(x), keys, values);
      UnsealsReads(ring, keys[i], values[i], x, plain);
    }
  }

  datatype Op =
    | Rotate(key: nat, saved: bool, batch: int, budget: nat)
    | Rewrap(dryRun: bool, batch: int, budget: nat)
    | Retire(saved: bool, batch: int, budget: nat)

  /** The key file of a data directory, the old environment key if one is given, and the store. */
  class Admin {
    const file: Master
    const envOld: Master?
    const db: Store

    ghost predicate Valid()
      reads this, file, envOld, db
    {
      db.Valid() && file.keys != [] && file.hasFile && file != envOld
    }

    ghost function Ring(): seq<MasterKey>
      reads file, envOld
    {
      file.keys + Fallback()
    }

    ghost function Fallback(): seq<MasterKey>
      reads envOld
    {
      if envOld == null then [] else envOld.keys
    }

    constructor (file: Master, fallback: Master?, db: Store)
      requires db.Valid() && file.keys != [] && file.hasFile && file != fallback
      ensures Valid() && this.file == file && this.envOld == fallback && this.db == db
    {
      this.file, this.envOld, this.db := file, fallback, db;
    }

    method OpenRing() returns (ring: Master)
      ensures fresh(ring) && ring.keys == Ring()
    {
      ring := file.WithFallback([envOld]);
      assert [envOld][..0] == [];
      assert KeysOf([envOld]) == KeysOf([]) + Fallback();
    }

    /** Add a key and re-wrap under it. */
    method DoRotate(key: nat, saved: bool, batch: int, budget: nat) returns (done: bool)
      requires Valid()
      modifies file, db`values
      ensures Valid() && Still(db.keys, old(Ring()), old(db.values), Ring(), db.values)
      ensures done ==> forall sp: Space :: NoneStale(Ring(), sp, db.keys, db.values)
      ensures StillUnsealed(db.keys, old(Ring()), old(db.values), Ring(), db.values)
      ensures done ==> AllCurrent(Ring(), db.keys, db.values)
    {
      hide Still, Preserved, NoneStale, StillUnsealed, AllCurrent;
      var id := file.AddKey(key, saved);
      MoreKeysStill(db.keys, old(Ring()), db.values, Ring());
      StillUnseals(db.keys, old(Ring()), db.values, Ring(), db.values);
      if id.None? { return false; }
      var ring := OpenRing();
      var run := new Runner(db, ring, false, batch, budget);
      var rep;
      rep, done := run.Run();
      PreservedStill(db.keys, Ring(), old(db.values), db.values);
      StillTwice(db.keys, old(Ring()), old(db.values), Ring(), old(db.values), Ring(), db.values);
      StillUnseals(db.keys, old(Ring()), old(db.values), Ring(), db.values);
      if done { NoneStaleMeans(Ring(), db.keys, db.values); }
    }

    /** Re-wrap, or only count. */
    method DoRewrap(dryRun: bool, batch: int, budget: nat) returns (done: bool)
      requires Valid()
      modifies db`values
      ensures Valid() && Still(db.keys, Ring(), old(db.values), Ring(), db.values)
      ensures done && !dryRun ==> forall sp: Space :: NoneStale(Ring(), sp, db.keys, db.values)
      ensures StillUnsealed(db.keys, Ring(), old(db.values), Ring(), db.values)
      ensures done && !dryRun ==> AllCurrent(Ring(), db.keys, db.values)
    {
      hide Still, Preserved, NoneStale, StillUnsealed, AllCurrent;
      var ring := OpenRing();
      var run := new Runner(db, ring, dryRun, batch, budget);
      var rep;
      rep, done := run.Run();
      PreservedStill(db.keys, Ring(), old(db.values), db.values);
      StillUnseals(db.keys, Ring(), old(db.values), Ring(), db.values);
      if done && !dryRun { NoneStaleMeans(Ring(), db.keys, db.values); }
    }

    /** Remove the older keys, unless a complete count finds something under them. What the ring
        read, the remaining key reads alone. */
    method DoRetire(saved: bool, batch: int, budget: nat) returns (done: bool)
      requires Valid()
      modifies file, db`values
      ensures Valid() && db.values == old(db.values) && Still(db.keys, old(Ring()), db.values, Ring(), db.values)
      ensures done ==> |file.keys| == 1 && Still(db.keys, old(Ring()), db.values, file.keys, db.values)
      ensures StillUnsealed(db.keys, old(Ring()), db.values, Ring(), db.values)
      ensures done ==> StillUnsealed(db.keys, old(Ring()), db.values, file.keys, db.values)
    {
      hide Still, Preserved, NoneStale, StillUnsealed;
      MoreKeysStill(db.keys, Ring(), db.values, Ring());
      StillUnseals(db.keys, Ring(), db.values, Ring(), db.values);
      var ring := OpenRing();
      var run := new Runner(db, ring, true, batch, budget);
      var rep, complete := run.Run();
      if !complete { return false; }
      var stale := ReportStale(rep);
      if stale > 0 { return false; }
      FirstKeyStill(db.keys, Ring(), db.values);
      assert Ring()[..1] == file.keys[..1];
      var removed := file.Prune(saved);
      if removed.None? { return false; }
      assert file.keys == old(file.keys)[..1];
      MoreKeysStill(db.keys, file.keys, db.values, Ring());
      StillTwice(db.keys, old(Ring()), db.values, file.keys, db.values, Ring(), db.values);
      StillUnseals(db.keys, old(Ring()), db.values, file.keys, db.values);
      StillUnseals(db.keys, old(Ring()), db.values, Ring(), db.values);
      done := true;
    }

    /** Any sequence of commands, each interrupted or not: what the ring could read at the start
        it reads the same at the end. */
    method Session(ops: seq<Op>)
      requires Valid()
      modifies file, db`values
      ensures Valid() && Still(db.keys, old(Ring()), old(db.values), Ring(), db.values)
      ensures StillUnsealed(db.keys, old(Ring()), old(db.values), Ring(), db.values)
    {
      hide Still, StillUnsealed, AllCurrent;
      MoreKeysStill(db.keys, Ring(), db.values, Ring());
      var i := 0;
      while i < |ops|
        invariant 0 <= i <= |ops| && Valid() && Still(db.keys, old(Ring()), old(db.values), Ring(), db.values)
      {
        ghost var ring, values := Ring(), db.values;
        match ops[i] {
          case Rotate(key, saved, batch, budget) => var _ := DoRotate(key, saved, batch, budget);
          case Rewrap(dryRun, batch, budget) => var _ := DoRewrap(dryRun, batch, budget);
          case Retire(saved, batch, budget) => var _ := DoRetire(saved, batch, budget);
        }
        StillTwice(db.keys, old(Ring()), old(db.values), ring, values, Ring(), db.values);
        i := i + 1;
      }
      StillUnseals(db.keys, old(Ring()), old(db.values), Ring(), db.values);
    }
  }

  /** What the counts say at the end of a walk. */
  lemma Finished(k: Kind, ring: seq<MasterKey>, sp: Space, keys: seq<Bytes>, values: seq<Value>, hi: nat)
    requires Seek(keys, Prefix(sp)) <= hi <= |keys| == |values| && Ascending(keys)
    requires hi < |keys| ==> !HasPrefix(keys[hi], Prefix(sp))
    requires k.Tallies(ring, sp, keys, values, Seek(keys, Prefix(sp)), hi)
    ensures StaleSum(k.byKey) == 0 <==> NoneStale(ring, sp, keys, values)
    ensures Clean(ring, sp, keys, values, Seek(keys, Prefix(sp)), hi) ==> NoneStale(ring, sp, keys, values)
  {
    hide Prefix, Clean, Covers, NoneStale, Kind.Tallies, StaleSum;
    var lo := Seek(keys, Prefix(sp));
    RangeEnds(sp, keys, hi);
    StaleMeans(k, ring, sp, keys, values, lo, hi);
    if Clean(ring, sp, keys, values, lo, hi) { CleanMeans(ring, sp, keys, values, lo, hi); }
  }

  lemma PositionsBelow(sp: Space, keys: seq<Bytes>, stale: seq<Bytes>, pos: seq<nat>, lo: nat, hi: nat)
    requires Listed(sp, keys, stale, pos, lo, hi)
    ensures |pos| == |stale| && forall m :: 0 <= m < |pos| ==> pos[m] < |keys|
  {
  }

  lemma NothingCounted(k: Kind, ring: seq<MasterKey>, sp: Space, keys: seq<Bytes>, values: seq<Value>, lo: nat)
    requires lo <= |keys| == |values|
    requires k.total == 0 && k.byKey == seq(|ring|, _ => 0) && k.unreadable == 0
    ensures k.Tallies(ring, sp, keys, values, lo, lo) && Clean(ring, sp, keys, values, lo, lo)
    ensures k.total == Sum(k.byKey) + k.unreadable
  {
    SumZero(k.byKey);
  }
}
