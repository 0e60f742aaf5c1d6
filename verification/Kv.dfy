/** The ordered key-value contract the metadata layer is built on (internal/kv/kv.go):
    byte strings in lexicographic order, seeks, and prefix successors. */
module Kv {

  type Byte = x: int | 0 <= x < 256
  type Bytes = seq<Byte>

  datatype Option<+T> = None | Some(value: T)

  /** Lexicographic byte order. */
  predicate Lt(a: Bytes, b: Bytes) {
    if b == [] then false
    else if a == [] then true
    else a[0] < b[0] || (a[0] == b[0] && Lt(a[1..], b[1..]))
  }

  predicate Le(a: Bytes, b: Bytes) {
    a == b || Lt(a, b)
  }

  predicate HasPrefix(k: Bytes, p: Bytes) {
    |p| <= |k| && k[..|p|] == p
  }

  // ----- the order is total

  lemma {:induction false} LtIrreflexive(a: Bytes)
    ensures !Lt(a, a)
  {
    if a != [] { LtIrreflexive(a[1..]); }
  }

  lemma {:induction false} LtTransitive(a: Bytes, b: Bytes, c: Bytes)
    requires Lt(a, b) && Lt(b, c)
    ensures Lt(a, c)
  {
    if a != [] && a[0] == b[0] == c[0] { LtTransitive(a[1..], b[1..], c[1..]); }
  }

  lemma {:induction false} LtTotal(a: Bytes, b: Bytes)
    ensures a == b || Lt(a, b) || Lt(b, a)
  {
    if a != [] && b != [] && a[0] == b[0] {
      LtTotal(a[1..], b[1..]);
      if a[1..] == b[1..] { assert a == [a[0]] + a[1..] == b; }
    }
  }

  lemma LtAsymmetric(a: Bytes, b: Bytes)
    requires Lt(a, b)
    ensures !Lt(b, a) && a != b
  {
    LtIrreflexive(a);
    if Lt(b, a) { LtTransitive(a, b, a); }
  }

  lemma LeLtTransitive(a: Bytes, b: Bytes, c: Bytes)
    requires Le(a, b) && Lt(b, c)
    ensures Lt(a, c)
  {
    if a != b { LtTransitive(a, b, c); }
  }

  lemma LtLeTransitive(a: Bytes, b: Bytes, c: Bytes)
    requires Lt(a, b) && Le(b, c)
    ensures Lt(a, c)
  {
    if b != c { LtTransitive(a, b, c); }
  }

  /** A common prefix does not matter. */
  lemma {:induction false} LtCommon(p: Bytes, a: Bytes, b: Bytes)
    ensures Lt(p + a, p + b) <==> Lt(a, b)
  {
    if p == [] {
      assert p + a == a && p + b == b;
    } else {
      assert (p + a)[1..] == p[1..] + a && (p + b)[1..] == p[1..] + b;
      LtCommon(p[1..], a, b);
    }
  }

  /** A proper prefix comes first. */
  lemma {:induction false} PrefixLe(p: Bytes, k: Bytes)
    requires HasPrefix(k, p)
    ensures Le(p, k)
  {
    if p != [] {
      assert k[1..][..|p| - 1] == p[1..];
      PrefixLe(p[1..], k[1..]);
      if p[1..] == k[1..] { assert p == [p[0]] + p[1..] == k; }
    }
  }

  // ----- prefix successors

  /** Drop the trailing 0xff bytes and increment the last byte that is left. */
  function Successor(p: Bytes): (s: Option<Bytes>) {
    if p == [] then None
    else if p[|p| - 1] != 0xff then Some(p[..|p| - 1] + [p[|p| - 1] + 1])
    else Successor(p[..|p| - 1])
  }

  /** `PrefixSuccessor` of the source: copy, then increment from the back. */
  method PrefixSuccessor(prefix: Bytes) returns (r: Option<Bytes>)
    ensures r == Successor(prefix)
  {
    var out := new Byte[|prefix|](i requires 0 <= i < |prefix| => prefix[i]);
    var i := |prefix| - 1;
    assert prefix[..i + 1] == prefix;
    while i >= 0
      invariant -1 <= i < |prefix|
      invariant out[..] == prefix
      invariant Successor(prefix[..i + 1]) == Successor(prefix)
    {
      if out[i] != 0xff {
        assert prefix[..i + 1][..i] == prefix[..i];
        out[i] := out[i] + 1;
        assert out[..i + 1] == prefix[..i] + [prefix[i] + 1];
        return Some(out[..i + 1]);
      }
      assert prefix[..i + 1][..i] == prefix[..i];
      i := i - 1;
    }
    return None;
  }

  /** Below the successor lie exactly the strings below the prefix and those that have it. */
  lemma {:induction false} BelowSuccessor(p: Bytes, x: Bytes)
    requires Successor(p).Some?
    ensures Lt(x, Successor(p).value) <==> Lt(x, p) || HasPrefix(x, p)
  {
    var n := |p| - 1;
    var q, b := p[..n], p[n];
    assert p == q + [b];
    if b != 0xff {
      BelowIncrement(q, b, x);
    } else {
      BelowSuccessor(q, x);
      LastIsMax(q, x);
    }
  }

  lemma {:induction false} BelowIncrement(q: Bytes, b: Byte, x: Bytes)
    requires b < 0xff
    ensures Lt(x, q + [b + 1]) <==> Lt(x, q + [b]) || HasPrefix(x, q + [b])
  {
    if q == [] {
      assert q + [b] == [b] && q + [b + 1] == [b + 1];
      if x != [] && x[0] == b { assert x[..1] == [b]; }
    } else if x != [] && x[0] == q[0] {
      assert (q + [b])[1..] == q[1..] + [b] && (q + [b + 1])[1..] == q[1..] + [b + 1];
      BelowIncrement(q[1..], b, x[1..]);
      PrefixTail(q[0], q[1..] + [b], x);
      assert [q[0]] + (q[1..] + [b]) == q + [b];
    }
  }

  lemma PrefixTail(a: Byte, p: Bytes, x: Bytes)
    requires x != [] && x[0] == a
    ensures HasPrefix(x, [a] + p) <==> HasPrefix(x[1..], p)
  {
    if |x| > |p| {
      assert x[..|p| + 1] == [x[0]] + x[1..][..|p|];
      assert x[1..][..|p|] == x[..|p| + 1][1..];
    }
  }

  lemma {:induction false} LastIsMax(q: Bytes, x: Bytes)
    ensures Lt(x, q + [0xff]) || HasPrefix(x, q + [0xff]) <==> Lt(x, q) || HasPrefix(x, q)
  {
    if q == [] {
      assert q + [0xff] == [0xff];
      if x != [] && x[0] == 0xff { assert x[..1] == [0xff]; }
    } else if x != [] && x[0] == q[0] {
      assert (q + [0xff])[1..] == q[1..] + [0xff];
      LastIsMax(q[1..], x[1..]);
      PrefixTail(q[0], q[1..] + [0xff], x);
      PrefixTail(q[0], q[1..], x);
      assert [q[0]] + (q[1..] + [0xff]) == q + [0xff] && [q[0]] + q[1..] == q;
    }
  }

  ghost predicate AboveAll(x: Bytes, p: Bytes) {
    forall y :: HasPrefix(y, p) ==> Lt(y, x)
  }

  /** The successor is the least string above every string with the prefix, and there is
      none exactly when no string is above them all. */
  lemma SuccessorIsLeast(p: Bytes)
    ensures Successor(p).Some? ==>
      AboveAll(Successor(p).value, p) && forall x :: AboveAll(x, p) ==> Le(Successor(p).value, x)
    ensures Successor(p).None? ==> forall x :: !AboveAll(x, p)
  {
    if Successor(p).Some? {
      var s := Successor(p).value;
      forall y | HasPrefix(y, p)
        ensures Lt(y, s)
      {
        BelowSuccessor(p, y);
      }
      forall x | AboveAll(x, p)
        ensures Le(s, x)
      {
        assert HasPrefix(p, p);
        LtAsymmetric(p, x);
        LtTotal(s, x);
        BelowSuccessor(p, x);
        if HasPrefix(x, p) { LtIrreflexive(x); }
      }
    } else {
      forall x
        ensures !AboveAll(x, p)
      {
        AllMaxNotBelow(p, x);
      }
    }
  }

  lemma {:induction false} AllMaxNotBelow(p: Bytes, x: Bytes)
    requires Successor(p).None?
    ensures !AboveAll(x, p)
  {
    // p consists of 0xff bytes, and so does p extended by more of them than x has bytes
    SuccessorNone(p);
    var y := p + seq(|x| + 1, _ => 0xff);
    assert y[..|p|] == p;
    MaxNotBelow(y, x);
    assert HasPrefix(y, p) && !Lt(y, x);
  }

  lemma {:induction false} SuccessorNone(p: Bytes)
    requires Successor(p).None?
    ensures forall i :: 0 <= i < |p| ==> p[i] == 0xff
  {
    if p != [] { SuccessorNone(p[..|p| - 1]); }
  }

  lemma {:induction false} MaxNotBelow(y: Bytes, x: Bytes)
    requires |y| > |x| && forall i :: 0 <= i < |y| ==> y[i] == 0xff
    ensures !Lt(y, x)
  {
    if x != [] { MaxNotBelow(y[1..], x[1..]); }
  }

  // ----- seeking

  ghost predicate Ascending(keys: seq<Bytes>) {
    forall i, j :: 0 <= i < j < |keys| ==> Lt(keys[i], keys[j])
  }

  /** `Seek`: the position of the first key at or after `start`. */
  function Seek(keys: seq<Bytes>, start: Bytes): (i: nat)
    ensures i <= |keys|
    ensures forall j :: 0 <= j < i ==> Lt(keys[j], start)
    ensures i < |keys| ==> !Lt(keys[i], start)
  {
    if keys == [] || !Lt(keys[0], start) then 0 else 1 + Seek(keys[1..], start)
  }

  lemma SeekSplits(keys: seq<Bytes>, start: Bytes, j: nat)
    requires Ascending(keys) && j < |keys|
    ensures Lt(keys[j], start) <==> j < Seek(keys, start)
  {
    var i := Seek(keys, start);
    if i < j && Lt(keys[j], start) {
      LtTransitive(keys[i], keys[j], start);
    }
  }

  /** Seeking to the successor of a prefix from a key that has it lands on the first later
      key without it. */
  lemma SeekSkipsPrefix(keys: seq<Bytes>, p: Bytes, i: nat)
    requires Ascending(keys) && i < |keys| && HasPrefix(keys[i], p) && Successor(p).Some?
    ensures var j := Seek(keys, Successor(p).value);
      i < j && (forall k :: i <= k < j ==> HasPrefix(keys[k], p)) &&
      (forall k :: j <= k < |keys| ==> !HasPrefix(keys[k], p))
  {
    var s := Successor(p).value;
    var j := Seek(keys, s);
    BelowSuccessor(p, keys[i]);
    SeekSplits(keys, s, i);
    PrefixLe(p, keys[i]);
    forall k | i <= k < j
      ensures HasPrefix(keys[k], p)
    {
      BelowSuccessor(p, keys[k]);
      if Lt(keys[k], p) {
        LtLeTransitive(keys[k], p, keys[i]);
        LtAsymmetric(keys[k], keys[i]);
        LtIrreflexive(keys[k]);
      }
    }
    forall k | j <= k < |keys|
      ensures !HasPrefix(keys[k], p)
    {
      BelowSuccessor(p, keys[k]);
      SeekSplits(keys, s, k);
    }
  }
}
