/** The master key ring (internal/kms/master.go). Authenticated encryption is ideal: a value
    opens under the key and the associated data it was sealed with, and under nothing else. */
module Kms {
  import opened Kv

  /** The number in a generated ID ("k7"), or the label of an environment key. */
  datatype KeyId = Numbered(n: nat) | Label(text: string)

  datatype MasterKey = MasterKey(id: KeyId, key: nat)

  datatype Aad = CheckAad | KeyAad(id: Bytes) | SecretAad | BucketAad(bucket: Bytes)

  datatype Wrapped = Sealed(key: nat, aad: Aad, plain: Bytes) | Corrupt(junk: Bytes)

  /** `Unwrap` of one key. */
  function Opens(k: MasterKey, w: Wrapped, aad: Aad): bool {
    w.Sealed? && w.key == k.key && w.aad == aad
  }

  /** The position of the first key that opens the value, or -1. */
  function IndexOf(keys: seq<MasterKey>, w: Wrapped, aad: Aad): (i: int)
    ensures -1 <= i < |keys|
    ensures i >= 0 ==> Opens(keys[i], w, aad) && forall j :: 0 <= j < i ==> !Opens(keys[j], w, aad)
    ensures i < 0 ==> forall j :: 0 <= j < |keys| ==> !Opens(keys[j], w, aad)
  {
    if keys == [] then -1
    else if Opens(keys[0], w, aad) then 0
    else
      var i := IndexOf(keys[1..], w, aad);
      if i < 0 then -1 else i + 1
  }

  /** What a ring makes of a value. */
  function Plain(keys: seq<MasterKey>, w: Wrapped, aad: Aad): Option<Bytes> {
    if IndexOf(keys, w, aad) >= 0 then Some(w.plain) else None
  }

  /** A ring that holds all the keys of another opens what the other opens, to the same. */
  lemma MoreKeys(keys: seq<MasterKey>, keys': seq<MasterKey>, w: Wrapped, aad: Aad)
    requires forall k :: k in keys ==> k in keys'
    ensures Plain(keys, w, aad).Some? ==> Plain(keys', w, aad) == Plain(keys, w, aad)
  {
    var i := IndexOf(keys, w, aad);
    if i >= 0 {
      assert keys[i] in keys';
      var j :| 0 <= j < |keys'| && keys'[j] == keys[i];
    }
  }

  /** What the first key opens needs no other key. */
  lemma FirstKeySuffices(keys: seq<MasterKey>, w: Wrapped, aad: Aad)
    requires keys != [] && IndexOf(keys, w, aad) == 0
    ensures IndexOf(keys[..1], w, aad) == 0 && Plain(keys[..1], w, aad) == Plain(keys, w, aad)
  {
  }

  class Master {
    var keys: seq<MasterKey>
    const hasFile: bool

    constructor (keys: seq<MasterKey>, hasFile: bool)
      ensures this.keys == keys && this.hasFile == hasFile
    {
      this.keys, this.hasFile := keys, hasFile;
    }

    /** A new current key, whose ID no key of the ring has; when the file cannot be written the
        ring is as before. `saved` is the outcome of writing the file. */
    method AddKey(key: nat, saved: bool) returns (id: Option<KeyId>)
      modifies this
      ensures id.Some? <==> hasFile && saved
      ensures id.Some? ==> keys == [MasterKey(id.value, key)] + old(keys) && forall k :: k in old(keys) ==> k.id != id.value
      ensures id.None? ==> keys == old(keys)
    {
      if !hasFile { return None; }
      var next, i := 0, 0;
      while i < |keys|
        invariant 0 <= i <= |keys|
        invariant forall j :: 0 <= j < i && keys[j].id.Numbered? ==> keys[j].id.n <= next
      {
        if keys[i].id.Numbered? && keys[i].id.n > next { next := keys[i].id.n; }
        i := i + 1;
      }
      var newId := Numbered(next + 1);
      keys := [MasterKey(newId, key)] + keys;
      if !saved {
        keys := keys[1..];
        return None;
      }
      id := Some(newId);
    }

    /** Only the current key stays; when the file cannot be written the ring is as before. */
    method Prune(saved: bool) returns (removed: Option<seq<MasterKey>>)
      modifies this
      ensures removed.Some? ==> keys + removed.value == old(keys) && |keys| <= 1
      ensures removed.None? ==> keys == old(keys)
      ensures old(keys) != [] ==> keys != [] && keys[0] == old(keys)[0]
    {
      if !hasFile { return None; }
      if |keys| < 2 { return Some([]); }
      var before := keys;
      removed := Some(keys[1..]);
      keys := keys[..1];
      if !saved {
        keys := before;
        return None;
      }
    }

    /** A ring that wraps with this ring's current key and also unwraps with the keys of the
        given rings, in order. */
    method WithFallback(rings: seq<Master?>) returns (out: Master)
      ensures fresh(out) && out.hasFile == hasFile
      ensures out.keys == keys + KeysOf(rings)
    {
      var all, i := keys, 0;
      assert rings[..0] == [];
      while i < |rings|
        invariant 0 <= i <= |rings|
        invariant all == keys + KeysOf(rings[..i])
      {
        assert rings[..i + 1][..i] == rings[..i];
        if rings[i] != null { all := all + rings[i].keys; }
        i := i + 1;
      }
      assert rings[..|rings|] == rings;
      out := new Master(all, hasFile);
    }

    /** The first key of the ring that unwraps the value, and the plaintext. */
    method UnwrapIndex(w: Wrapped, aad: Aad) returns (index: int, plain: Bytes)
      ensures index == IndexOf(keys, w, aad)
      ensures index >= 0 ==> Plain(keys, w, aad) == Some(plain)
    {
      var i := 0;
      while i < |keys|
        invariant 0 <= i <= |keys|
        invariant forall j :: 0 <= j < i ==> !Opens(keys[j], w, aad)
      {
        if Opens(keys[i], w, aad) { return i, w.plain; }
        i := i + 1;
      }
      return -1, [];
    }
  }

  /** The keys of some rings, one after the other; nil rings have none. */
  ghost function KeysOf(rings: seq<Master?>): seq<MasterKey>
    reads rings
  {
    if rings == [] then []
    else
      var last := rings[|rings| - 1];
      KeysOf(rings[..|rings| - 1]) + if last == null then [] else last.keys
  }
}
