/** The paged scan of the lifecycle worker refines evaluation key by key
    (internal/lifecycle/worker.go, processObjects, collect and evalGroup). */
module LifecycleScan {
  import opened Kv
  import opened Keys
  import opened Lifecycle

  datatype Version = Version(key: Bytes, seqNo: nat, size: int, tags: seq<Tag>, modTime: int, tier: StorageClass, deleteMarker: bool)

  datatype Candidate = Candidate(v: Version, action: Action)

  /** The store in key order. */
  datatype Tx = Tx(keys: seq<Bytes>, values: seq<Version>)

  predicate IsVersion(k: Bytes, v: Version, bucket: Bytes) {
    v.key != [] && Free(NUL, v.key) && v.seqNo <= MAX_SEQ && k == ObjectKey(bucket, v.key, v.seqNo)
  }

  /** What lies under the bucket's prefix are version records under their keys. */
  ghost predicate Valid(tx: Tx, bucket: Bytes) {
    && |tx.keys| == |tx.values| && Ascending(tx.keys) && Free(SLASH, bucket)
    && forall i :: 0 <= i < |tx.keys| && HasPrefix(tx.keys[i], BucketPrefix(bucket)) ==> IsVersion(tx.keys[i], tx.values[i], bucket)
  }

  predicate Under(tx: Tx, bucket: Bytes, i: nat) {
    i < |tx.keys| && HasPrefix(tx.keys[i], BucketPrefix(bucket))
  }

  // ----- the reference: key by key

  /** The end of the run of versions of one key that starts at `i` and is known up to `j`. */
  function GroupEnd(tx: Tx, bucket: Bytes, i: nat, j: nat): (e: nat)
    requires i < j <= |tx.keys| == |tx.values|
    ensures j <= e <= |tx.keys|
    decreases |tx.keys| - j
  {
    if Under(tx, bucket, j) && tx.values[j].key == tx.values[i].key then GroupEnd(tx, bucket, i, j + 1) else j
  }

  /** How the rules see version `n` of a group, newest first. */
  function Input(group: seq<Version>, n: nat): EvalInput
    requires n < |group|
  {
    var v := group[n];
    EvalInput(v.key, v.size, v.tags, v.modTime, v.tier, n == 0, v.deleteMarker, |group| > 1,
              if n > 0 then group[n - 1].modTime else 0, if n > 0 then n - 1 else 0)
  }

  /** The candidates among the first `n` versions of a group. */
  function EvalGroup(rules: seq<Rule>, group: seq<Version>, now: int, n: nat): seq<Candidate>
    requires n <= |group|
  {
    if n == 0 then []
    else
      var a := Eval(rules, Input(group, n - 1), now);
      EvalGroup(rules, group, now, n - 1) + if a.kind != Nothing then [Candidate(group[n - 1], a)] else []
  }

  /** Evaluation of the groups from position `i` on. */
  function EvalFrom(tx: Tx, bucket: Bytes, rules: seq<Rule>, now: int, i: nat): seq<Candidate>
    requires |tx.keys| == |tx.values|
    decreases |tx.keys| - i
  {
    if !Under(tx, bucket, i) then []
    else
      var e := GroupEnd(tx, bucket, i, i + 1);
      EvalGroup(rules, tx.values[i..e], now, e - i) + EvalFrom(tx, bucket, rules, now, e)
  }

  /** A key's versions start at `i`: no record before belongs to it. */
  ghost predicate Boundary(tx: Tx, bucket: Bytes, i: nat) {
    i <= |tx.keys| == |tx.values| &&
    (Under(tx, bucket, i) ==> forall k :: 0 <= k < i && Under(tx, bucket, k) ==> tx.values[k].key != tx.values[i].key)
  }

  // ----- groups are complete

  /** The key successor of a group's last record is the start of the next group. */
  lemma NextGroup(tx: Tx, bucket: Bytes, i: nat)
    requires Valid(tx, bucket) && Under(tx, bucket, i)
    ensures Successor(ObjectPrefix(bucket, tx.values[i].key)).Some?
    ensures var e := Seek(tx.keys, Successor(ObjectPrefix(bucket, tx.values[i].key)).value);
      i < e <= |tx.keys| &&
      (forall k :: i <= k < e ==> Under(tx, bucket, k) && tx.values[k].key == tx.values[i].key) &&
      (forall k :: e <= k < |tx.keys| && Under(tx, bucket, k) ==> tx.values[k].key != tx.values[i].key)
  {
    var key := tx.values[i].key;
    var p := ObjectPrefix(bucket, key);
    NulSuccessor(bucket, key);
    hide Seek, Successor, ObjectKey, ObjectPrefix, HasPrefix;
    UnderVersions(tx, bucket, i, key);
    SeekSkipsPrefix(tx.keys, p, i);
    var e := Seek(tx.keys, Successor(p).value);
    forall k | i <= k < |tx.keys|
      ensures k < e ==> Under(tx, bucket, k) && tx.values[k].key == key
      ensures k >= e && Under(tx, bucket, k) ==> tx.values[k].key != key
    {
      if k < e { PrefixInBucket(tx.keys[k], bucket, key); }
      if Under(tx, bucket, k) { UnderVersions(tx, bucket, k, key); }
    }
  }

  lemma UnderVersions(tx: Tx, bucket: Bytes, k: nat, key: Bytes)
    requires Valid(tx, bucket) && Under(tx, bucket, k) && Free(NUL, key)
    ensures HasPrefix(tx.keys[k], ObjectPrefix(bucket, key)) <==> tx.values[k].key == key
  {
    hide ObjectKey, ObjectPrefix, HasPrefix, BucketPrefix, Ascending;
    VersionsMeaning(bucket, key, tx.values[k].key, tx.values[k].seqNo);
  }

  lemma PrefixInBucket(k: Bytes, bucket: Bytes, key: Bytes)
    requires HasPrefix(k, ObjectPrefix(bucket, key))
    ensures HasPrefix(k, BucketPrefix(bucket))
  {
    var p, q := ObjectPrefix(bucket, key), BucketPrefix(bucket);
    assert p[..|q|] == q;
    assert k[..|q|] == k[..|p|][..|q|];
  }

  lemma NulSuccessor(bucket: Bytes, key: Bytes)
    ensures Successor(ObjectPrefix(bucket, key)).Some?
  {
    var p := ObjectPrefix(bucket, key);
    assert p[|p| - 1] == NUL;
  }

  /** A group ends exactly where the successor of its key seeks to, and a new group starts there. */
  lemma GroupIsComplete(tx: Tx, bucket: Bytes, i: nat)
    requires Valid(tx, bucket) && Under(tx, bucket, i) && Boundary(tx, bucket, i)
    ensures var e := GroupEnd(tx, bucket, i, i + 1);
      Successor(ObjectPrefix(bucket, tx.values[i].key)).Some? &&
      e == Seek(tx.keys, Successor(ObjectPrefix(bucket, tx.values[i].key)).value) &&
      Boundary(tx, bucket, e) &&
      (forall k :: 0 <= k < |tx.keys| && Under(tx, bucket, k) ==> (tx.values[k].key == tx.values[i].key <==> i <= k < e)) &&
      forall k :: i <= k < e ==> Under(tx, bucket, k)
  {
    NextGroup(tx, bucket, i);
    var e := Seek(tx.keys, Successor(ObjectPrefix(bucket, tx.values[i].key)).value);
    hide Seek, Successor, ObjectKey, ObjectPrefix, HasPrefix, BucketPrefix;
    EndIs(tx, bucket, i, i + 1, e);
    if Under(tx, bucket, e) {
      forall k | 0 <= k < e && Under(tx, bucket, k)
        ensures tx.values[k].key != tx.values[e].key
      {
        if k < i && tx.values[k].key == tx.values[e].key {
          NextGroup(tx, bucket, k);
          Between(tx, bucket, k, i, e);
        }
      }
    }
  }

  /** Versions of one key have nothing between them. */
  lemma Between(tx: Tx, bucket: Bytes, k: nat, i: nat, e: nat)
    requires Valid(tx, bucket) && k <= i <= e && Under(tx, bucket, k) && Under(tx, bucket, e) && tx.values[e].key == tx.values[k].key
    ensures Under(tx, bucket, i) && tx.values[i].key == tx.values[k].key
  {
    NextGroup(tx, bucket, k);
  }

  lemma {:induction false} EndIs(tx: Tx, bucket: Bytes, i: nat, j: nat, e: nat)
    requires i < j <= e <= |tx.keys| == |tx.values|
    requires forall k :: i <= k < e ==> Under(tx, bucket, k) && tx.values[k].key == tx.values[i].key
    requires Under(tx, bucket, e) ==> tx.values[e].key != tx.values[i].key
    ensures GroupEnd(tx, bucket, i, j) == e
    decreases e - j
  {
    hide Under;
    if j < e { EndIs(tx, bucket, i, j + 1, e); }
  }

  /** All versions of a key among the first `n` records. */
  function VersionsOf(tx: Tx, bucket: Bytes, key: Bytes, n: nat): seq<Version>
    requires n <= |tx.keys| == |tx.values|
  {
    if n == 0 then []
    else
      VersionsOf(tx, bucket, key, n - 1) +
      if Under(tx, bucket, n - 1) && tx.values[n - 1].key == key then [tx.values[n - 1]] else []
  }

  /** A group holds exactly the versions of its key. */
  lemma GroupIsAllVersions(tx: Tx, bucket: Bytes, i: nat)
    requires Valid(tx, bucket) && Under(tx, bucket, i) && Boundary(tx, bucket, i)
    ensures tx.values[i..GroupEnd(tx, bucket, i, i + 1)] == VersionsOf(tx, bucket, tx.values[i].key, |tx.keys|)
  {
    GroupIsComplete(tx, bucket, i);
    Gather(tx, bucket, i, GroupEnd(tx, bucket, i, i + 1), |tx.keys|);
  }

  lemma {:induction false} Gather(tx: Tx, bucket: Bytes, i: nat, e: nat, n: nat)
    requires i < e <= |tx.keys| == |tx.values| && n <= |tx.keys|
    requires forall k :: 0 <= k < |tx.keys| && Under(tx, bucket, k) ==> (tx.values[k].key == tx.values[i].key <==> i <= k < e)
    requires forall k :: i <= k < e ==> Under(tx, bucket, k)
    ensures VersionsOf(tx, bucket, tx.values[i].key, n) == if n <= i then [] else tx.values[i..if n < e then n else e]
  {
    hide Under;
    if n > 0 {
      Gather(tx, bucket, i, e, n - 1);
      if i < n <= e { assert tx.values[i..n] == tx.values[i..n - 1] + [tx.values[n - 1]]; }
    }
  }

  /** Within a group versions stand newest first. */
  lemma NewestFirst(tx: Tx, bucket: Bytes, j: nat, k: nat)
    requires Valid(tx, bucket) && j < k && Under(tx, bucket, j) && Under(tx, bucket, k) && tx.values[j].key == tx.values[k].key
    ensures tx.values[j].seqNo > tx.values[k].seqNo
  {
    hide ObjectKey, HasPrefix, BucketPrefix, Lt;
    var v, w := tx.values[j], tx.values[k];
    RecordOrder(bucket, v.key, v.seqNo, w.key, w.seqNo);
    LtIrreflexive(v.key);
  }

  // ----- the worker

  /** `evalGroup` */
  method EvaluateGroup(rules: seq<Rule>, versions: seq<Version>, now: int) returns (out: seq<Candidate>)
    ensures out == EvalGroup(rules, versions, now, |versions|)
  {
    out := [];
    var i := 0;
    while i < |versions|
      invariant 0 <= i <= |versions| && out == EvalGroup(rules, versions, now, i)
    {
      var a := EvalRules(rules, Input(versions, i), now);
      if a.kind != Nothing { out := out + [Candidate(versions[i], a)]; }
      i := i + 1;
    }
  }

  /** `collect`: the candidates of complete groups from `start` on, and where to resume. */
  method Collect(tx: Tx, bucket: Bytes, rules: seq<Rule>, start: Bytes, now: int, batchSize: nat, maxScan: nat)
    returns (batch: seq<Candidate>, next: Option<Bytes>)
    requires Valid(tx, bucket) && Boundary(tx, bucket, Seek(tx.keys, start))
    ensures var i := Seek(tx.keys, start);
      next.None? ==> batch == EvalFrom(tx, bucket, rules, now, i)
    ensures var i := Seek(tx.keys, start);
      next.Some? ==>
        i < Seek(tx.keys, next.value) && Boundary(tx, bucket, Seek(tx.keys, next.value)) &&
        batch + EvalFrom(tx, bucket, rules, now, Seek(tx.keys, next.value)) == EvalFrom(tx, bucket, rules, now, i)
  {
    hide Seek, Successor, ObjectKey, ObjectPrefix, HasPrefix, BucketPrefix, EvalGroup, Boundary, Ascending, EvalFrom, GroupEnd, Valid;
    SameLength(tx, bucket);
    batch, next := [], None;
    var group: seq<Version>, groupKey: Bytes, scanned := [], [], 0;
    ghost var first := Seek(tx.keys, start);
    ghost var from := first;
    var i := Seek(tx.keys, start);
    while Under(tx, bucket, i)
      invariant first <= from <= i <= |tx.keys| && Boundary(tx, bucket, from)
      invariant group == tx.values[from..i] && (group != [] ==> Under(tx, bucket, from) && groupKey == tx.values[from].key)
      invariant group != [] ==> GroupEnd(tx, bucket, from, from + 1) == GroupEnd(tx, bucket, from, i)
      invariant batch + EvalFrom(tx, bucket, rules, now, from) == EvalFrom(tx, bucket, rules, now, first)
      decreases |tx.keys| - i
    {
      var key := tx.values[i].key;
      if key != groupKey && group != [] {
        GroupGrows(tx, bucket, from, i);
        var out := EvaluateGroup(rules, group, now);
        GroupIsComplete(tx, bucket, from);
        FlushGroup(tx, bucket, rules, now, batch, from, i, first);
        batch, group := batch + out, [];
        from := i;
        if |batch| >= batchSize || scanned >= maxScan {
          return batch, Successor(ObjectPrefix(bucket, groupKey));
        }
      }
      GroupGrows(tx, bucket, from, i);
      groupKey := key;
      assert tx.values[from..i + 1] == tx.values[from..i] + [tx.values[i]];
      group := group + [tx.values[i]];
      scanned := scanned + 1;
      i := i + 1;
    }
    if group != [] {
      GroupGrows(tx, bucket, from, i);
      var out := EvaluateGroup(rules, group, now);
      FlushGroup(tx, bucket, rules, now, batch, from, i, first);
      batch := batch + out;
    }
    NoneLeft(tx, bucket, rules, now, i);
  }

  lemma SameLength(tx: Tx, bucket: Bytes)
    requires Valid(tx, bucket)
    ensures |tx.keys| == |tx.values|
  {
  }

  lemma NoneLeft(tx: Tx, bucket: Bytes, rules: seq<Rule>, now: int, i: nat)
    requires |tx.keys| == |tx.values| && !Under(tx, bucket, i)
    ensures EvalFrom(tx, bucket, rules, now, i) == []
  {
  }

  /** A group goes on with the next record of its key, and ends before any other. */
  lemma GroupGrows(tx: Tx, bucket: Bytes, from: nat, i: nat)
    requires from <= i <= |tx.keys| == |tx.values|
    ensures from < i && Under(tx, bucket, i) && tx.values[i].key == tx.values[from].key ==>
      GroupEnd(tx, bucket, from, i) == GroupEnd(tx, bucket, from, i + 1)
    ensures from < i && !(Under(tx, bucket, i) && tx.values[i].key == tx.values[from].key) ==> GroupEnd(tx, bucket, from, i) == i
  {
    hide Under;
  }

  lemma Joined(a: seq<Candidate>, b: seq<Candidate>, c: seq<Candidate>)
    ensures a + b + c == a + (b + c)
  {
  }

  lemma FlushGroup(tx: Tx, bucket: Bytes, rules: seq<Rule>, now: int, batch: seq<Candidate>, from: nat, i: nat, first: nat)
    requires |tx.keys| == |tx.values| && from < i <= |tx.keys| && Under(tx, bucket, from)
    requires GroupEnd(tx, bucket, from, from + 1) == i
    requires batch + EvalFrom(tx, bucket, rules, now, from) == EvalFrom(tx, bucket, rules, now, first)
    ensures (batch + EvalGroup(rules, tx.values[from..i], now, i - from)) + EvalFrom(tx, bucket, rules, now, i) ==
      EvalFrom(tx, bucket, rules, now, first)
  {
    hide EvalGroup, Under, GroupEnd;
    var here := EvalGroup(rules, tx.values[from..i], now, i - from);
    assert EvalFrom(tx, bucket, rules, now, from) == here + EvalFrom(tx, bucket, rules, now, i);
    hide EvalFrom;
    Joined(batch, here, EvalFrom(tx, bucket, rules, now, i));
  }

  /** `processObjects` on a store that does not change: page after page, whatever their sizes, the
      worker decides what evaluation key by key decides, in the same order, and comes to an end. */
  method Process(tx: Tx, bucket: Bytes, rules: seq<Rule>, now: int, batchSize: nat, maxScan: nat) returns (all: seq<Candidate>)
    requires Valid(tx, bucket)
    ensures all == EvalFrom(tx, bucket, rules, now, Seek(tx.keys, BucketPrefix(bucket)))
  {
    all := [];
    var resume := Some(BucketPrefix(bucket));
    ghost var first := Seek(tx.keys, BucketPrefix(bucket));
    FirstBoundary(tx, bucket);
    hide Seek, Successor, ObjectKey, ObjectPrefix, HasPrefix, BucketPrefix, EvalFrom, Boundary, Valid, Eval, Input;
    while resume.Some?
      invariant resume.Some? ==> Boundary(tx, bucket, Seek(tx.keys, resume.value))
      invariant resume.Some? ==>
        all + EvalFrom(tx, bucket, rules, now, Seek(tx.keys, resume.value)) == EvalFrom(tx, bucket, rules, now, first)
      invariant resume.None? ==> all == EvalFrom(tx, bucket, rules, now, first)
      decreases resume.Some?, if resume.Some? then |tx.keys| - Seek(tx.keys, resume.value) else 0
    {
      var batch, next := Collect(tx, bucket, rules, resume.value, now, batchSize, maxScan);
      ghost var done := all;
      all := all + batch;
      if next.Some? {
        Joined(done, batch, EvalFrom(tx, bucket, rules, now, Seek(tx.keys, next.value)));
      }
      resume := next;
    }
  }

  lemma FirstBoundary(tx: Tx, bucket: Bytes)
    requires Valid(tx, bucket)
    ensures Boundary(tx, bucket, Seek(tx.keys, BucketPrefix(bucket)))
  {
    var i := Seek(tx.keys, BucketPrefix(bucket));
    hide ObjectKey, HasPrefix, BucketPrefix, Lt, Seek;
    forall k | 0 <= k < i && Under(tx, bucket, k)
      ensures false
    {
      PrefixLe(BucketPrefix(bucket), tx.keys[k]);
      LtIrreflexive(tx.keys[k]);
      if tx.keys[k] != BucketPrefix(bucket) { LtAsymmetric(BucketPrefix(bucket), tx.keys[k]); }
    }
  }
}
