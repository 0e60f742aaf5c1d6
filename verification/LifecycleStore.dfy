/** The lifecycle's view of a bucket is the store's: what an action does to the newest-first list
    of a key is what the delete transaction does to its records (internal/lifecycle/worker.go,
    apply, over internal/object/delete.go). */
module LifecycleStore {
  import opened Kv
  import opened Lifecycle
  import opened LifecycleScan
  import opened LifecycleRuns
  import Protocol
  import Records
  import Safety
  import SafetyPut
  import Service

  // ----- the versions of a key

  /** The list entry shows the record. */
  predicate Shown(s: Stored, o: Records.Object) {
    s.v.seqNo == o.seqNo && s.v.deleteMarker == o.deleteMarker && s.v.size == o.size && (s.isNull <==> o.vid == Records.NullId)
  }

  ghost predicate Stands(kv: Records.Kv, bucket: Records.Name, key: Records.Key, s: Stored) {
    var id := Records.ObjectId(bucket, key, s.v.seqNo);
    id in kv.objects && Shown(s, kv.objects[id])
  }

  ghost predicate Listed(vs: seq<Stored>, seqNo: nat) {
    exists i :: 0 <= i < |vs| && vs[i].v.seqNo == seqNo
  }

  /** The list shows exactly the records of the key, newest first. */
  ghost predicate Shows(kv: Records.Kv, bucket: Records.Name, key: Records.Key, vs: seq<Stored>) {
    && (forall i, j :: 0 <= i < j < |vs| ==> vs[i].v.seqNo > vs[j].v.seqNo)
    && (forall i :: 0 <= i < |vs| ==> Stands(kv, bucket, key, vs[i]))
    && (forall n: nat :: Records.ObjectId(bucket, key, n) in kv.objects ==> Listed(vs, n))
  }

  predicate SameVersioning(v: Versioning, w: Records.Versioning) {
    match v
    case Unversioned => w == Records.Unversioned
    case Enabled => w == Records.Versioning.Enabled
    case Suspended => w == Records.Suspended
  }

  /** The lifecycle's bucket has the versions of the key, the versioning state and a `next` above
      every sequence of the key. */
  ghost predicate Mirrors(b: Bucket, k: Bytes, kv: Records.Kv, bucket: Records.Name, key: Records.Key) {
    && Shows(kv, bucket, key, Of(b, k))
    && (bucket in kv.buckets ==> SameVersioning(b.versioning, kv.buckets[bucket].versioning))
    && (forall n: nat :: Records.ObjectId(bucket, key, n) in kv.objects ==> n < b.next)
    && (k in b.keys ==> b.keys[k] != [])
  }

  lemma RemovedAt(vs: seq<Stored>, i: nat)
    requires i < |vs|
    ensures |Remove(vs, i)| == |vs| - 1
    ensures forall j :: 0 <= j < i ==> Remove(vs, i)[j] == vs[j]
    ensures forall j :: i <= j < |vs| - 1 ==> Remove(vs, i)[j] == vs[j + 1]
  {
  }

  /** One record gone, one entry gone. */
  lemma ShowsRemoved(kv: Records.Kv, kv': Records.Kv, bucket: Records.Name, key: Records.Key, vs: seq<Stored>, i: nat)
    requires Shows(kv, bucket, key, vs) && i < |vs|
    requires kv'.objects == kv.objects - {Records.ObjectId(bucket, key, vs[i].v.seqNo)}
    ensures Shows(kv', bucket, key, Remove(vs, i))
  {
    var rest := Remove(vs, i);
    RemovedAt(vs, i);
    hide Remove, Shown;
    forall j | 0 <= j < |rest|
      ensures Stands(kv', bucket, key, rest[j])
    {
      var was := if j < i then j else j + 1;
      assert Stands(kv, bucket, key, vs[was]) && vs[was].v.seqNo != vs[i].v.seqNo;
    }
    forall n: nat | Records.ObjectId(bucket, key, n) in kv'.objects
      ensures Listed(rest, n)
    {
      assert Listed(vs, n);
      var j :| 0 <= j < |vs| && vs[j].v.seqNo == n;
      assert rest[if j < i then j else j - 1] == vs[j];
    }
  }

  /** One newer record, one entry on top. */
  lemma ShowsAdded(kv: Records.Kv, kv': Records.Kv, bucket: Records.Name, key: Records.Key, vs: seq<Stored>, top: Stored, o: Records.Object)
    requires Shows(kv, bucket, key, vs) && Shown(top, o)
    requires forall i :: 0 <= i < |vs| ==> vs[i].v.seqNo < top.v.seqNo
    requires kv'.objects == kv.objects[Records.ObjectId(bucket, key, top.v.seqNo) := o]
    ensures Shows(kv', bucket, key, [top] + vs)
  {
    var all := [top] + vs;
    forall i | 0 <= i < |all|
      ensures Stands(kv', bucket, key, all[i])
    {
      if i > 0 { assert all[i] == vs[i - 1]; }
    }
    forall n: nat | Records.ObjectId(bucket, key, n) in kv'.objects
      ensures Listed(all, n)
    {
      if n == top.v.seqNo {
        assert all[0].v.seqNo == n;
      } else {
        assert Listed(vs, n);
        var i :| 0 <= i < |vs| && vs[i].v.seqNo == n;
        assert all[i + 1].v.seqNo == n;
      }
    }
  }

  /** The latest record is shown first. */
  lemma LatestIsFirst(kv: Records.Kv, bucket: Records.Name, key: Records.Key, vs: seq<Stored>)
    requires Shows(kv, bucket, key, vs)
    ensures var cur := Records.GetLatest(kv, bucket, key);
      (cur.Some? <==> vs != []) &&
      (vs != [] ==> Stands(kv, bucket, key, vs[0]) && cur.value == kv.objects[Records.ObjectId(bucket, key, vs[0].v.seqNo)])
  {
    var cur := Records.GetLatest(kv, bucket, key);
    if vs != [] { assert Stands(kv, bucket, key, vs[0]); }
    if cur.Some? {
      var n :| Records.IsNewest(kv, bucket, key, n) && cur.value == kv.objects[Records.ObjectId(bucket, key, n)];
      assert Listed(vs, n);
    }
  }

  /** The null version is the one entry that shows it. */
  lemma NullIsShown(kv: Records.Kv, bucket: Records.Name, key: Records.Key, vs: seq<Stored>)
    requires Shows(kv, bucket, key, vs) && Records.VersionsValid(kv)
    ensures var ptr := Records.NullPtr(bucket, key);
      (ptr in kv.nulls <==> FindNull(vs) < |vs|) && (ptr in kv.nulls ==> kv.nulls[ptr] == vs[FindNull(vs)].v.seqNo)
  {
    Records.NullVersionUnique(kv, bucket, key);
    var ptr := Records.NullPtr(bucket, key);
    var i := FindNull(vs);
    if i < |vs| {
      assert Stands(kv, bucket, key, vs[i]);
      assert Records.IsNullVersion(kv, bucket, key, vs[i].v.seqNo);
      assert Records.IsPointed(kv, Records.ObjectId(bucket, key, vs[i].v.seqNo));
    }
    if ptr in kv.nulls {
      assert Records.PointsToNull(kv, ptr);
      assert Listed(vs, kv.nulls[ptr]);
      var j :| 0 <= j < |vs| && vs[j].v.seqNo == kv.nulls[ptr];
      assert Stands(kv, bucket, key, vs[j]) && vs[j].isNull;
    }
  }

  // ----- one action

  /** The delete request that the worker sends for an action; it carries no version ID for the
      current version, and always the sequence the worker saw. */
  function RequestOf(c: Candidate, vid: Records.Vid): Service.DeleteRequest {
    Service.DeleteRequest(if c.action.kind == ExpireCurrent then Records.None else Records.Some(vid), false, Records.None,
                          Records.Some(c.v.seqNo))
  }

  predicate Deletes(c: Candidate) {
    c.action.kind == ExpireCurrent || c.action.kind == ExpireNoncurrentVersion || c.action.kind == RemoveDeleteMarker
  }

  /** The delete was refused, rather than found to have nothing to do. */
  predicate RefusedBy<T>(d: Service.Outcome<T>) {
    d.Failed? && (d.error == Service.AccessDenied || d.error == Service.NoSuchBucket || d.error == Service.Changed)
  }

  function After<T>(kv: Records.Kv, d: Service.Outcome<T>): Records.Kv {
    if d.Committed? then d.kv else kv
  }

  lemma Numbers(kv: Records.Kv, bucket: Records.Name, key: Records.Key, vs: seq<Stored>, next: nat)
    requires Shows(kv, bucket, key, vs) && forall n: nat :: Records.ObjectId(bucket, key, n) in kv.objects ==> n < next
    ensures forall i :: 0 <= i < |vs| ==> vs[i].v.seqNo < next
  {
    forall i | 0 <= i < |vs|
      ensures vs[i].v.seqNo < next
    {
      assert Stands(kv, bucket, key, vs[i]);
    }
  }

  /** A marker in a bucket that keeps all versions. */
  lemma MarkerOnTop(kv: Records.Kv, bucket: Records.Name, key: Records.Key, vs: seq<Stored>, k: Bytes, next: nat, random: nat, now: int)
    requires Shows(kv, bucket, key, vs) && forall n: nat :: Records.ObjectId(bucket, key, n) in kv.objects ==> n < next
    ensures Shows(Records.PutObject(kv, bucket, key, Service.DeleteMarker(Records.SeqId(next, random), next)), bucket, key,
                  [Marker(k, next, now, false)] + vs)
  {
    var o := Service.DeleteMarker(Records.SeqId(next, random), next);
    Numbers(kv, bucket, key, vs, next);
    hide Shows;
    ShowsAdded(kv, Records.PutObject(kv, bucket, key, o), bucket, key, vs, Marker(k, next, now, false), o);
  }

  /** A null marker takes the place of the null version. */
  lemma NullMarkerOnTop(kv: Records.Kv, bucket: Records.Name, key: Records.Key, vs: seq<Stored>, k: Bytes, next: nat, now: int)
    requires Shows(kv, bucket, key, vs) && Records.VersionsValid(kv)
    requires forall n: nat :: Records.ObjectId(bucket, key, n) in kv.objects ==> n < next
    ensures Shows(Records.PutObject(kv, bucket, key, Service.DeleteMarker(Records.NullId, next)), bucket, key,
                  [Marker(k, next, now, true)] + Remove(vs, FindNull(vs)))
  {
    var o, i := Service.DeleteMarker(Records.NullId, next), FindNull(vs);
    NullIsShown(kv, bucket, key, vs);
    var gone := kv.(objects := if i < |vs| then kv.objects - {Records.ObjectId(bucket, key, vs[i].v.seqNo)} else kv.objects);
    if i < |vs| { ShowsRemoved(kv, gone, bucket, key, vs, i); }
    Numbers(gone, bucket, key, Remove(vs, i), next);
    hide Shows;
    ShowsAdded(gone, Records.PutObject(kv, bucket, key, o), bucket, key, Remove(vs, i), Marker(k, next, now, true), o);
  }

  /** The three ways a delete of the current version ends, in the transaction ... */
  lemma TransactionIs(kv: Records.Kv, bucket: Records.Name, key: Records.Key, r: Service.DeleteRequest, next: nat, random: nat, clock: int)
    requires bucket in kv.buckets && r.ifMatch.None? && r.ifSeq.Some?
    ensures var d := Service.DeleteCurrent(kv, kv.buckets[bucket], bucket, key, r, next, random, clock);
      var cur := Records.GetLatest(kv, bucket, key);
      if cur.None? || cur.value.seqNo != r.ifSeq.value then
        d == Service.Failed(Service.PreconditionFailed)
      else if d.Failed? then
        d.error == Service.AccessDenied
      else
        d.kv ==
          match kv.buckets[bucket].versioning
          case Enabled => Records.PutObject(kv, bucket, key, Service.DeleteMarker(Records.SeqId(next, random), next))
          case Suspended => Records.PutObject(kv, bucket, key, Service.DeleteMarker(Records.NullId, next))
          case Unversioned => Records.DeleteVersion(kv, bucket, key, cur.value)
  {
    hide Records.PutObject, Records.DeleteVersion, Records.GetLatest, Records.GetVersion, Service.DeleteMarker, Service.Locked;
  }

  /** ... and in the list. */
  lemma ListIs(b: Bucket, c: Candidate, now: int)
    requires c.action.kind == ExpireCurrent && (c.v.key in b.keys ==> b.keys[c.v.key] != [])
    ensures var vs, k := Of(b, c.v.key), c.v.key;
      Of(Apply(b, c, now, true), k) == vs &&
      Of(Apply(b, c, now, false), k) ==
        if vs == [] || vs[0].v.seqNo != c.v.seqNo then vs
        else
          match b.versioning
          case Enabled => [Marker(k, b.next, now, false)] + vs
          case Suspended => [Marker(k, b.next, now, true)] + Remove(vs, FindNull(vs))
          case Unversioned => vs[1..]
  {
    hide Marker, Remove, FindNull, Find;
  }

  /** Expiring the current version: a delete without a version ID. */
  lemma CurrentRefines(kv: Records.Kv, bucket: Records.Name, key: Records.Key, b: Bucket, c: Candidate, vid: Records.Vid,
                       random: nat, clock: int, now: int)
    requires Records.VersionsValid(kv) && bucket in kv.buckets && Mirrors(b, c.v.key, kv, bucket, key) && c.action.kind == ExpireCurrent
    ensures var d := Service.DeleteCurrent(kv, kv.buckets[bucket], bucket, key, RequestOf(c, vid), b.next, random, clock);
      Shows(After(kv, d), bucket, key, Of(Apply(b, c, now, RefusedBy(d)), c.v.key))
  {
    hide Shows, Stands, Of, Apply, Service.DeleteCurrent, Records.PutObject, Records.DeleteVersion, Records.GetLatest,
      Records.VersionsValid, Remove, FindNull, Marker, Service.DeleteMarker;
    var vs := Of(b, c.v.key);
    TransactionIs(kv, bucket, key, RequestOf(c, vid), b.next, random, clock);
    ListIs(b, c, now);
    LatestIsFirst(kv, bucket, key, vs);
    if vs != [] {
      StandsIs(kv, bucket, key, vs[0]);
      match b.versioning
      case Enabled => MarkerOnTop(kv, bucket, key, vs, c.v.key, b.next, random, now);
      case Suspended => NullMarkerOnTop(kv, bucket, key, vs, c.v.key, b.next, now);
      case Unversioned => FirstGone(kv, bucket, key, vs);
    }
  }

  lemma StandsIs(kv: Records.Kv, bucket: Records.Name, key: Records.Key, s: Stored)
    requires Stands(kv, bucket, key, s)
    ensures var id := Records.ObjectId(bucket, key, s.v.seqNo); id in kv.objects && kv.objects[id].seqNo == s.v.seqNo
  {
  }

  lemma FirstGone(kv: Records.Kv, bucket: Records.Name, key: Records.Key, vs: seq<Stored>)
    requires Shows(kv, bucket, key, vs) && vs != []
    ensures var id := Records.ObjectId(bucket, key, vs[0].v.seqNo);
      id in kv.objects && Shows(Records.DeleteVersion(kv, bucket, key, kv.objects[id]), bucket, key, vs[1..])
  {
    assert Remove(vs, 0) == vs[1..];
    hide Shows;
    OneGone(kv, bucket, key, vs, 0);
  }

  /** Expiring a noncurrent version or removing a marker: a delete by version ID. */
  lemma VersionRefines(kv: Records.Kv, e: Service.Expect, bucket: Records.Name, key: Records.Key, b: Bucket, c: Candidate,
                       vid: Records.Vid, clock: int, now: int)
    requires Records.VersionsValid(kv) && Mirrors(b, c.v.key, kv, bucket, key) && Deletes(c) && c.action.kind != ExpireCurrent
    requires IsIdOf(kv, bucket, key, c.v.seqNo, vid)
    ensures var d := Service.DeleteOneVersion(kv, e, bucket, key, RequestOf(c, vid), clock);
      Shows(After(kv, d), bucket, key, Of(Apply(b, c, now, RefusedBy(d)), c.v.key))
  {
    hide Shows, Stands, Of, Apply, Service.DeleteOneVersion, Records.DeleteVersion, Records.GetVersion, Records.VersionsValid, Remove;
    var vs := Of(b, c.v.key);
    var i := Find(vs, c.v.seqNo);
    OneIs(kv, e, bucket, key, RequestOf(c, vid), clock);
    VersionListIs(b, c, now);
    IdFinds(kv, bucket, key, vs, c.v.seqNo, vid);
    if i < |vs| { OneGone(kv, bucket, key, vs, i); }
  }

  lemma OneIs(kv: Records.Kv, e: Service.Expect, bucket: Records.Name, key: Records.Key, r: Service.DeleteRequest, clock: int)
    requires r.vid.Some? && r.ifMatch.None? && r.ifSeq.Some?
    ensures var d, o := Service.DeleteOneVersion(kv, e, bucket, key, r, clock), Records.GetVersion(kv, bucket, key, r.vid.value);
      if o.None? || o.value.seqNo != r.ifSeq.value then
        After(kv, d) == kv && !RefusedBy(d)
      else if d.Failed? then
        RefusedBy(d)
      else
        d.kv == Records.DeleteVersion(kv, bucket, key, o.value)
  {
    hide Records.DeleteVersion, Records.GetVersion, Service.Locked, Service.ObjectExpected;
  }

  lemma VersionListIs(b: Bucket, c: Candidate, now: int)
    requires Deletes(c) && c.action.kind != ExpireCurrent && (c.v.key in b.keys ==> b.keys[c.v.key] != [])
    ensures var vs, k, i := Of(b, c.v.key), c.v.key, Find(Of(b, c.v.key), c.v.seqNo);
      Of(Apply(b, c, now, true), k) == vs && Of(Apply(b, c, now, false), k) == if i < |vs| then Remove(vs, i) else vs
  {
    hide Remove;
  }

  /** The ID finds the version with that sequence exactly when it is listed. */
  lemma IdFinds(kv: Records.Kv, bucket: Records.Name, key: Records.Key, vs: seq<Stored>, seqNo: nat, vid: Records.Vid)
    requires Records.VersionsValid(kv) && Shows(kv, bucket, key, vs) && IsIdOf(kv, bucket, key, seqNo, vid)
    ensures var o, i, id := Records.GetVersion(kv, bucket, key, vid), Find(vs, seqNo), Records.ObjectId(bucket, key, seqNo);
      (o.Some? && o.value.seqNo == seqNo <==> i < |vs|) && (i < |vs| ==> id in kv.objects && o.value == kv.objects[id])
  {
    var o, i := Records.GetVersion(kv, bucket, key, vid), Find(vs, seqNo);
    hide Records.GetVersion, Records.VersionsValid;
    if i < |vs| {
      assert Stands(kv, bucket, key, vs[i]);
      Records.GetVersionIsLookup(kv, bucket, key, vid, kv.objects[Records.ObjectId(bucket, key, seqNo)]);
    }
    if o.Some? {
      Records.GetVersionIsLookup(kv, bucket, key, vid, o.value);
      assert Listed(vs, o.value.seqNo);
    }
  }

  lemma OneGone(kv: Records.Kv, bucket: Records.Name, key: Records.Key, vs: seq<Stored>, i: nat)
    requires Shows(kv, bucket, key, vs) && i < |vs|
    ensures var id := Records.ObjectId(bucket, key, vs[i].v.seqNo);
      id in kv.objects && Shows(Records.DeleteVersion(kv, bucket, key, kv.objects[id]), bucket, key, Remove(vs, i))
  {
    assert Stands(kv, bucket, key, vs[i]);
    var o := kv.objects[Records.ObjectId(bucket, key, vs[i].v.seqNo)];
    hide Shows;
    ShowsRemoved(kv, Records.DeleteVersion(kv, bucket, key, o), bucket, key, vs, i);
  }

  /** The ID the worker saw is the ID of the version with that sequence, while it is stored. */
  ghost predicate IsIdOf(kv: Records.Kv, bucket: Records.Name, key: Records.Key, seqNo: nat, vid: Records.Vid) {
    var id := Records.ObjectId(bucket, key, seqNo);
    id in kv.objects ==> kv.objects[id].vid == vid
  }

  /** What a delete action does to the list of its key, with the refusals left open there, is what
      the delete transaction does to the records of the key. */
  lemma ActionRefines(kv: Records.Kv, e: Service.Expect, bucket: Records.Name, key: Records.Key, b: Bucket, c: Candidate,
                      vid: Records.Vid, random: nat, clock: int, now: int)
    requires Records.VersionsValid(kv) && Deletes(c)
    requires Mirrors(b, c.v.key, kv, bucket, key) && IsIdOf(kv, bucket, key, c.v.seqNo, vid)
    ensures var d := Service.CommitDelete(kv, e, bucket, key, RequestOf(c, vid), b.next, random, clock);
      Shows(After(kv, d), bucket, key, Of(Apply(b, c, now, RefusedBy(d)), c.v.key))
  {
    hide Shows, Apply, Records.VersionsValid, Service.DeleteCurrent, Service.DeleteOneVersion, Of;
    if Service.LiveBucket(kv, e, bucket).Some? {
      if c.action.kind == ExpireCurrent {
        CurrentRefines(kv, bucket, key, b, c, vid, random, clock, now);
      } else {
        VersionRefines(kv, e, bucket, key, b, c, vid, clock, now);
      }
    } else {
      NotApplied(b, c, now);
    }
  }

  lemma NotApplied(b: Bucket, c: Candidate, now: int)
    ensures Apply(b, c, now, true) == b
  {
  }

  /** The same for the delete step of the protocol in any state that satisfies its invariant. */
  lemma StepRefines(s: Protocol.State, p: nat, e: Service.Expect, bucket: Records.Name, key: Records.Key, b: Bucket,
                    c: Candidate, vid: Records.Vid, random: nat, now: int)
    requires Safety.Inv(s) && Protocol.Idle(s, p) && b.next == s.next && Deletes(c)
    requires Mirrors(b, c.v.key, s.kv, bucket, key) && IsIdOf(s.kv, bucket, key, c.v.seqNo, vid)
    ensures var d := Service.CommitDelete(s.kv, e, bucket, key, RequestOf(c, vid), s.next, random, s.now);
      Shows(Protocol.Do(s, Protocol.Delete(p, e, bucket, key, RequestOf(c, vid), random)).kv, bucket, key,
            Of(Apply(b, c, now, RefusedBy(d)), c.v.key))
  {
    hide Shows, Mirrors, IsIdOf, Apply, Of, RequestOf, Safety.Inv, Safety.KvInv, Records.VersionsValid, Service.CommitDelete;
    SafetyPut.KvOfInv(s);
    SafetyPut.PartsOfInv(s.kv, s.blobs, s.next);
    ActionRefines(s.kv, e, bucket, key, b, c, vid, random, s.now, now);
  }
  predicate Untouched(kv: Records.Kv, kv': Records.Kv, id: Records.ObjectId) {
    (id in kv'.objects <==> id in kv.objects) && (id in kv.objects ==> kv'.objects[id] == kv.objects[id])
  }

  lemma WritesTouch(kv: Records.Kv, bucket: Records.Name, key: Records.Key, o: Records.Object, id: Records.ObjectId)
    requires id.bucket != bucket || id.key != key
    ensures Untouched(kv, Records.PutObject(kv, bucket, key, o), id) && Untouched(kv, Records.DeleteVersion(kv, bucket, key, o), id)
  {
  }

  /** The versions of every other key stay as they are, as they do in the lifecycle's bucket. */
  lemma OtherKeysStay(kv: Records.Kv, e: Service.Expect, bucket: Records.Name, key: Records.Key, r: Service.DeleteRequest,
                      next: nat, random: nat, clock: int, id: Records.ObjectId)
    requires id.bucket != bucket || id.key != key
    ensures Untouched(kv, After(kv, Service.CommitDelete(kv, e, bucket, key, r, next, random, clock)), id)
  {
    hide Records.GetLatest, Records.GetVersion, Service.CheckDeleteConditions, Service.Locked, Service.DeleteMarker, Service.LiveBucket,
      Records.PutObject, Records.DeleteVersion, Service.EtagMatches, Service.ObjectExpected;
    if r.vid.Some? {
      var o := Records.GetVersion(kv, bucket, key, r.vid.value);
      if o.Some? { WritesTouch(kv, bucket, key, o.value, id); }
    } else {
      var o := Records.GetLatest(kv, bucket, key);
      if o.Some? { WritesTouch(kv, bucket, key, o.value, id); }
      WritesTouch(kv, bucket, key, Service.DeleteMarker(Records.SeqId(next, random), next), id);
      WritesTouch(kv, bucket, key, Service.DeleteMarker(Records.NullId, next), id);
    }
    hide Untouched;
  }
}
