/** A transaction as the object service runs it: steps that read and rewrite the records in
    place, each tied to the function that says what it does to the store. */
module Transactions {
  import opened Records
  import opened Service
  import opened Promises
  import opened PromisesBuckets
  import opened PromisesDelete
  import opened PromisesMultipart
  import Checksum

  datatype Result<+T> = Ok(value: T) | Err(error: Error)

  /** The transaction did what `spec` says: it committed that store, or changed nothing. */
  ghost predicate Did<T>(before: Kv, after: Kv, r: Result<T>, spec: Outcome<T>) {
    match spec
    case Committed(kv, value) => r == Ok(value) && after == kv
    case Failed(error) => r == Err(error) && after == before
  }

  /** The order check of `assemble`. */
  method CheckOrder(list: seq<CompletePart>) returns (ok: bool)
    ensures ok <==> GoodOrder(list)
  {
    var last := 0;
    var i := 0;
    while i < |list|
      invariant 0 <= i <= |list|
      invariant last == if i == 0 then 0 else list[i - 1].number
      invariant forall j, k :: 0 <= j < k < i ==> list[j].number < list[k].number
      invariant i > 0 ==> list[0].number > 0
      invariant forall j :: 0 <= j < i ==> 0 < list[j].number <= last
    {
      if list[i].number <= last {
        assert i > 0 ==> list[i - 1].number >= list[i].number;
        return false;
      }
      last := list[i].number;
      i := i + 1;
    }
    ok := true;
  }

  /** The parts, sums and sizes that `assemble` collects from the client's list. */
  method CollectParts(u: Upload, stored: map<nat, Part>, list: seq<CompletePart>)
    returns (bad: Option<Error>, parts: seq<Part>, partSums: seq<seq<Checksum.Byte>>, sizes: seq<int>, total: nat)
    ensures bad == CheckEntries(u, stored, list, 0)
    ensures bad.None? ==>
      (forall i :: 0 <= i < |list| ==> list[i].number >= 0 && list[i].number in stored) &&
      parts == Chosen(stored, list, |list|) && total == TotalSize(parts) &&
      (u.alg.Some? ==> partSums == Sums(parts) && sizes == Sizes(parts))
  {
    hide TotalSize, Chosen, Sums, Sizes;
    parts, partSums, sizes, total := [], [], [], 0;
    NoParts();
    var i := 0;
    while i < |list|
      invariant 0 <= i <= |list|
      invariant CheckEntries(u, stored, list, 0) == CheckEntries(u, stored, list, i)
      invariant forall j :: 0 <= j < i ==> list[j].number >= 0 && list[j].number in stored
      invariant parts == Chosen(stored, list, i) && total == TotalSize(parts)
      invariant u.alg.Some? ==> partSums == Sums(parts) && sizes == Sizes(parts)
    {
      bad := CheckEntry(u, stored, list, i);
      if bad.Some? { return; }
      var p := stored[list[i].number];
      if u.alg.Some? {
        partSums := partSums + [if p.checksum.Some? then p.checksum.value else []];
        sizes := sizes + [p.size];
      }
      total := total + p.size;
      OneMore(stored, list, i, parts, p);
      parts := parts + [p];
      i := i + 1;
    }
    bad := None;
  }

  lemma NoParts()
    ensures TotalSize([]) == 0 && Sums([]) == [] && Sizes([]) == []
  {
  }

  /** One more chosen part. */
  lemma OneMore(stored: map<nat, Part>, list: seq<CompletePart>, n: nat, parts: seq<Part>, p: Part)
    requires n < |list| && forall i :: 0 <= i <= n ==> list[i].number >= 0 && list[i].number in stored
    requires parts == Chosen(stored, list, n) && p == stored[list[n].number]
    ensures parts + [p] == Chosen(stored, list, n + 1) && TotalSize(parts + [p]) == TotalSize(parts) + p.size
    ensures Sums(parts + [p]) == Sums(parts) + [if p.checksum.Some? then p.checksum.value else []]
    ensures Sizes(parts + [p]) == Sizes(parts) + [p.size as int]
  {
    assert (parts + [p])[..|parts|] == parts;
  }

  /** The object checksum of a completed upload, computed by the CRC combination. */
  method CombineSums(u: Upload, parts: seq<Part>, partSums: seq<seq<Checksum.Byte>>, sizes: seq<int>)
    returns (sum: Option<ObjectChecksum>)
    requires u.alg.Some? ==> partSums == Sums(parts) && sizes == Sizes(parts)
    ensures sum == CompletedChecksum(u, parts)
  {
    if u.alg.None? {
      sum := None;
    } else if !u.full {
      sum := Some(Composite(u.alg.value, partSums));
    } else if Checksum.IsCrc(u.alg.value) && Checksum.Combinable(u.alg.value, partSums, sizes) {
      var r := Checksum.CombineCRC(u.alg.value, partSums, sizes);
      sum := Some(FullObject(u.alg.value, r.value));
    } else {
      sum := None;
    }
  }

  method Build(u: Upload, r: CompleteRequest, stored: map<nat, Part>, seqNo: nat) returns (a: Assembled)
    ensures a == Assemble(u, r, stored, seqNo)
  {
    var ok := CheckOrder(r.list);
    if !ok { return Rejected(InvalidPartOrder); }
    var bad, parts, partSums, sizes, total := CollectParts(u, stored, r.list);
    if bad.Some? { return Rejected(bad.value); }
    if r.size.Some? && r.size.value != total { return Rejected(InvalidRequest); }
    if total > MAX_OBJECT_SIZE { return Rejected(EntityTooLarge); }
    var sum := CombineSums(u, parts, partSums, sizes);
    if u.alg.Some? && sum.None? { return Rejected(InternalError); }
    if u.alg.Some? && r.claimed.Some? && r.claimed != sum { return Rejected(BadDigest); }
    a := Built(Object(NullId, seqNo, false, total, r.etag, parts, sum, u.retention, u.legalHold));
  }

  /** A read-write transaction over the records. */
  class Txn {
    var buckets: map<Name, Bucket>
    var objects: map<ObjectId, Object>
    var nulls: map<NullPtr, nat>
    var uploads: map<UploadId, Upload>
    var parts: map<PartId, Part>

    ghost function Contents(): Kv
      reads this
    {
      Kv(buckets, objects, nulls, uploads, parts)
    }

    constructor (kv: Kv)
      ensures Contents() == kv
    {
      buckets, objects, nulls, uploads, parts := kv.buckets, kv.objects, kv.nulls, kv.uploads, kv.parts;
    }

    // ----- internal/meta/store.go

    /** The newest version: the first record at or after the prefix of the key. */
    method GetLatest(bucket: Name, key: Key) returns (o: Option<Object>)
      ensures o == Records.GetLatest(Contents(), bucket, key)
    {
      hide Records.GetLatest, Sequences;
      var ids := set id | id in objects && id.bucket == bucket && id.key == key;
      var found, newest := false, 0;
      ghost var seen: set<ObjectId> := {};
      while ids != {}
        invariant forall id :: id in ids || id in seen <==> id in objects && id.bucket == bucket && id.key == key
        invariant found <==> seen != {}
        invariant found ==> ObjectId(bucket, key, newest) in seen
        invariant forall id :: id in seen ==> id.seqNo <= newest
        decreases |ids|
      {
        var id :| id in ids;
        if !found || id.seqNo > newest { found, newest := true, id.seqNo; }
        ids := ids - {id};
        seen := seen + {id};
      }
      if found {
        assert forall s: nat :: ObjectId(bucket, key, s) in objects ==> ObjectId(bucket, key, s) in seen;
        NewestIs(Contents(), bucket, key, newest);
        o := Some(objects[ObjectId(bucket, key, newest)]);
      } else {
        assert forall s: nat :: ObjectId(bucket, key, s) in objects ==> ObjectId(bucket, key, s) in seen;
        o := None;
      }
    }

    /** A version by its ID. */
    method GetVersion(bucket: Name, key: Key, vid: Vid) returns (o: Option<Object>)
      ensures o == Records.GetVersion(Contents(), bucket, key, vid)
    {
      match vid
      case NullId =>
        var ptr := NullPtr(bucket, key);
        if ptr in nulls && ObjectId(bucket, key, nulls[ptr]) in objects {
          o := Some(objects[ObjectId(bucket, key, nulls[ptr])]);
        } else {
          o := None;
        }
      case SeqId(s, _) =>
        var id := ObjectId(bucket, key, s);
        o := if id in objects && objects[id].vid == vid then Some(objects[id]) else None;
      case BadId => o := None;
    }

    /** Write a version record; a null version replaces the one before it, which is returned. */
    method PutObject(bucket: Name, key: Key, o: Object) returns (prevNull: Option<Object>)
      modifies this
      ensures Contents() == Records.PutObject(old(Contents()), bucket, key, o)
      ensures prevNull == Replaced(old(Contents()), bucket, key, o)
    {
      prevNull := None;
      if o.vid == NullId {
        var ptr := NullPtr(bucket, key);
        if ptr in nulls {
          var prev := ObjectId(bucket, key, nulls[ptr]);
          if prev in objects { prevNull := Some(objects[prev]); }
          objects := objects - {prev};
        }
        nulls := nulls[ptr := o.seqNo];
      }
      objects := objects[ObjectId(bucket, key, o.seqNo) := o];
    }

    /** Remove a version record, and the null pointer with the null version. */
    method DeleteVersion(bucket: Name, key: Key, o: Object)
      modifies this
      ensures Contents() == Records.DeleteVersion(old(Contents()), bucket, key, o)
    {
      if o.vid == NullId { nulls := nulls - {NullPtr(bucket, key)}; }
      objects := objects - {ObjectId(bucket, key, o.seqNo)};
    }

    method PutPart(bucket: Name, id: nat, p: Part) returns (prev: Option<Part>)
      modifies this
      ensures Contents() == old(Contents()).(parts := old(parts)[PartId(bucket, id, p.number) := p])
      ensures prev == if PartId(bucket, id, p.number) in old(parts) then Some(old(parts)[PartId(bucket, id, p.number)]) else None
    {
      var k := PartId(bucket, id, p.number);
      prev := if k in parts then Some(parts[k]) else None;
      parts := parts[k := p];
    }

    /** The parts of an upload. */
    method ListParts(bucket: Name, id: nat) returns (all: map<PartId, Part>)
      ensures all.Keys == PartsOf(Contents(), bucket, id) && forall p :: p in all ==> all[p] == parts[p]
    {
      all := map p | p in parts && p.bucket == bucket && p.id == id :: parts[p];
    }

    /** Remove an upload and its parts, one record after the other; the parts are returned. */
    method DeleteUpload(bucket: Name, id: nat) returns (all: map<PartId, Part>)
      modifies this
      ensures Contents() == Records.DeleteUpload(old(Contents()), bucket, id)
      ensures all.Keys == PartsOf(old(Contents()), bucket, id) && forall p :: p in all ==> all[p] == old(parts)[p]
    {
      all := ListParts(bucket, id);
      var left := all.Keys;
      while left != {}
        invariant left <= all.Keys
        invariant Contents() == old(Contents()).(parts := old(parts) - (all.Keys - left))
        decreases |left|
      {
        var p :| p in left;
        parts := parts - {p};
        left := left - {p};
        assert old(parts) - (all.Keys - left) == parts;
      }
      assert all.Keys - left == all.Keys;
      uploads := uploads - {UploadId(bucket, id)};
    }

    // ----- internal/object

    method CheckWriteConditions(name: Name, key: Key, c: Conditions) returns (bad: Option<Error>)
      ensures bad == Service.CheckWriteConditions(Contents(), name, key, c)
      ensures bad.None? <==> Satisfied(Contents(), name, key, c)
    {
      ConditionsMean(Contents(), name, key, c);
      hide Satisfied;
      var cur := GetLatest(name, key);
      if cur.Some? && cur.value.deleteMarker { cur := None; }
      if c.ifNoneMatch.Some? && cur.Some? && EtagMatches(c.ifNoneMatch.value, cur.value.etag) { return Some(PreconditionFailed); }
      if c.ifMatch.Some? {
        if cur.None? { return Some(NoSuchKey); }
        if !EtagMatches(c.ifMatch.value, cur.value.etag) { return Some(PreconditionFailed); }
      }
      bad := None;
    }

    /** The transaction of `PutObject`. */
    method Put(e: Expect, name: Name, key: Key, seen: Bucket, o: Object, random: nat, c: Conditions, now: int)
      returns (r: Result<Option<Object>>)
      modifies this
      ensures Did(old(Contents()), Contents(), r, CommitPut(old(Contents()), e, name, key, seen, o, random, c, now))
      ensures IsFresh(old(Contents()), name, key, o.seqNo) ==>
        (r.Ok? <==> PutGranted(old(Contents()), e, name, key, seen, c, now)) &&
        (r.Ok? ==> name in old(buckets) && PutDone(old(Contents()), Contents(), name, key, o, random, r.value))
    {
      if IsFresh(Contents(), name, key, o.seqNo) { PutMeans(Contents(), e, name, key, seen, o, random, c, now); }
      hide IsFresh, PutDone, PutGranted, Accepts;
      if name !in buckets || !SameBucket(buckets[name], seen) || !BucketExpected(e, buckets[name]) { return Err(NoSuchBucket); }
      var bad := CheckWriteConditions(name, key, c);
      if bad.Some? { return Err(bad.value); }
      var v := o.(vid := VersionIdFor(buckets[name], o.seqNo, random));
      if v.vid == NullId {
        var cur := GetVersion(name, key, NullId);
        if cur.Some? && Locked(cur.value, false, now) { return Err(AccessDenied); }
      }
      var replaced := PutObject(name, key, v);
      r := Ok(replaced);
    }

    /** The transaction of `UploadPart`. */
    method StorePart(name: Name, key: Key, id: nat, p: Part) returns (r: Result<Option<Part>>)
      modifies this
      ensures Did(old(Contents()), Contents(), r, CommitPart(old(Contents()), name, key, id, p))
      ensures r.Ok? <==> IsOpen(old(Contents()), name, key, id)
    {
      if UploadId(name, id) !in uploads || uploads[UploadId(name, id)].key != key { return Err(NoSuchUpload); }
      var prev := PutPart(name, id, p);
      r := Ok(prev);
    }

    /** The transaction of `CompleteUpload`. */
    method Complete(e: Expect, name: Name, key: Key, id: nat, u: Upload, seen: Bucket, q: CompleteRequest, seqNo: nat, random: nat)
      returns (r: Result<Leftovers>)
      modifies this
      ensures Did(old(Contents()), Contents(), r, CommitComplete(old(Contents()), e, name, key, id, u, seen, q, seqNo, random))
      ensures CompleteKept(old(Contents()), Contents(), e, name, key, id, u, seen, q, seqNo, random, r)
    {
      hide CompleteKept, Assemble, Records.PutObject, Records.DeleteUpload, Replaced, VersionIdFor, Unused;
      if name !in buckets || !SameBucket(buckets[name], seen) || !BucketExpected(e, buckets[name]) {
        r := Err(NoSuchBucket);
      } else if UploadId(name, id) !in uploads || uploads[UploadId(name, id)].key != key {
        r := Err(NoSuchUpload);
      } else {
        var listed := ListParts(name, id);
        var stored := map p | p in listed :: p.number := listed[p];
        assert stored == StoredParts(Contents(), name, id);
        var a := Build(u, q, stored, seqNo);
        var bad := CheckWriteConditions(name, key, q.conditions);
        if a.Rejected? {
          r := Err(a.error);
        } else if bad.Some? {
          r := Err(bad.value);
        } else {
          var left := Exchange(name, key, id, a.o.(vid := VersionIdFor(buckets[name], seqNo, random)));
          r := Ok(left);
        }
      }
      CompletePromised(old(Contents()), Contents(), e, name, key, id, u, seen, q, seqNo, random, r);
    }

    /** The upload gives way to the version made of its parts. */
    method Exchange(name: Name, key: Key, id: nat, o: Object) returns (left: Leftovers)
      modifies this
      ensures Contents() == Records.PutObject(Records.DeleteUpload(old(Contents()), name, id), name, key, o)
      ensures left.unused == Unused(old(Contents()), name, id, o.parts)
      ensures left.replaced == Replaced(Records.DeleteUpload(old(Contents()), name, id), name, key, o)
    {
      hide Records.PutObject, Records.DeleteUpload, Replaced;
      ghost var before := Contents();
      var all := DeleteUpload(name, id);
      var unused := FindUnused(all, o.parts);
      UnusedIs(before, name, id, o.parts, all);
      var replaced := PutObject(name, key, o);
      left := Leftovers(unused, replaced);
    }

    /** The transaction of `AbortUpload`. */
    method Abort(e: Expect, name: Name, key: Key, id: nat) returns (r: Result<set<PartId>>)
      modifies this
      ensures Did(old(Contents()), Contents(), r, CommitAbort(old(Contents()), e, name, key, id))
      ensures r.Ok? <==> Accepts(old(Contents()), e, name) && IsOpen(old(Contents()), name, key, id)
      ensures r.Ok? ==> UploadClosed(old(Contents()), Contents(), name, id)
    {
      AbortMeans(Contents(), e, name, key, id);
      hide UploadClosed;
      if name !in buckets || buckets[name].deleting || !BucketExpected(e, buckets[name]) { return Err(NoSuchBucket); }
      if UploadId(name, id) !in uploads || uploads[UploadId(name, id)].key != key { return Err(NoSuchUpload); }
      var all := DeleteUpload(name, id);
      r := Ok(all.Keys);
    }

    /** The transaction of `DeleteObject`. */
    method Delete(e: Expect, name: Name, key: Key, q: DeleteRequest, seqNo: nat, random: nat, now: int) returns (r: Result<Deleted>)
      modifies this
      ensures Did(old(Contents()), Contents(), r, CommitDelete(old(Contents()), e, name, key, q, seqNo, random, now))
      ensures VersionsValid(old(Contents())) && q.vid.Some? ==>
        (r.Ok? <==> DeleteOneGranted(old(Contents()), e, name, key, q, now)) &&
        (r.Ok? ==>
          RemovedId(old(Contents()), Contents(), name, key, q.vid.value) &&
          TellsRemoved(old(Contents()), name, key, q.vid.value, r.value.removed))
      ensures IsFresh(old(Contents()), name, key, seqNo) && q.vid.None? ==>
        (r.Ok? <==> DeleteCurrentGranted(old(Contents()), e, name, key, q, now)) &&
        (r.Ok? ==>
          name in old(buckets) && DeleteCurrentDone(old(Contents()), Contents(), name, key, seqNo, random) &&
          TellsGone(old(Contents()), Contents(), r.value.removed))
    {
      if q.vid.Some? && VersionsValid(Contents()) { DeleteOneMeans(Contents(), e, name, key, q, seqNo, random, now); }
      if q.vid.None? && IsFresh(Contents(), name, key, seqNo) { DeleteCurrentMeans(Contents(), e, name, key, q, seqNo, random, now); }
      hide IsFresh, VersionsValid, DeleteOneGranted, RemovedId, TellsRemoved, DeleteCurrentGranted, DeleteCurrentDone, DeleteOneVersion,
        DeleteCurrent, Accepts;
      if name !in buckets || buckets[name].deleting || !BucketExpected(e, buckets[name]) { return Err(NoSuchBucket); }
      if q.vid.Some? {
        r := DeleteOne(e, name, key, q, now);
      } else {
        r := DeleteNewest(name, key, q, seqNo, random, now);
      }
    }

    method DeleteOne(e: Expect, name: Name, key: Key, q: DeleteRequest, now: int) returns (r: Result<Deleted>)
      requires q.vid.Some?
      modifies this
      ensures Did(old(Contents()), Contents(), r, DeleteOneVersion(old(Contents()), e, name, key, q, now))
    {
      var o := GetVersion(name, key, q.vid.value);
      if o.None? {
        return if q.vid.value.BadId? then Err(InvalidArgument) else Ok(Deleted(None, false, None));
      }
      if q.ifMatch.Some? && !EtagMatches(q.ifMatch.value, o.value.etag) { return Err(PreconditionFailed); }
      if q.ifSeq.Some? && o.value.seqNo != q.ifSeq.value { return Err(PreconditionFailed); }
      if !ObjectExpected(e, o.value) { return Err(Changed); }
      if Locked(o.value, q.bypass, now) { return Err(AccessDenied); }
      DeleteVersion(name, key, o.value);
      r := Ok(Deleted(o, o.value.deleteMarker, Some(o.value.vid)));
    }

    method DeleteNewest(name: Name, key: Key, q: DeleteRequest, seqNo: nat, random: nat, now: int) returns (r: Result<Deleted>)
      requires name in buckets
      modifies this
      ensures Did(old(Contents()), Contents(), r, DeleteCurrent(old(Contents()), old(buckets)[name], name, key, q, seqNo, random, now))
    {
      var cur := GetLatest(name, key);
      var bad := CheckDeleteConditions(cur, q);
      if bad.Some? { return Err(bad.value); }
      match buckets[name].versioning
      case Enabled =>
        var vid := SeqId(seqNo, random);
        var _ := PutObject(name, key, DeleteMarker(vid, seqNo));
        r := Ok(Deleted(None, true, Some(vid)));
      case Suspended =>
        var nv := GetVersion(name, key, NullId);
        if nv.Some? && Locked(nv.value, q.bypass, now) { return Err(AccessDenied); }
        var _ := PutObject(name, key, DeleteMarker(NullId, seqNo));
        r := Ok(Deleted(nv, true, Some(NullId)));
      case Unversioned =>
        if cur.None? { return Ok(Deleted(None, false, None)); }
        if Locked(cur.value, q.bypass, now) { return Err(AccessDenied); }
        DeleteVersion(name, key, cur.value);
        r := Ok(Deleted(cur, false, None));
    }

    /** The checks that `updateVersion` makes before it rewrites a version. */
    method Find(e: Expect, name: Name, key: Key, vid: Option<Vid>) returns (r: Result<Object>)
      ensures Did(Contents(), Contents(), r, FindVersion(Contents(), e, name, key, vid))
    {
      if name !in buckets || buckets[name].deleting || !BucketExpected(e, buckets[name]) { return Err(NoSuchBucket); }
      var o: Option<Object>;
      if vid.None? {
        o := GetLatest(name, key);
      } else {
        o := GetVersion(name, key, vid.value);
      }
      if o.None? { return Err(if vid.None? then NoSuchKey else NoSuchVersion); }
      if !ObjectExpected(e, o.value) { return Err(Changed); }
      if o.value.deleteMarker { return Err(MethodNotAllowed); }
      r := Ok(o.value);
    }

    /** The transaction of `PutObjectRetention`. */
    method Retain(e: Expect, name: Name, key: Key, vid: Option<Vid>, wanted: Option<Retention>, bypass: bool, now: int) returns (r: Result<()>)
      modifies this
      ensures Did(old(Contents()), Contents(), r, CommitRetention(old(Contents()), e, name, key, vid, wanted, bypass, now))
      ensures RetainKept(old(Contents()), Contents(), e, name, key, vid, wanted, bypass, now, r)
    {
      hide RetainKept;
      var f := Find(e, name, key, vid);
      if f.Err? {
        r := Err(f.error);
      } else {
        var o := f.value;
        var shortening := wanted.None? || o.retention.None? || wanted.value.until < o.retention.value.until ||
                          wanted.value.mode != o.retention.value.mode;
        if o.retention.Some? && now < o.retention.value.until && shortening && (o.retention.value.mode == Compliance || !bypass) {
          r := Err(AccessDenied);
        } else {
          objects := objects[ObjectId(name, key, o.seqNo) := o.(retention := wanted)];
          r := Ok(());
        }
      }
      RetainPromised(old(Contents()), Contents(), e, name, key, vid, wanted, bypass, now, r);
    }

    /** The transaction of `PutObjectLegalHold`. */
    method Hold(e: Expect, name: Name, key: Key, vid: Option<Vid>, on: bool) returns (r: Result<()>)
      modifies this
      ensures Did(old(Contents()), Contents(), r, CommitHold(old(Contents()), e, name, key, vid, on))
      ensures VersionsValid(old(Contents())) ==>
        (r.Ok? <==> HoldGranted(old(Contents()), e, name, key, vid)) &&
        (r.Ok? ==> HoldDone(old(Contents()), Contents(), e, name, key, vid, on))
    {
      if VersionsValid(Contents()) { HoldMeans(Contents(), e, name, key, vid, on); }
      hide VersionsValid, HoldGranted, HoldDone, FindVersion;
      var f := Find(e, name, key, vid);
      if f.Err? { return Err(f.error); }
      objects := objects[ObjectId(name, key, f.value.seqNo) := f.value.(legalHold := on)];
      r := Ok(());
    }

    /** Remove every upload record of a bucket. */
    method DropUploads(name: Name)
      modifies this`uploads
      ensures uploads == map u | u in old(uploads) && u.bucket != name :: old(uploads)[u]
    {
      var dead := set u | u in uploads && u.bucket == name;
      while dead != {}
        invariant forall u :: u in dead ==> u.bucket == name
        invariant uploads == map u | u in old(uploads) && (u.bucket != name || u in dead) :: old(uploads)[u]
        decreases |dead|
      {
        var u :| u in dead;
        uploads := uploads - {u};
        dead := dead - {u};
      }
    }

    /** Remove every part record of a bucket. */
    method DropParts(name: Name)
      modifies this`parts
      ensures parts == map p | p in old(parts) && p.bucket != name :: old(parts)[p]
    {
      var dead := set p | p in parts && p.bucket == name;
      while dead != {}
        invariant forall p :: p in dead ==> p.bucket == name
        invariant parts == map p | p in old(parts) && (p.bucket != name || p in dead) :: old(parts)[p]
        decreases |dead|
      {
        var p :| p in dead;
        parts := parts - {p};
        dead := dead - {p};
      }
    }

    /** The first transaction of `DeleteBucket`. */
    method EmptyBucket(e: Expect, name: Name) returns (r: Result<()>)
      modifies this
      ensures Did(old(Contents()), Contents(), r, CommitDeleteBucket(old(Contents()), e, name))
      ensures r.Ok? <==> Accepts(old(Contents()), e, name) && forall id :: id in old(objects) ==> id.bucket != name
      ensures r.Ok? ==> name in old(buckets) && Emptied(old(Contents()), Contents(), name)
    {
      DeleteMeans(Contents(), e, name);
      hide Emptied;
      if name !in buckets || buckets[name].deleting || !BucketExpected(e, buckets[name]) { return Err(NoSuchBucket); }
      var held := set id | id in objects && id.bucket == name;
      assert HasObjects(Contents(), name) <==> held != {} by {
        assert forall id :: id in held <==> id in objects && id.bucket == name;
      }
      if held != {} { return Err(BucketNotEmpty); }
      DropUploads(name);
      DropParts(name);
      buckets := buckets[name := buckets[name].(deleting := true)];
      r := Ok(());
    }

    /** The last transaction of `finishDelete`. */
    method Finish(name: Name)
      modifies this
      ensures Contents() == FinishDelete(old(Contents()), name)
    {
      if name in buckets && buckets[name].deleting { buckets := buckets - {name}; }
    }
  }

  // ----- promises kept

  ghost predicate CompleteKept(kv: Kv, kv': Kv, e: Expect, name: Name, key: Key, id: nat, u: Upload, seen: Bucket, q: CompleteRequest,
                               seqNo: nat, random: nat, r: Result<Leftovers>)
  {
    IsFresh(kv, name, key, seqNo) ==>
      (r.Ok? <==> CompleteGranted(kv, e, name, key, id, u, seen, q)) &&
      (r.Ok? ==> Completed(kv, kv', name, key, id, u, q, seqNo, random, r.value))
  }

  lemma CompletePromised(kv: Kv, kv': Kv, e: Expect, name: Name, key: Key, id: nat, u: Upload, seen: Bucket, q: CompleteRequest,
                         seqNo: nat, random: nat, r: Result<Leftovers>)
    requires Did(kv, kv', r, CommitComplete(kv, e, name, key, id, u, seen, q, seqNo, random))
    ensures CompleteKept(kv, kv', e, name, key, id, u, seen, q, seqNo, random, r)
  {
    if IsFresh(kv, name, key, seqNo) { CompleteMeans(kv, e, name, key, id, u, seen, q, seqNo, random); }
    hide IsFresh, CommitComplete, CompleteGranted, Completed;
  }

  ghost predicate RetainKept(kv: Kv, kv': Kv, e: Expect, name: Name, key: Key, vid: Option<Vid>, wanted: Option<Retention>, bypass: bool,
                             now: int, r: Result<()>)
  {
    VersionsValid(kv) ==>
      (r.Ok? <==> RetainGranted(kv, e, name, key, vid, wanted, bypass, now)) &&
      (r.Ok? ==> RetainDone(kv, kv', e, name, key, vid, wanted))
  }

  lemma RetainPromised(kv: Kv, kv': Kv, e: Expect, name: Name, key: Key, vid: Option<Vid>, wanted: Option<Retention>, bypass: bool,
                       now: int, r: Result<()>)
    requires Did(kv, kv', r, CommitRetention(kv, e, name, key, vid, wanted, bypass, now))
    ensures RetainKept(kv, kv', e, name, key, vid, wanted, bypass, now, r)
  {
    if VersionsValid(kv) { RetainMeans(kv, e, name, key, vid, wanted, bypass, now); }
    hide VersionsValid, CommitRetention, RetainGranted, RetainDone;
  }

  lemma UnusedIs(kv: Kv, name: Name, id: nat, parts: seq<Part>, all: map<PartId, Part>)
    requires all.Keys == PartsOf(kv, name, id) && forall p :: p in all ==> all[p] == kv.parts[p]
    ensures (set p | p in all && forall q :: q in parts ==> q.blob != all[p].blob) == Unused(kv, name, id, parts)
  {
  }

  /** The parts of a completed upload whose blobs it does not use. */
  method FindUnused(all: map<PartId, Part>, parts: seq<Part>) returns (unused: set<PartId>)
    ensures unused == set p | p in all && forall q :: q in parts ==> q.blob != all[p].blob
  {
    var used := set q | q in parts :: q.blob;
    unused := {};
    var left := all.Keys;
    while left != {}
      invariant left <= all.Keys
      invariant unused == set p | p in all && p !in left && forall q :: q in parts ==> q.blob != all[p].blob
      decreases |left|
    {
      var p :| p in left;
      if all[p].blob !in used { unused := unused + {p}; }
      left := left - {p};
    }
  }
}
