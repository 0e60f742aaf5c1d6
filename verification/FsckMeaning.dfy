/** What a clean report of the consistency check means: the data directory is sound, and only then is
    the report clean (internal/fsck/fsck.go). */
module FsckMeaning {
  import opened Records
  import opened Protocol
  import opened Fsck

  /** Part `n` of a stored version that has a body. */
  predicate HasPart(d: Dir, id: ObjectId, n: nat) {
    id in d.objects && !d.objects[id].deleteMarker && n < |d.objects[id].parts|
  }

  /** Every file a version names is there, in the recorded length. */
  ghost predicate BodiesThere(d: Dir) {
    forall id, n: nat :: HasPart(d, id, n) ==>
      var p := d.objects[id].parts[n]; Blob(id.bucket, p.blob) in d.files && d.files[Blob(id.bucket, p.blob)] == p.size
  }

  /** Objects and uploads lie in buckets that have a record, and no bucket is being deleted. */
  predicate BucketsStand(d: Dir) {
    && (forall id :: id in d.objects ==> id.bucket in d.buckets)
    && (forall u :: u in d.uploads ==> u.bucket in d.buckets)
    && (forall b :: b in d.buckets ==> !d.buckets[b])
  }

  /** In a bucket with a record, the null pointer of a key leads to its null version; a key without
      one has no pointer, and no key has two. */
  ghost predicate PointersExact(d: Dir) {
    forall b, key :: b in d.buckets ==>
      var ptr := NullPtr(b, key);
      (forall n: nat :: IsNullOf(d, b, key, n) ==> ptr in d.nulls && d.nulls[ptr] == n) &&
      (ptr in d.nulls ==> IsNullOf(d, b, key, d.nulls[ptr]))
  }

  predicate IsNullOf(d: Dir, b: Name, key: Key, n: nat) {
    ObjectId(b, key, n) in d.objects && d.objects[ObjectId(b, key, n)].vid == NullId
  }

  /** The upload index of such a bucket maps exactly its uploads to their keys. */
  predicate IndexExact(d: Dir) {
    && (forall u :: u in d.uploads && u.bucket in d.buckets ==> UploadId(u.bucket, u.id) in d.index && d.index[UploadId(u.bucket, u.id)] == u.key)
    && (forall i :: i in d.index && i.bucket in d.buckets ==> UploadRecord(i.bucket, d.index[i], i.id) in d.uploads)
  }

  /** Every part record of such a bucket belongs to an upload and has its file. */
  ghost predicate PartsBelong(d: Dir) {
    forall p :: p in d.parts && p.bucket in d.buckets ==>
      (exists key :: UploadRecord(p.bucket, key, p.id) in d.uploads) && Blob(p.bucket, d.parts[p].blob) in d.files
  }

  /** Every file is named by a version or a part of a bucket with a record, and no temporary file is left. */
  ghost predicate FilesNamed(d: Dir) {
    && (forall f :: f in d.files ==>
          f.bucket in d.buckets &&
          ((exists id, n: nat :: HasPart(d, id, n) && f == Blob(id.bucket, d.objects[id].parts[n].blob)) ||
           (exists p :: p in d.parts && f == Blob(p.bucket, d.parts[p].blob))))
    && d.temps == {}
  }

  ghost predicate Sound(d: Dir) {
    BodiesThere(d) && BucketsStand(d) && PointersExact(d) && IndexExact(d) && PartsBelong(d) && FilesNamed(d)
  }

  ghost predicate Clean(d: Dir) {
    forall p :: !Found(d, p)
  }

  /** The check finds nothing if and only if the data directory is sound. */
  lemma CleanMeansSound(d: Dir)
    ensures Clean(d) <==> Sound(d)
  {
    if Clean(d) { CleanIsSound(d); }
    if Sound(d) { SoundIsClean(d); }
    hide Clean, Sound;
  }

  // ----- a clean directory is sound

  lemma CleanIsSound(d: Dir)
    requires Clean(d)
    ensures Sound(d)
  {
    CleanBodies(d);
    CleanBuckets(d);
    CleanPointers(d);
    CleanIndex(d);
    CleanParts(d);
    CleanFiles(d);
    hide Clean, BodiesThere, BucketsStand, PointersExact, IndexExact, PartsBelong, FilesNamed;
  }

  lemma CleanBodies(d: Dir)
    requires Clean(d)
    ensures BodiesThere(d)
  {
    forall id, n: nat | HasPart(d, id, n)
      ensures var p := d.objects[id].parts[n]; Blob(id.bucket, p.blob) in d.files && d.files[Blob(id.bucket, p.blob)] == p.size
    {
      assert !Found(d, MissingFile(id, n)) && !Found(d, SizeMismatch(id, n));
    }
  }

  lemma CleanBuckets(d: Dir)
    requires Clean(d)
    ensures BucketsStand(d)
  {
    forall id | id in d.objects
      ensures id.bucket in d.buckets
    {
      assert !Found(d, RecordWithoutBucket(id.bucket));
    }
    forall u | u in d.uploads
      ensures u.bucket in d.buckets
    {
      assert !Found(d, RecordWithoutBucket(u.bucket));
    }
    forall b | b in d.buckets
      ensures !d.buckets[b]
    {
      assert !Found(d, BucketDeleting(b));
    }
  }

  lemma CleanPointers(d: Dir)
    requires Clean(d)
    ensures PointersExact(d)
  {
    forall b, key | b in d.buckets
      ensures forall n: nat :: IsNullOf(d, b, key, n) ==> NullPtr(b, key) in d.nulls && d.nulls[NullPtr(b, key)] == n
      ensures NullPtr(b, key) in d.nulls ==> IsNullOf(d, b, key, d.nulls[NullPtr(b, key)])
    {
      var ptr := NullPtr(b, key);
      assert !Found(d, DanglingNull(ptr)) && !Found(d, MissingNull(ptr));
      forall n: nat | IsNullOf(d, b, key, n)
        ensures ptr in d.nulls && d.nulls[ptr] == n
      {
        assert IsNull(d, ptr, n);
        assert PointsAt(d, ptr, n);
      }
      if ptr in d.nulls {
        assert HasNull(d, ptr);
        var n: nat :| IsNull(d, ptr, n);
        assert IsNullOf(d, b, key, n);
      }
    }
  }

  lemma CleanIndex(d: Dir)
    requires Clean(d)
    ensures IndexExact(d)
  {
    forall u | u in d.uploads && u.bucket in d.buckets
      ensures UploadId(u.bucket, u.id) in d.index && d.index[UploadId(u.bucket, u.id)] == u.key
    {
      var i := UploadId(u.bucket, u.id);
      assert !Found(d, MissingIndex(i));
      assert IsUpload(d, i, u.key);
      assert Indexes(d, i, u.key);
    }
    forall i | i in d.index && i.bucket in d.buckets
      ensures UploadRecord(i.bucket, d.index[i], i.id) in d.uploads
    {
      assert !Found(d, DanglingIndex(i)) && !Found(d, MissingIndex(i));
      assert HasUpload(d, i);
      var key :| IsUpload(d, i, key);
      assert Indexes(d, i, key);
    }
  }

  lemma CleanParts(d: Dir)
    requires Clean(d)
    ensures PartsBelong(d)
  {
    forall p | p in d.parts && p.bucket in d.buckets
      ensures (exists key :: UploadRecord(p.bucket, key, p.id) in d.uploads) && Blob(p.bucket, d.parts[p].blob) in d.files
    {
      var u := UploadId(p.bucket, p.id);
      assert !Found(d, OrphanParts(u)) && !Found(d, PartMissing(p));
      assert HasParts(d, u);
      assert HasUpload(d, u);
      var key :| IsUpload(d, u, key);
      assert UploadRecord(p.bucket, key, p.id) in d.uploads;
    }
  }

  lemma CleanFiles(d: Dir)
    requires Clean(d)
    ensures FilesNamed(d)
  {
    CleanBuckets(d);
    forall f | f in d.files
      ensures f.bucket in d.buckets
      ensures (exists id, n: nat :: HasPart(d, id, n) && f == Blob(id.bucket, d.objects[id].parts[n].blob)) ||
              (exists p :: p in d.parts && f == Blob(p.bucket, d.parts[p].blob))
    {
      assert !Found(d, OrphanFile(f));
      assert Known(d, f.bucket) && (ObjectNames(d, f) || PartNames(d, f));
      NamesMean(d, f);
      if PartNames(d, f) {
        var p :| p in d.parts && PartIs(d, p, f);
        assert f == Blob(p.bucket, d.parts[p].blob);
      }
    }
    forall t
      ensures t !in d.temps
    {
      assert !Found(d, TempFile(t));
    }
  }

  lemma NamesMean(d: Dir, f: Blob)
    ensures ObjectNames(d, f) <==> exists id, n: nat :: HasPart(d, id, n) && f == Blob(id.bucket, d.objects[id].parts[n].blob)
  {
    if ObjectNames(d, f) {
      var id :| id in d.objects && id.bucket == f.bucket && VersionNames(d.objects[id], f.id);
      var p :| p in d.objects[id].parts && p.blob == f.id;
      var n :| 0 <= n < |d.objects[id].parts| && d.objects[id].parts[n] == p;
      assert HasPart(d, id, n) && f == Blob(id.bucket, d.objects[id].parts[n].blob);
    }
    if id, n: nat :| HasPart(d, id, n) && f == Blob(id.bucket, d.objects[id].parts[n].blob) {
      assert d.objects[id].parts[n] in d.objects[id].parts;
      assert VersionNames(d.objects[id], f.id);
    }
  }

  // ----- a sound directory is clean

  lemma SoundIsClean(d: Dir)
    requires Sound(d)
    ensures Clean(d)
  {
    forall p: Problem
      ensures !Found(d, p)
    {
      NotFound(d, p);
    }
  }

  lemma NotFound(d: Dir, p: Problem)
    requires Sound(d)
    ensures !Found(d, p)
  {
    KnownStands(d);
    match p
    case MissingFile(id, n) => assert HasPart(d, id, n) ==> BodiesThere(d);
    case SizeMismatch(id, n) => assert HasPart(d, id, n) ==> BodiesThere(d);
    case OrphanFile(f) => SoundFile(d, f);
    case DanglingNull(ptr) => SoundPointer(d, ptr);
    case MissingNull(ptr) => SoundPointer(d, ptr);
    case DanglingIndex(u) => SoundIndex(d, u);
    case MissingIndex(u) => SoundIndex(d, u);
    case OrphanParts(u) => SoundParts(d, u);
    case PartMissing(pid) =>
    case RecordWithoutBucket(b) =>
    case BucketDeleting(b) =>
    case TempFile(t) =>
  }

  lemma KnownStands(d: Dir)
    requires BucketsStand(d)
    ensures forall b :: Known(d, b) <==> b in d.buckets
  {
  }

  lemma SoundFile(d: Dir, f: Blob)
    requires BucketsStand(d) && FilesNamed(d)
    ensures !Found(d, OrphanFile(f))
  {
    NamesMean(d, f);
    if p :| p in d.parts && f == Blob(p.bucket, d.parts[p].blob) { assert PartIs(d, p, f); }
  }

  lemma SoundPointer(d: Dir, ptr: NullPtr)
    requires BucketsStand(d) && PointersExact(d)
    ensures !Found(d, DanglingNull(ptr)) && !Found(d, MissingNull(ptr))
  {
    KnownStands(d);
    assert ptr == NullPtr(ptr.bucket, ptr.key);
    assert forall n: nat :: IsNull(d, ptr, n) <==> IsNullOf(d, ptr.bucket, ptr.key, n);
  }

  lemma SoundIndex(d: Dir, u: UploadId)
    requires BucketsStand(d) && IndexExact(d)
    ensures !Found(d, DanglingIndex(u)) && !Found(d, MissingIndex(u))
  {
    KnownStands(d);
    if u in d.index && u.bucket in d.buckets { assert IsUpload(d, u, d.index[u]); }
  }

  lemma SoundParts(d: Dir, u: UploadId)
    requires BucketsStand(d) && PartsBelong(d)
    ensures !Found(d, OrphanParts(u))
  {
    KnownStands(d);
    if u.bucket in d.buckets && HasParts(d, u) {
      var p :| p in d.parts && p.bucket == u.bucket && p.id == u.id;
      var key :| UploadRecord(p.bucket, key, p.id) in d.uploads;
      assert IsUpload(d, u, key);
    }
  }
}
