/** The offline consistency check of a data directory (internal/fsck/fsck.go). */
module Fsck {
  import opened Records
  import opened Protocol

  /** An upload record stands under its bucket, key and ID; the index maps bucket and ID to the key. */
  datatype UploadRecord = UploadRecord(bucket: Name, key: Key, id: nat)

  /** The records and files of a data directory. `buckets` says whether a bucket is being deleted. */
  datatype Dir = Dir(buckets: map<Name, bool>, objects: map<ObjectId, Object>, nulls: map<NullPtr, nat>, uploads: set<UploadRecord>,
                     index: map<UploadId, Key>, parts: map<PartId, Part>, files: map<Blob, nat>, temps: set<nat>)

  datatype Problem =
    | MissingFile(id: ObjectId, n: nat)
    | SizeMismatch(id: ObjectId, n: nat)
    | RecordWithoutBucket(name: Name)
    | OrphanFile(file: Blob)
    | DanglingNull(ptr: NullPtr)
    | MissingNull(ptr: NullPtr)
    | DanglingIndex(upload: UploadId)
    | MissingIndex(upload: UploadId)
    | OrphanParts(upload: UploadId)
    | PartMissing(pid: PartId)
    | BucketDeleting(name: Name)
    | TempFile(temp: nat)

  // ----- what is wrong with a data directory

  predicate HasRecords(d: Dir, b: Name) {
    (exists id :: id in d.objects && id.bucket == b) || (exists u :: u in d.uploads && u.bucket == b)
  }

  /** The buckets that are looked at: those with a record, and those that objects or uploads name. */
  predicate Known(d: Dir, b: Name) {
    b in d.buckets || HasRecords(d, b)
  }

  predicate IsNull(d: Dir, ptr: NullPtr, n: nat) {
    ObjectId(ptr.bucket, ptr.key, n) in d.objects && d.objects[ObjectId(ptr.bucket, ptr.key, n)].vid == NullId
  }

  predicate PointsAt(d: Dir, ptr: NullPtr, n: nat) {
    ptr in d.nulls && d.nulls[ptr] == n
  }

  ghost predicate HasNull(d: Dir, ptr: NullPtr) {
    exists n: nat :: IsNull(d, ptr, n)
  }

  predicate IsUpload(d: Dir, u: UploadId, key: Key) {
    UploadRecord(u.bucket, key, u.id) in d.uploads
  }

  ghost predicate HasUpload(d: Dir, u: UploadId) {
    exists key :: IsUpload(d, u, key)
  }

  predicate Indexes(d: Dir, u: UploadId, key: Key) {
    u in d.index && d.index[u] == key
  }

  predicate HasParts(d: Dir, u: UploadId) {
    exists p :: p in d.parts && p.bucket == u.bucket && p.id == u.id
  }

  /** An object version names the file. */
  predicate ObjectNames(d: Dir, f: Blob) {
    exists id :: id in d.objects && id.bucket == f.bucket && VersionNames(d.objects[id], f.id)
  }

  predicate VersionNames(o: Object, blob: nat) {
    !o.deleteMarker && exists p :: p in o.parts && p.blob == blob
  }

  predicate PartNames(d: Dir, f: Blob) {
    exists pid :: pid in d.parts && PartIs(d, pid, f)
  }

  predicate PartIs(d: Dir, pid: PartId, f: Blob)
    requires pid in d.parts
  {
    pid.bucket == f.bucket && d.parts[pid].blob == f.id
  }

  /** What the check reports. */
  ghost predicate Found(d: Dir, p: Problem) {
    match p
    case MissingFile(id, n) =>
      id in d.objects && !d.objects[id].deleteMarker && n < |d.objects[id].parts| && Blob(id.bucket, d.objects[id].parts[n].blob) !in d.files
    case SizeMismatch(id, n) =>
      id in d.objects && !d.objects[id].deleteMarker && n < |d.objects[id].parts| &&
      var f := Blob(id.bucket, d.objects[id].parts[n].blob); f in d.files && d.files[f] != d.objects[id].parts[n].size
    case RecordWithoutBucket(b) => b !in d.buckets && HasRecords(d, b)
    case OrphanFile(f) => f in d.files && !(Known(d, f.bucket) && (ObjectNames(d, f) || PartNames(d, f)))
    case DanglingNull(ptr) => Known(d, ptr.bucket) && ptr in d.nulls && !HasNull(d, ptr)
    case MissingNull(ptr) => Known(d, ptr.bucket) && exists n: nat :: IsNull(d, ptr, n) && !PointsAt(d, ptr, n)
    case DanglingIndex(u) => Known(d, u.bucket) && u in d.index && !HasUpload(d, u)
    case MissingIndex(u) => Known(d, u.bucket) && exists key :: IsUpload(d, u, key) && !Indexes(d, u, key)
    case OrphanParts(u) => Known(d, u.bucket) && HasParts(d, u) && !HasUpload(d, u)
    case PartMissing(pid) =>
      Known(d, pid.bucket) && pid in d.parts && HasUpload(d, UploadId(pid.bucket, pid.id)) && Blob(pid.bucket, d.parts[pid].blob) !in d.files
    case BucketDeleting(b) => b in d.buckets && d.buckets[b]
    case TempFile(t) => t in d.temps
  }

  // ----- the checker

  class Checker {
    const d: Dir
    var problems: set<Problem>
    /** Every file some record points at. */
    var referenced: set<Blob>

    constructor (d: Dir)
      ensures this.d == d && problems == {} && referenced == {}
    {
      this.d, problems, referenced := d, {}, {};
    }

    /** Null pointers and object versions of a bucket. */
    method CheckNulls(bucket: Name)
      modifies this`problems
      ensures forall p :: p in problems <==> p in old(problems) || NullProblem(d, bucket, p)
    {
      hide Unused, NullSeen, PointsAt;
      var pointers := map ptr | ptr in d.nulls && ptr.bucket == bucket :: d.nulls[ptr];
      var ids := set id | id in d.objects && id.bucket == bucket;
      AllUnused(d, bucket, ids);
      while ids != {}
        invariant forall id :: id in ids ==> id in d.objects && id.bucket == bucket
        invariant forall ptr :: ptr in pointers <==> Unused(d, bucket, ids, ptr)
        invariant forall ptr :: ptr in pointers ==> ptr in d.nulls && pointers[ptr] == d.nulls[ptr]
        invariant forall p :: p in problems <==> p in old(problems) || NullSeen(d, bucket, ids, p)
        decreases |ids|
      {
        var id :| id in ids;
        if d.objects[id].vid == NullId {
          var ptr := NullPtr(id.bucket, id.key);
          NullSeenNext(d, bucket, ids, id);
          if ptr !in pointers || pointers[ptr] != id.seqNo { problems := problems + {MissingNull(ptr)}; }
          pointers := pointers - {ptr};
        } else {
          NotNull(d, bucket, ids, id);
        }
        ids := ids - {id};
      }
      NullsSeen(d, bucket);
      problems := problems + set ptr | ptr in pointers :: DanglingNull(ptr);
    }

    /** The files of the object versions of a bucket. */
    method CheckVersions(bucket: Name)
      modifies this`problems, this`referenced
      ensures forall p :: p in problems <==> p in old(problems) || VersionProblem(d, bucket, {}, p)
      ensures forall f :: f in referenced <==> f in old(referenced) || (f.bucket == bucket && ObjectNames(d, f))
    {
      hide ObjectNames, VersionNames;
      var ids := set id | id in d.objects && id.bucket == bucket;
      NamesNothing(d, bucket, ids);
      while ids != {}
        invariant forall id :: id in ids ==> id in d.objects && id.bucket == bucket
        invariant forall p :: p in problems <==> p in old(problems) || VersionProblem(d, bucket, ids, p)
        invariant forall f :: f in referenced <==> f in old(referenced) || NamedBySeen(d, bucket, ids, f)
        decreases |ids|
      {
        var id :| id in ids;
        SeenNext(d, bucket, ids, id);
        if !d.objects[id].deleteMarker { CheckParts(id); }
        ids := ids - {id};
      }
      NamesAll(d, bucket);
    }

    method CheckParts(id: ObjectId)
      requires id in d.objects && !d.objects[id].deleteMarker
      modifies this`problems, this`referenced
      ensures forall p :: p in problems <==> p in old(problems) || FileProblem(d, id, |d.objects[id].parts|, p)
      ensures forall f :: f in referenced <==> f in old(referenced) || (f.bucket == id.bucket && VersionNames(d.objects[id], f.id))
    {
      var parts := d.objects[id].parts;
      var n := 0;
      while n < |parts|
        invariant 0 <= n <= |parts|
        invariant forall p :: p in problems <==> p in old(problems) || FileProblem(d, id, n, p)
        invariant forall f :: f in referenced <==> f in old(referenced) || (f.bucket == id.bucket && exists k :: 0 <= k < n && parts[k].blob == f.id)
      {
        var f := Blob(id.bucket, parts[n].blob);
        referenced := referenced + {f};
        if f !in d.files {
          problems := problems + {MissingFile(id, n)};
        } else if d.files[f] != parts[n].size {
          problems := problems + {SizeMismatch(id, n)};
        }
        n := n + 1;
      }
      forall f: Blob
        ensures (exists k :: 0 <= k < |parts| && parts[k].blob == f.id) <==> VersionNames(d.objects[id], f.id)
      {
        if VersionNames(d.objects[id], f.id) {
          var q :| q in parts && q.blob == f.id;
          var k :| 0 <= k < |parts| && parts[k] == q;
        }
      }
    }

    /** Upload records and their index. */
    method CheckIndex(bucket: Name) returns (uploads: set<nat>)
      modifies this`problems
      ensures forall p :: p in problems <==> p in old(problems) || IndexProblem(d, bucket, p)
      ensures forall i :: i in uploads <==> HasUpload(d, UploadId(bucket, i))
    {
      hide Unindexed, IndexSeen, Indexes, HasUpload, UploadSeen;
      var index := map u | u in d.index && u.bucket == bucket :: d.index[u];
      var recs := set u | u in d.uploads && u.bucket == bucket;
      uploads := {};
      AllUnindexed(d, bucket, recs);
      while recs != {}
        invariant forall u :: u in recs ==> u in d.uploads && u.bucket == bucket
        invariant forall u :: u in index <==> Unindexed(d, bucket, recs, u)
        invariant forall u :: u in index ==> u in d.index && index[u] == d.index[u]
        invariant forall i :: i in uploads <==> UploadSeen(d, bucket, recs, i)
        invariant forall p :: p in problems <==> p in old(problems) || IndexSeen(d, bucket, recs, p)
        decreases |recs|
      {
        var rec :| rec in recs;
        var u := UploadId(rec.bucket, rec.id);
        IndexSeenNext(d, bucket, recs, rec);
        uploads := uploads + {rec.id};
        if u !in index || index[u] != rec.key { problems := problems + {MissingIndex(u)}; }
        index := index - {u};
        recs := recs - {rec};
      }
      IndexAllSeen(d, bucket);
      problems := problems + set u | u in index :: DanglingIndex(u);
    }

    /** The part records of a bucket. */
    method CheckPartRecords(bucket: Name, uploads: set<nat>)
      requires forall i :: i in uploads <==> HasUpload(d, UploadId(bucket, i))
      modifies this`problems, this`referenced
      ensures forall p :: p in problems <==> p in old(problems) || PartProblem(d, bucket, {}, p)
      ensures forall f :: f in referenced <==> f in old(referenced) || (f.bucket == bucket && PartNames(d, f))
    {
      hide HasUpload;
      var pids := set p | p in d.parts && p.bucket == bucket;
      ghost var all := pids;
      while pids != {}
        invariant pids <= all
        invariant forall p :: p in problems <==> p in old(problems) || PartProblem(d, bucket, pids, p)
        invariant forall f :: f in referenced <==> f in old(referenced) || exists pid :: pid in all && pid !in pids && PartIs(d, pid, f)
        decreases |pids|
      {
        var pid :| pid in pids;
        var f := Blob(bucket, d.parts[pid].blob);
        PartSeenNext(d, bucket, pids, pid);
        assert forall g :: PartIs(d, pid, g) <==> g == f;
        referenced := referenced + {f};
        if pid.id !in uploads {
          problems := problems + {OrphanParts(UploadId(bucket, pid.id))};
        } else if f !in d.files {
          problems := problems + {PartMissing(pid)};
        }
        pids := pids - {pid};
      }
    }

    /** The files of a bucket that no record of it names. */
    method CheckFiles(bucket: Name)
      modifies this`problems
      ensures forall p :: p in problems <==>
        p in old(problems) || (p.OrphanFile? && p.file in d.files && p.file.bucket == bucket && p.file !in referenced)
    {
      var files := set f | f in d.files && f.bucket == bucket;
      var left := files;
      while left != {}
        invariant left <= files
        invariant forall p ::
          p in problems <==> p in old(problems) || (p.OrphanFile? && p.file in files && p.file !in left && p.file !in referenced)
        decreases |left|
      {
        var f :| f in left;
        if f !in referenced { problems := problems + {OrphanFile(f)}; }
        left := left - {f};
      }
    }

    /** Directories of unknown buckets, and temporary files. */
    method CheckStray(known: set<Name>)
      modifies this`problems
      ensures forall p :: p in problems <==>
        p in old(problems) || (p.OrphanFile? && p.file in d.files && p.file.bucket !in known) || (p.TempFile? && p.temp in d.temps)
    {
      var stray := set f | f in d.files && f.bucket !in known;
      problems := problems + (set f | f in stray :: OrphanFile(f)) + (set t | t in d.temps :: TempFile(t));
    }

    /** One bucket. */
    method CheckBucket(bucket: Name)
      requires Known(d, bucket) && forall f :: f in referenced ==> f.bucket != bucket
      modifies this
      ensures forall p :: p in problems <==> p in old(problems) || (BucketOf(p) == Some(bucket) && Found(d, p))
      ensures forall f :: f in referenced ==> f in old(referenced) || f.bucket == bucket
    {
      hide ObjectNames, PartNames, HasUpload, HasNull, HasParts;
      if bucket !in d.buckets {
        problems := problems + {RecordWithoutBucket(bucket)};
      } else if d.buckets[bucket] {
        problems := problems + {BucketDeleting(bucket)};
      }
      CheckNulls(bucket);
      CheckVersions(bucket);
      var uploads := CheckIndex(bucket);
      CheckPartRecords(bucket, uploads);
      CheckFiles(bucket);
      BucketProblems(d, bucket);
    }

    /** The buckets with a record, and those that records name. */
    method KnownBuckets() returns (known: set<Name>)
      ensures forall b :: b in known <==> Known(d, b)
    {
      known := d.buckets.Keys + (set id | id in d.objects :: id.bucket) + (set u | u in d.uploads :: u.bucket);
    }

    /** The whole check reports exactly what is wrong. */
    method Run()
      requires problems == {} && referenced == {}
      modifies this
      ensures forall p :: p in problems <==> Found(d, p)
    {
      hide Found, Known, BucketOf, Reported;
      var known := KnownBuckets();
      NothingReported(d);
      var left := known;
      assert known - left == {};
      while left != {}
        invariant left <= known
        invariant Reported(d, known - left, problems)
        invariant forall f :: f in referenced ==> f.bucket in known - left
        decreases |left|
      {
        var b :| b in left;
        ghost var before := problems;
        CheckBucket(b);
        BucketAdded(d, known, left, b, before, problems);
        left := left - {b};
      }
      assert known - left == known;
      ghost var before := problems;
      CheckStray(known);
      AllReported(d, known, before, problems);
    }
  }

  function BucketOf(p: Problem): Option<Name> {
    match p
    case MissingFile(id, _) => Some(id.bucket)
    case SizeMismatch(id, _) => Some(id.bucket)
    case RecordWithoutBucket(b) => Some(b)
    case OrphanFile(f) => Some(f.bucket)
    case DanglingNull(ptr) => Some(ptr.bucket)
    case MissingNull(ptr) => Some(ptr.bucket)
    case DanglingIndex(u) => Some(u.bucket)
    case MissingIndex(u) => Some(u.bucket)
    case OrphanParts(u) => Some(u.bucket)
    case PartMissing(pid) => Some(pid.bucket)
    case BucketDeleting(b) => Some(b)
    case TempFile(_) => None
  }

  /** The problems of some buckets. */
  ghost predicate Reported(d: Dir, buckets: set<Name>, problems: set<Problem>) {
    forall p :: p in problems <==> BucketOf(p).Some? && BucketOf(p).value in buckets && Found(d, p)
  }

  lemma NothingReported(d: Dir)
    ensures Reported(d, {}, {})
  {
  }

  lemma BucketAdded(d: Dir, known: set<Name>, left: set<Name>, b: Name, before: set<Problem>, after: set<Problem>)
    requires b in left && left <= known && Reported(d, known - left, before)
    requires forall p :: p in after <==> p in before || (BucketOf(p) == Some(b) && Found(d, p))
    ensures Reported(d, known - (left - {b}), after)
  {
    hide Found, BucketOf;
  }

  lemma AllReported(d: Dir, known: set<Name>, before: set<Problem>, after: set<Problem>)
    requires Reported(d, known, before) && forall b :: b in known <==> Known(d, b)
    requires forall p :: p in after <==>
      p in before || (p.OrphanFile? && p.file in d.files && p.file.bucket !in known) || (p.TempFile? && p.temp in d.temps)
    ensures forall p :: p in after <==> Found(d, p)
  {
    StrayProblems(d, known);
    hide Found, Known, BucketOf;
  }

  /** What is found is found in a known bucket, or is a stray or temporary file. */
  lemma StrayProblems(d: Dir, known: set<Name>)
    requires forall b :: b in known <==> Known(d, b)
    ensures forall p :: Found(d, p) <==>
      (BucketOf(p).Some? && BucketOf(p).value in known && Found(d, p)) ||
      (p.OrphanFile? && p.file in d.files && p.file.bucket !in known) || (p.TempFile? && p.temp in d.temps)
  {
    hide ObjectNames, PartNames, HasUpload, HasNull, HasParts;
    forall p | Found(d, p)
      ensures (BucketOf(p).Some? && BucketOf(p).value in known) || (p.OrphanFile? && p.file.bucket !in known) || p.TempFile?
    {
      if p.MissingFile? || p.SizeMismatch? { assert HasRecords(d, p.id.bucket); }
    }
  }

  /** What a version's files may show. */
  ghost predicate FileProblem(d: Dir, id: ObjectId, n: nat, p: Problem)
    requires id in d.objects
  {
    (p.MissingFile? || p.SizeMismatch?) && p.id == id && p.n < n && Found(d, p)
  }

  /** What was seen among the versions not left. */
  ghost predicate VersionProblem(d: Dir, bucket: Name, left: set<ObjectId>, p: Problem) {
    (p.MissingFile? || p.SizeMismatch?) && p.id.bucket == bucket && p.id !in left && Found(d, p)
  }

  ghost predicate NamedBySeen(d: Dir, bucket: Name, left: set<ObjectId>, f: Blob) {
    f.bucket == bucket && exists id :: id in d.objects && id.bucket == bucket && id !in left && VersionNames(d.objects[id], f.id)
  }

  lemma NamesNothing(d: Dir, bucket: Name, left: set<ObjectId>)
    requires left == set id | id in d.objects && id.bucket == bucket
    ensures forall f :: !NamedBySeen(d, bucket, left, f)
    ensures forall p :: !VersionProblem(d, bucket, left, p)
  {
    hide VersionNames;
  }

  lemma NamesAll(d: Dir, bucket: Name)
    ensures forall f :: NamedBySeen(d, bucket, {}, f) <==> f.bucket == bucket && ObjectNames(d, f)
  {
    hide VersionNames;
  }

  lemma SeenNext(d: Dir, bucket: Name, left: set<ObjectId>, id: ObjectId)
    requires id in left && id in d.objects && id.bucket == bucket
    ensures forall f :: NamedBySeen(d, bucket, left - {id}, f) <==>
      NamedBySeen(d, bucket, left, f) || (f.bucket == bucket && VersionNames(d.objects[id], f.id))
    ensures forall p :: VersionProblem(d, bucket, left - {id}, p) <==>
      VersionProblem(d, bucket, left, p) || FileProblem(d, id, |d.objects[id].parts|, p)
    ensures d.objects[id].deleteMarker ==>
      (forall f: Blob :: !VersionNames(d.objects[id], f.id)) && forall p :: !FileProblem(d, id, |d.objects[id].parts|, p)
  {
  }

  ghost predicate IndexProblem(d: Dir, bucket: Name, p: Problem) {
    || (p.DanglingIndex? && p.upload.bucket == bucket && p.upload in d.index && !HasUpload(d, p.upload))
    || (p.MissingIndex? && p.upload.bucket == bucket && exists key :: IsUpload(d, p.upload, key) && !Indexes(d, p.upload, key))
  }

  /** A missing index entry was seen among the uploads not left. */
  ghost predicate IndexSeen(d: Dir, bucket: Name, left: set<UploadRecord>, p: Problem) {
    p.MissingIndex? && p.upload.bucket == bucket &&
    exists key :: IsUpload(d, p.upload, key) && UploadRecord(p.upload.bucket, key, p.upload.id) !in left && !Indexes(d, p.upload, key)
  }

  /** No upload with the ID was seen yet. */
  ghost predicate Unindexed(d: Dir, bucket: Name, left: set<UploadRecord>, u: UploadId) {
    u in d.index && u.bucket == bucket && forall key :: IsUpload(d, u, key) ==> UploadRecord(u.bucket, key, u.id) in left
  }

  ghost predicate UploadSeen(d: Dir, bucket: Name, left: set<UploadRecord>, i: nat) {
    exists key :: IsUpload(d, UploadId(bucket, i), key) && UploadRecord(bucket, key, i) !in left
  }

  lemma AllUnindexed(d: Dir, bucket: Name, left: set<UploadRecord>)
    requires left == set u | u in d.uploads && u.bucket == bucket
    ensures forall u :: Unindexed(d, bucket, left, u) <==> u in d.index && u.bucket == bucket
    ensures forall p :: !IndexSeen(d, bucket, left, p)
    ensures forall i :: !UploadSeen(d, bucket, left, i)
  {
  }

  lemma IndexSeenNext(d: Dir, bucket: Name, left: set<UploadRecord>, rec: UploadRecord)
    requires rec in left && rec in d.uploads && rec.bucket == bucket
    ensures var u := UploadId(rec.bucket, rec.id);
      (forall p :: IndexSeen(d, bucket, left - {rec}, p) <==>
        IndexSeen(d, bucket, left, p) || (p == MissingIndex(u) && !(Unindexed(d, bucket, left, u) && d.index[u] == rec.key))) &&
      (forall q :: Unindexed(d, bucket, left - {rec}, q) <==> Unindexed(d, bucket, left, q) && q != u) &&
      forall i :: UploadSeen(d, bucket, left - {rec}, i) <==> UploadSeen(d, bucket, left, i) || i == rec.id
  {
    assert IsUpload(d, UploadId(rec.bucket, rec.id), rec.key);
  }

  lemma IndexAllSeen(d: Dir, bucket: Name)
    ensures forall p ::
      IndexProblem(d, bucket, p) <==> IndexSeen(d, bucket, {}, p) || (p.DanglingIndex? && Unindexed(d, bucket, {}, p.upload))
    ensures forall i :: UploadSeen(d, bucket, {}, i) <==> HasUpload(d, UploadId(bucket, i))
  {
  }

  /** What was seen among the parts not left. */
  ghost predicate PartProblem(d: Dir, bucket: Name, left: set<PartId>, p: Problem) {
    || (p.OrphanParts? && p.upload.bucket == bucket && !HasUpload(d, p.upload) &&
          exists pid :: pid in d.parts && pid !in left && pid.bucket == bucket && pid.id == p.upload.id)
    || (p.PartMissing? && p.pid in d.parts && p.pid.bucket == bucket && p.pid !in left && HasUpload(d, UploadId(bucket, p.pid.id)) &&
          Blob(bucket, d.parts[p.pid].blob) !in d.files)
  }

  lemma PartSeenNext(d: Dir, bucket: Name, left: set<PartId>, pid: PartId)
    requires pid in left && pid in d.parts && pid.bucket == bucket
    ensures forall p :: PartProblem(d, bucket, left - {pid}, p) <==>
      PartProblem(d, bucket, left, p) ||
      (if HasUpload(d, UploadId(bucket, pid.id)) then p == PartMissing(pid) && Blob(bucket, d.parts[pid].blob) !in d.files
       else p == OrphanParts(UploadId(bucket, pid.id)))
  {
    hide HasUpload;
  }

  /** The problems of a bucket are those its five passes look for. */
  lemma BucketProblems(d: Dir, bucket: Name)
    requires Known(d, bucket)
    ensures forall p :: BucketOf(p) == Some(bucket) && Found(d, p) <==>
      (p == RecordWithoutBucket(bucket) && bucket !in d.buckets) ||
      (p == BucketDeleting(bucket) && bucket in d.buckets && d.buckets[bucket]) ||
      NullProblem(d, bucket, p) || VersionProblem(d, bucket, {}, p) || IndexProblem(d, bucket, p) || PartProblem(d, bucket, {}, p) ||
      (p.OrphanFile? && p.file in d.files && p.file.bucket == bucket && !(ObjectNames(d, p.file) || PartNames(d, p.file)))
  {
    hide ObjectNames, PartNames, HasUpload, HasNull;
  }

  ghost predicate NullProblem(d: Dir, bucket: Name, p: Problem) {
    || (p.DanglingNull? && p.ptr.bucket == bucket && p.ptr in d.nulls && !HasNull(d, p.ptr))
    || (p.MissingNull? && p.ptr.bucket == bucket && exists n: nat :: IsNull(d, p.ptr, n) && !PointsAt(d, p.ptr, n))
  }

  /** A missing pointer was seen among the versions not left. */
  ghost predicate NullSeen(d: Dir, bucket: Name, left: set<ObjectId>, p: Problem) {
    p.MissingNull? && p.ptr.bucket == bucket &&
    exists n: nat :: IsNull(d, p.ptr, n) && ObjectId(p.ptr.bucket, p.ptr.key, n) !in left && !PointsAt(d, p.ptr, n)
  }

  /** No null version of the key was seen yet. */
  ghost predicate Unused(d: Dir, bucket: Name, left: set<ObjectId>, ptr: NullPtr) {
    ptr in d.nulls && ptr.bucket == bucket && forall n: nat :: IsNull(d, ptr, n) ==> ObjectId(ptr.bucket, ptr.key, n) in left
  }

  lemma AllUnused(d: Dir, bucket: Name, left: set<ObjectId>)
    requires left == set id | id in d.objects && id.bucket == bucket
    ensures forall ptr :: Unused(d, bucket, left, ptr) <==> ptr in d.nulls && ptr.bucket == bucket
    ensures forall p :: !NullSeen(d, bucket, left, p)
  {
  }

  lemma NotNull(d: Dir, bucket: Name, left: set<ObjectId>, id: ObjectId)
    requires id in left && id in d.objects && d.objects[id].vid != NullId
    ensures forall p :: NullSeen(d, bucket, left - {id}, p) <==> NullSeen(d, bucket, left, p)
    ensures forall ptr :: Unused(d, bucket, left - {id}, ptr) <==> Unused(d, bucket, left, ptr)
  {
  }

  /** When a null version is looked at: if its pointer was already used up, another null version
      of the key was seen, and one of the two is not pointed at. */
  lemma NullSeenNext(d: Dir, bucket: Name, left: set<ObjectId>, id: ObjectId)
    requires id in left && id.bucket == bucket && id in d.objects && d.objects[id].vid == NullId
    ensures var ptr := NullPtr(id.bucket, id.key);
      (forall p :: NullSeen(d, bucket, left - {id}, p) <==>
        NullSeen(d, bucket, left, p) ||
        (p == MissingNull(ptr) && !(Unused(d, bucket, left, ptr) && d.nulls[ptr] == id.seqNo))) &&
      forall q :: Unused(d, bucket, left - {id}, q) <==> Unused(d, bucket, left, q) && q != ptr
  {
    assert IsNull(d, NullPtr(id.bucket, id.key), id.seqNo);
  }

  lemma NullsSeen(d: Dir, bucket: Name)
    ensures forall p :: NullProblem(d, bucket, p) <==> NullSeen(d, bucket, {}, p) || (p.DanglingNull? && Unused(d, bucket, {}, p.ptr))
  {
  }
}
