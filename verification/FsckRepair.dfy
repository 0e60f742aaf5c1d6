/** The repair of a data directory from a report (internal/fsck/repair.go): what an object needs
    is never removed, and a second check finds nothing left to repair. */
module FsckRepair {
  import opened Records
  import opened Protocol
  import opened Fsck

  // ----- one repair

  /** The null version of a key that comes first in key order: the newest. */
  ghost predicate IsFirstNull(d: Dir, ptr: NullPtr, n: nat) {
    IsNull(d, ptr, n) && forall m: nat :: IsNull(d, ptr, m) ==> m <= n
  }

  lemma FirstNullExists(d: Dir, ptr: NullPtr)
    requires HasNull(d, ptr)
    ensures exists n: nat :: IsFirstNull(d, ptr, n)
  {
    var s := set id | id in d.objects && id.bucket == ptr.bucket && id.key == ptr.key && d.objects[id].vid == NullId :: id.seqNo;
    var n: nat :| IsNull(d, ptr, n);
    assert ObjectId(ptr.bucket, ptr.key, n).seqNo in s;
    var m := MaxExists(s);
    forall k: nat | IsNull(d, ptr, k)
      ensures k <= m
    {
      assert ObjectId(ptr.bucket, ptr.key, k).seqNo in s;
    }
    assert IsFirstNull(d, ptr, m);
  }

  ghost function FirstNull(d: Dir, ptr: NullPtr): (n: nat)
    requires HasNull(d, ptr)
    ensures IsFirstNull(d, ptr, n)
  {
    FirstNullExists(d, ptr);
    var n: nat :| IsFirstNull(d, ptr, n);
    n
  }

  /** The key of an upload with the ID. */
  ghost function KeyOf(d: Dir, u: UploadId): (key: Key)
    requires HasUpload(d, u)
    ensures IsUpload(d, u, key)
  {
    var key :| IsUpload(d, u, key);
    key
  }

  function PartIds(d: Dir, u: UploadId): (s: set<PartId>)
    ensures s <= d.parts.Keys
  {
    set p | p in d.parts && p.bucket == u.bucket && p.id == u.id
  }

  function FilesOf(d: Dir, ids: set<PartId>): set<Blob>
    requires ids <= d.parts.Keys
  {
    set p | p in ids :: Blob(p.bucket, d.parts[p].blob)
  }

  predicate HasObjects(d: Dir, b: Name) {
    exists id :: id in d.objects && id.bucket == b
  }

  /** The repair that fails, because what the report names is no longer there. */
  ghost predicate Fails(d: Dir, p: Problem) {
    (p.MissingNull? && !HasNull(d, p.ptr)) || (p.MissingIndex? && !HasUpload(d, p.upload))
  }

  ghost function RepairOne(d: Dir, p: Problem): Dir
    requires !Fails(d, p)
  {
    match p
    case OrphanFile(f) => d.(files := d.files - {f})
    case TempFile(t) => d.(temps := d.temps - {t})
    case DanglingNull(ptr) => d.(nulls := d.nulls - {ptr})
    case MissingNull(ptr) => d.(nulls := d.nulls[ptr := FirstNull(d, ptr)])
    case DanglingIndex(u) => d.(index := d.index - {u})
    case MissingIndex(u) => d.(index := d.index[u := KeyOf(d, u)])
    case OrphanParts(u) => d.(parts := d.parts - PartIds(d, u), files := d.files - FilesOf(d, PartIds(d, u)))
    case PartMissing(pid) => d.(parts := d.parts - {pid})
    case BucketDeleting(b) =>
      if HasObjects(d, b) then if b in d.buckets then d.(buckets := d.buckets[b := false]) else d
      else
        var buckets := if b in d.buckets && d.buckets[b] then d.buckets - {b} else d.buckets;
        d.(buckets := buckets, files := map f | f in d.files && f.bucket != b :: d.files[f])
    case RecordWithoutBucket(b) => if b in d.buckets then d else d.(buckets := d.buckets[b := false])
    case _ => d
  }

  /** One repair; which of several uploads with an ID is found first is left open. */
  ghost predicate Repairs(d: Dir, p: Problem, e: Dir) {
    !Fails(d, p) && if p.MissingIndex? then Reindexed(d, p.upload, e) else e == RepairOne(d, p)
  }

  ghost predicate Reindexed(d: Dir, u: UploadId, e: Dir) {
    exists key :: IsUpload(d, u, key) && e == d.(index := d.index[u := key])
  }

  /** A bucket left in deletion: if it still holds versions it comes back, as it was; otherwise its
      record and its files go, and nothing else does. */
  lemma DeletionEnds(d: Dir, b: Name, e: Dir)
    requires Repairs(d, BucketDeleting(b), e) && b in d.buckets && d.buckets[b]
    ensures e.objects == d.objects && e.nulls == d.nulls && e.uploads == d.uploads && e.index == d.index && e.parts == d.parts && e.temps == d.temps
    ensures forall c :: c != b ==> (c in e.buckets <==> c in d.buckets) && (c in e.buckets ==> e.buckets[c] == d.buckets[c])
    ensures (exists id :: id in d.objects && id.bucket == b) ==> b in e.buckets && !e.buckets[b] && e.files == d.files
    ensures (forall id :: id in d.objects ==> id.bucket != b) ==>
      b !in e.buckets && forall f :: (f in e.files <==> f in d.files && f.bucket != b) && (f in e.files ==> e.files[f] == d.files[f])
  {
  }

  /** When upload IDs are unique nothing is left open. */
  lemma RepairIsOne(d: Dir, p: Problem, e: Dir)
    requires Repairs(d, p, e) && forall u, k, l :: IsUpload(d, u, k) && IsUpload(d, u, l) ==> k == l
    ensures e == RepairOne(d, p)
  {
  }

  /** The directory after a sequence of repairs: each state follows from the one before. */
  ghost predicate IsRepair(dirs: seq<Dir>, ps: seq<Problem>) {
    |dirs| == |ps| + 1 && forall i :: 0 <= i < |ps| ==> Repairs(dirs[i], ps[i], dirs[i + 1])
  }

  /** The report is complete and still true when the repair starts. */
  ghost predicate Fresh(d: Dir, ps: seq<Problem>) {
    forall p :: p in ps <==> Found(d, p)
  }

  // ----- the repairer

  class Repairer {
    var d: Dir

    constructor (d: Dir)
      ensures this.d == d
    {
      this.d := d;
    }

    method FindNull(ptr: NullPtr) returns (target: Option<nat>)
      ensures target.Some? <==> HasNull(d, ptr)
      ensures target.Some? ==> target.value == FirstNull(d, ptr)
    {
      var ids := set id | id in d.objects && id.bucket == ptr.bucket && id.key == ptr.key;
      target := None;
      while ids != {}
        invariant forall id :: id in ids ==> id in d.objects && id.bucket == ptr.bucket && id.key == ptr.key
        invariant target.Some? ==> IsNull(d, ptr, target.value)
        invariant forall n: nat :: IsNull(d, ptr, n) && ObjectId(ptr.bucket, ptr.key, n) !in ids ==> target.Some? && n <= target.value
        decreases |ids|
      {
        var id :| id in ids;
        if d.objects[id].vid == NullId && (target.None? || id.seqNo > target.value) { target := Some(id.seqNo); }
        ids := ids - {id};
      }
      if target.Some? { assert IsFirstNull(d, ptr, target.value) && IsFirstNull(d, ptr, FirstNull(d, ptr)); }
    }

    /** The part records of an upload, one after the other, and then their files. */
    method RemoveParts(u: UploadId)
      modifies this
      ensures d == RepairOne(old(d), OrphanParts(u))
    {
      var ids := set p | p in d.parts && p.bucket == u.bucket && p.id == u.id;
      var blobs := set p | p in ids :: Blob(p.bucket, d.parts[p].blob);
      var left := ids;
      while left != {}
        invariant left <= ids && d == old(d).(parts := old(d).parts - (ids - left))
        decreases |left|
      {
        var p :| p in left;
        assert old(d).parts - (ids - left) - {p} == old(d).parts - (ids - (left - {p}));
        d := d.(parts := d.parts - {p});
        left := left - {p};
      }
      assert ids - left == ids;
      d := d.(files := d.files - blobs);
    }

    /** Act on the problems in order; stops at the first that fails. */
    method Repair(ps: seq<Problem>) returns (ok: bool, ghost dirs: seq<Dir>)
      modifies this
      ensures |dirs| >= 1 && dirs[0] == old(d) && dirs[|dirs| - 1] == d
      ensures ok ==> IsRepair(dirs, ps)
      ensures !ok ==> |dirs| <= |ps| && IsRepair(dirs, ps[..|dirs| - 1]) && Fails(d, ps[|dirs| - 1])
    {
      hide Repairs, Fails;
      dirs := [d];
      var i := 0;
      while i < |ps|
        invariant 0 <= i <= |ps| && |dirs| == i + 1 && dirs[0] == old(d) && dirs[i] == d && IsRepair(dirs, ps[..i])
      {
        ghost var before := d;
        var done := Act(ps[i]);
        if !done { return false, dirs; }
        RepairNext(dirs, ps, i, d);
        dirs := dirs + [d];
        i := i + 1;
      }
      assert ps[..|ps|] == ps;
      ok := true;
    }

    method Act(p: Problem) returns (ok: bool)
      modifies this
      ensures ok <==> !Fails(old(d), p)
      ensures ok ==> Repairs(old(d), p, d)
      ensures !ok ==> d == old(d)
    {
      hide HasUpload, Reindexed;
      ok := true;
      match p
      case OrphanFile(f) => d := d.(files := d.files - {f});
      case TempFile(t) => d := d.(temps := d.temps - {t});
      case DanglingNull(ptr) => d := d.(nulls := d.nulls - {ptr});
      case MissingNull(ptr) =>
        var target := FindNull(ptr);
        if target.None? { return false; }
        d := d.(nulls := d.nulls[ptr := target.value]);
      case DanglingIndex(u) => d := d.(index := d.index - {u});
      case MissingIndex(u) => ok := Reindex(u);
      case OrphanParts(u) => RemoveParts(u);
      case PartMissing(pid) => d := d.(parts := d.parts - {pid});
      case BucketDeleting(b) =>
        if HasObjects(d, b) {
          if b in d.buckets { d := d.(buckets := d.buckets[b := false]); }
        } else {
          d := d.(files := map f | f in d.files && f.bucket != b :: d.files[f]);
          if b in d.buckets && d.buckets[b] { d := d.(buckets := d.buckets - {b}); }
        }
      case RecordWithoutBucket(b) =>
        if b !in d.buckets { d := d.(buckets := d.buckets[b := false]); }
      case MissingFile(_, _) =>
      case SizeMismatch(_, _) =>
    }

    /** The index entry of the upload with the ID; which one is found first is not specified. */
    method Reindex(u: UploadId) returns (ok: bool)
      modifies this
      ensures ok <==> HasUpload(old(d), u)
      ensures ok ==> Reindexed(old(d), u, d)
      ensures !ok ==> d == old(d)
    {
      var recs := set r | r in d.uploads && r.bucket == u.bucket && r.id == u.id;
      if recs == {} {
        assert forall key :: IsUpload(d, u, key) ==> UploadRecord(u.bucket, key, u.id) in recs;
        return false;
      }
      var r :| r in recs;
      assert IsUpload(d, u, r.key);
      d := d.(index := d.index[u := r.key]);
      ok := true;
    }
  }

  lemma RepairNext(dirs: seq<Dir>, ps: seq<Problem>, i: nat, next: Dir)
    requires i < |ps| && |dirs| == i + 1 && IsRepair(dirs, ps[..i]) && Repairs(dirs[i], ps[i], next)
    ensures IsRepair(dirs + [next], ps[..i + 1])
  {
    hide Repairs;
    assert ps[..i + 1][..i] == ps[..i];
  }

  // ----- no object loses a file

  /** Every file is named by one record: a part's file is no object's, and no other part's. */
  ghost predicate Unshared(d: Dir) {
    && (forall pid, f :: pid in d.parts && PartIs(d, pid, f) ==> !ObjectNames(d, f))
    && (forall p, q :: p in d.parts && q in d.parts && p.bucket == q.bucket && d.parts[p].blob == d.parts[q].blob ==> p == q)
  }

  /** Repairs never touch object versions or uploads, add no part and no file, and take no file
      that an object names. */
  ghost predicate Keeps(d: Dir, e: Dir) {
    && e.objects == d.objects && e.uploads == d.uploads
    && (forall p :: p in e.parts ==> p in d.parts && e.parts[p] == d.parts[p])
    && (forall f :: f in e.files ==> f in d.files && e.files[f] == d.files[f])
    && (forall f :: f in d.files && ObjectNames(d, f) ==> f in e.files)
  }

  lemma KeepsOn(d: Dir, e: Dir, e': Dir)
    requires Keeps(d, e) && e'.objects == e.objects && e'.uploads == e.uploads
    requires forall p :: p in e'.parts ==> p in e.parts && e'.parts[p] == e.parts[p]
    requires forall f :: f in e'.files ==> f in e.files && e'.files[f] == e.files[f]
    requires forall f :: f in e.files && ObjectNames(d, f) ==> f in e'.files
    ensures Keeps(d, e')
  {
    hide ObjectNames;
  }

  /** What one repair may take. */
  lemma RepairTakes(e: Dir, p: Problem, e': Dir)
    requires Repairs(e, p, e')
    ensures e'.objects == e.objects && e'.uploads == e.uploads
    ensures forall q :: q in e'.parts ==> q in e.parts && e'.parts[q] == e.parts[q]
    ensures forall f :: f in e'.files ==> f in e.files && e'.files[f] == e.files[f]
    ensures forall f :: f in e.files && f !in e'.files ==> Taken(e, p, f)
  {
    TakesRecords(e, p, e');
    TakesFiles(e, p, e');
    hide Repairs, Taken;
  }

  lemma TakesRecords(e: Dir, p: Problem, e': Dir)
    requires Repairs(e, p, e')
    ensures e'.objects == e.objects && e'.uploads == e.uploads
    ensures forall q :: q in e'.parts ==> q in e.parts && e'.parts[q] == e.parts[q]
  {
    hide Fails, HasUpload, HasNull, HasObjects, FilesOf, FirstNull, KeyOf, IsUpload, PartIds;
  }

  lemma TakesFiles(e: Dir, p: Problem, e': Dir)
    requires Repairs(e, p, e')
    ensures e'.files == map f | f in e.files && !Taken(e, p, f) :: e.files[f]
  {
    FilesAre(e, p, e');
    hide Repairs, Fails, HasObjects, PartIds, FilesOf;
  }

  /** The files after one repair, by kind of problem. */
  lemma FilesAre(e: Dir, p: Problem, e': Dir)
    requires Repairs(e, p, e')
    ensures match p
      case OrphanFile(f) => e'.files == e.files - {f}
      case OrphanParts(u) => e'.files == e.files - FilesOf(e, PartIds(e, u))
      case BucketDeleting(b) =>
        if HasObjects(e, b) then e'.files == e.files else e'.files == map f | f in e.files && f.bucket != b :: e.files[f]
      case _ => e'.files == e.files
  {
    hide Fails, HasUpload, HasNull, HasObjects, FirstNull, KeyOf, IsUpload, PartIds, FilesOf;
  }

  predicate Taken(e: Dir, p: Problem, f: Blob) {
    || p == OrphanFile(f)
    || (p.OrphanParts? && f in FilesOf(e, PartIds(e, p.upload)))
    || (p == BucketDeleting(f.bucket) && !HasObjects(e, f.bucket))
  }

  lemma RepairKeeps(d: Dir, e: Dir, p: Problem, e': Dir)
    requires Keeps(d, e) && Unshared(d) && Found(d, p) && Repairs(e, p, e')
    ensures Keeps(d, e')
  {
    RepairTakes(e, p, e');
    hide Repairs, Unshared;
    forall f | Taken(e, p, f)
      ensures !ObjectNames(d, f)
    {
      TakenNotNamed(d, e, p, f);
    }
    hide Taken, Found, ObjectNames, Keeps;
    KeepsOn(d, e, e');
  }

  lemma TakenNotNamed(d: Dir, e: Dir, p: Problem, f: Blob)
    requires Keeps(d, e) && Unshared(d) && Found(d, p) && Taken(e, p, f)
    ensures !ObjectNames(d, f)
  {
    hide PartNames, HasUpload, HasNull, HasParts;
    if p.OrphanParts? {
      OrphansNotNamed(d, e, p.upload);
    } else if p.OrphanFile? {
      if ObjectNames(d, f) { ObjectKnown(d, f); }
      hide ObjectNames, Known;
    } else {
      assert ObjectNames(d, f) ==> HasObjects(d, f.bucket);
      hide ObjectNames;
    }
  }

  lemma OrphansNotNamed(d: Dir, e: Dir, u: UploadId)
    requires Keeps(d, e) && Unshared(d)
    ensures forall f :: f in FilesOf(e, PartIds(e, u)) ==> !ObjectNames(d, f)
  {
    hide ObjectNames;
    forall f | f in FilesOf(e, PartIds(e, u))
      ensures !ObjectNames(d, f)
    {
      var pid :| pid in PartIds(e, u) && f == Blob(pid.bucket, e.parts[pid].blob);
      assert PartIs(d, pid, f);
    }
  }

  lemma ObjectKnown(d: Dir, f: Blob)
    requires ObjectNames(d, f)
    ensures Known(d, f.bucket)
  {
    var id :| id in d.objects && id.bucket == f.bucket && VersionNames(d.objects[id], f.id);
    assert HasRecords(d, f.bucket);
  }

  /** From a fresh report, on a directory in which every file has one record, repair removes no
      file that an object version names. */
  lemma {:induction false} RepairLosesNothing(dirs: seq<Dir>, ps: seq<Problem>, i: nat)
    requires IsRepair(dirs, ps) && i <= |ps| && Unshared(dirs[0]) && Fresh(dirs[0], ps)
    ensures Keeps(dirs[0], dirs[i])
  {
    hide Repairs, Unshared, Found, ObjectNames;
    if i > 0 {
      RepairLosesNothing(dirs, ps, i - 1);
      assert ps[i - 1] in ps;
      hide Keeps;
      RepairKeeps(dirs[0], dirs[i - 1], ps[i - 1], dirs[i]);
    }
  }

  // ----- nothing is left to repair

  /** Null versions and upload IDs are unique, and no bucket is left in deletion. */
  ghost predicate Orderly(d: Dir) {
    && Unshared(d)
    && (forall ptr, n: nat, m: nat :: IsNull(d, ptr, n) && IsNull(d, ptr, m) ==> n == m)
    && (forall u, k, l :: IsUpload(d, u, k) && IsUpload(d, u, l) ==> k == l)
    && (forall b :: b in d.buckets ==> !d.buckets[b])
  }

  predicate PartDone(done: set<Problem>, pid: PartId) {
    OrphanParts(UploadId(pid.bucket, pid.id)) in done || PartMissing(pid) in done
  }

  ghost predicate FileDone(d: Dir, done: set<Problem>, f: Blob) {
    OrphanFile(f) in done || exists pid :: pid in d.parts && PartIs(d, pid, f) && OrphanParts(UploadId(pid.bucket, pid.id)) in done
  }

  /** What the repairs of the problems `done` make of a directory. */
  ghost predicate Shape(d: Dir, e: Dir, done: set<Problem>) {
    && e.objects == d.objects && e.uploads == d.uploads
    && BucketShape(d, e, done) && NullsShape(d, e, done) && IndexShape(d, e, done) && PartsShape(d, e, done) && FilesShape(d, e, done)
    && TempsShape(d, e, done)
  }

  ghost predicate BucketShape(d: Dir, e: Dir, done: set<Problem>) {
    (forall b :: b in e.buckets <==> b in d.buckets || RecordWithoutBucket(b) in done) && (forall b :: b in e.buckets ==> !e.buckets[b])
  }

  ghost predicate NullsShape(d: Dir, e: Dir, done: set<Problem>) {
    forall ptr :: NullShape(d, e, done, ptr)
  }

  ghost predicate NullShape(d: Dir, e: Dir, done: set<Problem>, ptr: NullPtr) {
    if DanglingNull(ptr) in done then ptr !in e.nulls
    else if MissingNull(ptr) in done then HasNull(d, ptr) && PointsAt(e, ptr, FirstNull(d, ptr))
    else (ptr in e.nulls <==> ptr in d.nulls) && (ptr in d.nulls ==> e.nulls[ptr] == d.nulls[ptr])
  }

  ghost predicate IndexShape(d: Dir, e: Dir, done: set<Problem>) {
    forall u :: EntryShape(d, e, done, u)
  }

  ghost predicate EntryShape(d: Dir, e: Dir, done: set<Problem>, u: UploadId) {
    if DanglingIndex(u) in done then u !in e.index
    else if MissingIndex(u) in done then HasUpload(d, u) && Indexes(e, u, KeyOf(d, u))
    else (u in e.index <==> u in d.index) && (u in d.index ==> e.index[u] == d.index[u])
  }

  ghost predicate PartsShape(d: Dir, e: Dir, done: set<Problem>) {
    forall pid ::
      (pid in e.parts <==> pid in d.parts && !PartDone(done, pid)) && (pid in e.parts ==> e.parts[pid] == d.parts[pid])
  }

  ghost predicate FilesShape(d: Dir, e: Dir, done: set<Problem>) {
    forall f :: f in e.files <==> f in d.files && !FileDone(d, done, f)
  }

  ghost predicate TempsShape(d: Dir, e: Dir, done: set<Problem>) {
    forall t :: t in e.temps <==> t in d.temps && TempFile(t) !in done
  }

  lemma ShapeStarts(d: Dir)
    requires Orderly(d)
    ensures Shape(d, d, {})
  {
    hide Unshared, HasNull, HasUpload;
  }

  /** On the same versions and uploads the same targets are found. */
  lemma SameTargets(d: Dir, e: Dir, p: Problem)
    requires e.objects == d.objects && e.uploads == d.uploads
    ensures p.MissingNull? ==> (HasNull(e, p.ptr) <==> HasNull(d, p.ptr)) && (HasNull(d, p.ptr) ==> FirstNull(e, p.ptr) == FirstNull(d, p.ptr))
    ensures p.MissingIndex? ==> (HasUpload(e, p.upload) <==> HasUpload(d, p.upload))
  {
    assert forall ptr, n: nat :: IsNull(e, ptr, n) <==> IsNull(d, ptr, n);
    assert forall u, key :: IsUpload(e, u, key) <==> IsUpload(d, u, key);
    if p.MissingNull? && HasNull(d, p.ptr) {
      var n, m := FirstNull(d, p.ptr), FirstNull(e, p.ptr);
      assert IsNull(d, p.ptr, n) && IsNull(d, p.ptr, m) && IsNull(e, p.ptr, n);
      assert n <= m && m <= n;
    }
  }

  /** A problem of a fresh report can be repaired, and its repair adds to the shape. */
  lemma ShapeStep(d: Dir, e: Dir, done: set<Problem>, p: Problem)
    requires Orderly(d) && Shape(d, e, done) && Found(d, p) && forall q :: q in done ==> Found(d, q)
    ensures !Fails(e, p) && Shape(d, RepairOne(e, p), done + {p})
  {
    SameTargets(d, e, p);
    FoundFacts(d, p);
    forall q | q in done { FoundFacts(d, q); }
    hide Found, HasNull, HasUpload, BucketShape, NullsShape, IndexShape, PartsShape, FilesShape, TempsShape, Unshared, FirstNull, KeyOf;
    BucketStep(d, e, done, p);
    NullsStep(d, e, done, p);
    IndexStep(d, e, done, p);
    PartsStep(d, e, done, p);
    FilesStep(d, e, done, p);
    TempsStep(d, e, done, p);
    hide Orderly;
  }

  /** The half of what a report says that its repair relies on. */
  ghost predicate Grounded(d: Dir, p: Problem) {
    match p
    case DanglingNull(ptr) => !HasNull(d, ptr)
    case MissingNull(ptr) => HasNull(d, ptr)
    case DanglingIndex(u) => !HasUpload(d, u)
    case MissingIndex(u) => HasUpload(d, u)
    case OrphanParts(u) => !HasUpload(d, u)
    case PartMissing(pid) => HasUpload(d, UploadId(pid.bucket, pid.id))
    case BucketDeleting(b) => b in d.buckets && d.buckets[b]
    case _ => true
  }

  lemma FoundFacts(d: Dir, p: Problem)
    requires Found(d, p)
    ensures Grounded(d, p)
  {
    hide Known, HasParts, ObjectNames, PartNames;
  }

  lemma BucketStep(d: Dir, e: Dir, done: set<Problem>, p: Problem)
    requires Orderly(d) && BucketShape(d, e, done) && Grounded(d, p) && !Fails(e, p)
    ensures BucketShape(d, RepairOne(e, p), done + {p})
  {
    hide Unshared, HasNull, HasUpload, Fails;
  }

  lemma NullsStep(d: Dir, e: Dir, done: set<Problem>, p: Problem)
    requires NullsShape(d, e, done) && Grounded(d, p) && !Fails(e, p) && forall q :: q in done ==> Grounded(d, q)
    requires p.MissingNull? ==> HasNull(e, p.ptr) && FirstNull(e, p.ptr) == FirstNull(d, p.ptr)
    ensures NullsShape(d, RepairOne(e, p), done + {p})
  {
    var e' := RepairOne(e, p);
    assert p.MissingNull? ==> DanglingNull(p.ptr) !in done && HasNull(d, p.ptr);
    hide Grounded;
    assert match p
      case MissingNull(ptr) => e'.nulls == e.nulls[ptr := FirstNull(d, ptr)]
      case DanglingNull(ptr) => e'.nulls == e.nulls - {ptr}
      case _ => e'.nulls == e.nulls;
    hide RepairOne, HasNull, FirstNull, Fails;
    forall ptr
      ensures NullShape(d, e', done + {p}, ptr)
    {
      assert NullShape(d, e, done, ptr);
    }
  }

  lemma IndexStep(d: Dir, e: Dir, done: set<Problem>, p: Problem)
    requires Orderly(d) && IndexShape(d, e, done) && Grounded(d, p) && !Fails(e, p) && forall q :: q in done ==> Grounded(d, q)
    requires e.uploads == d.uploads
    ensures IndexShape(d, RepairOne(e, p), done + {p})
  {
    var e' := RepairOne(e, p);
    if p.MissingIndex? { KeyIs(d, e, p.upload); }
    assert p.MissingIndex? ==> DanglingIndex(p.upload) !in done;
    assert forall u :: !((p.MissingIndex? || p.DanglingIndex?) && p.upload == u) ==>
      (u in e'.index <==> u in e.index) && (u in e.index ==> e'.index[u] == e.index[u]);
    assert p.MissingIndex? ==> Indexes(e', p.upload, KeyOf(d, p.upload)) && HasUpload(d, p.upload);
    assert p.DanglingIndex? ==> p.upload !in e'.index;
    hide RepairOne, HasUpload, KeyOf, Grounded, Fails, Orderly;
    forall u
      ensures EntryShape(d, e', done + {p}, u)
    {
      assert EntryShape(d, e, done, u);
    }
  }

  lemma KeyIs(d: Dir, e: Dir, u: UploadId)
    requires Orderly(d) && e.uploads == d.uploads && HasUpload(d, u) && HasUpload(e, u)
    ensures KeyOf(e, u) == KeyOf(d, u)
  {
    hide Unshared;
    assert IsUpload(d, u, KeyOf(e, u)) && IsUpload(d, u, KeyOf(d, u));
  }

  lemma PartsStep(d: Dir, e: Dir, done: set<Problem>, p: Problem)
    requires PartsShape(d, e, done) && !Fails(e, p)
    ensures PartsShape(d, RepairOne(e, p), done + {p})
  {
    DoneNext(done, p);
    PartsAre(e, p);
    hide Fails, RepairOne, PartDone;
  }

  /** The parts after one repair. */
  lemma PartsAre(e: Dir, p: Problem)
    requires !Fails(e, p)
    ensures RepairOne(e, p).parts ==
      map pid | pid in e.parts && !(p == OrphanParts(UploadId(pid.bucket, pid.id)) || p == PartMissing(pid)) :: e.parts[pid]
  {
    hide Fails, HasNull, HasUpload, HasObjects, FilesOf;
    if p.OrphanParts? || p.PartMissing? {
    } else {
      assert RepairOne(e, p).parts == e.parts;
    }
  }

  lemma DoneNext(done: set<Problem>, p: Problem)
    ensures forall pid ::
      PartDone(done + {p}, pid) <==> PartDone(done, pid) || p == OrphanParts(UploadId(pid.bucket, pid.id)) || p == PartMissing(pid)
  {
  }

  lemma FilesStep(d: Dir, e: Dir, done: set<Problem>, p: Problem)
    requires FilesShape(d, e, done) && PartsShape(d, e, done) && !Fails(e, p) && !p.BucketDeleting?
    requires Grounded(d, p) && forall q :: q in done ==> Grounded(d, q)
    ensures FilesShape(d, RepairOne(e, p), done + {p})
  {
    var e' := RepairOne(e, p);
    hide Fails;
    if p.OrphanParts? {
      OrphanLeft(d, e, done, p.upload);
      PartFilesDone(d, e, done, p.upload);
      hide FileDone, Grounded, PartsShape, PartIds, FilesOf;
    } else {
      OneFile(d, done, p);
      hide PartsShape, Grounded, PartIds, FileDone;
      assert forall f :: f in e'.files <==> f in e.files && p != OrphanFile(f);
      hide RepairOne;
    }
  }

  lemma OneFile(d: Dir, done: set<Problem>, p: Problem)
    requires !p.OrphanParts?
    ensures forall f :: FileDone(d, done + {p}, f) <==> FileDone(d, done, f) || p == OrphanFile(f)
  {
    hide PartIs;
  }

  /** The parts of an orphan upload are all still there until they are dealt with. */
  lemma OrphanLeft(d: Dir, e: Dir, done: set<Problem>, u: UploadId)
    requires PartsShape(d, e, done) && Grounded(d, OrphanParts(u)) && forall q :: q in done ==> Grounded(d, q)
    ensures forall pid :: pid in e.parts ==> pid in d.parts && e.parts[pid] == d.parts[pid]
    ensures forall pid :: pid in d.parts && pid.bucket == u.bucket && pid.id == u.id && pid !in e.parts ==> OrphanParts(u) in done
  {
    hide HasUpload;
    assert forall pid :: PartMissing(pid) in done ==> Grounded(d, PartMissing(pid));
  }

  /** The files of an orphan upload's parts are dealt with together. */
  lemma PartFilesDone(d: Dir, e: Dir, done: set<Problem>, u: UploadId)
    requires forall pid :: pid in e.parts ==> pid in d.parts && e.parts[pid] == d.parts[pid]
    requires forall pid :: pid in d.parts && pid.bucket == u.bucket && pid.id == u.id && pid !in e.parts ==> OrphanParts(u) in done
    ensures forall f :: FileDone(d, done + {OrphanParts(u)}, f) <==> FileDone(d, done, f) || f in FilesOf(e, PartIds(e, u))
  {
    forall f
      ensures FileDone(d, done + {OrphanParts(u)}, f) <==> FileDone(d, done, f) || f in FilesOf(e, PartIds(e, u))
    {
      if f in FilesOf(e, PartIds(e, u)) {
        var pid :| pid in PartIds(e, u) && f == Blob(pid.bucket, e.parts[pid].blob);
        assert PartIs(d, pid, f);
      }
      if FileDone(d, done + {OrphanParts(u)}, f) && !FileDone(d, done, f) {
        var pid :| pid in d.parts && PartIs(d, pid, f) && OrphanParts(UploadId(pid.bucket, pid.id)) in done + {OrphanParts(u)};
        assert pid in PartIds(e, u);
      }
    }
  }

  lemma TempsStep(d: Dir, e: Dir, done: set<Problem>, p: Problem)
    requires TempsShape(d, e, done) && !Fails(e, p)
    ensures TempsShape(d, RepairOne(e, p), done + {p})
  {
    hide Fails;
  }

  // ----- the second check

  lemma SameRecords(d: Dir, e: Dir)
    requires e.objects == d.objects && e.uploads == d.uploads
    ensures forall b :: HasRecords(e, b) <==> HasRecords(d, b)
    ensures forall ptr, n: nat :: IsNull(e, ptr, n) <==> IsNull(d, ptr, n)
    ensures forall ptr :: HasNull(e, ptr) <==> HasNull(d, ptr)
    ensures forall u, key :: IsUpload(e, u, key) <==> IsUpload(d, u, key)
    ensures forall u :: HasUpload(e, u) <==> HasUpload(d, u)
    ensures forall f :: ObjectNames(e, f) <==> ObjectNames(d, f)
  {
    hide IsUpload, VersionNames;
    forall u, key
      ensures IsUpload(e, u, key) <==> IsUpload(d, u, key)
    {
      SameUpload(d, e, u, key);
    }
    forall ptr
      ensures HasNull(e, ptr) <==> HasNull(d, ptr)
    {
      assert forall n: nat :: IsNull(e, ptr, n) <==> IsNull(d, ptr, n);
    }
  }

  lemma SameUpload(d: Dir, e: Dir, u: UploadId, key: Key)
    requires e.uploads == d.uploads
    ensures IsUpload(e, u, key) <==> IsUpload(d, u, key)
  {
  }

  lemma SameKnown(d: Dir, e: Dir, done: set<Problem>)
    requires BucketShape(d, e, done) && forall q :: q in done ==> Found(d, q)
    requires forall b :: HasRecords(e, b) <==> HasRecords(d, b)
    ensures forall b :: Known(e, b) <==> Known(d, b)
  {
    assert forall b :: RecordWithoutBucket(b) in done ==> HasRecords(d, b);
    hide HasRecords, Found;
  }

  /** When all problems found are dealt with, none of them is found again. */
  lemma ShapeIsClean(d: Dir, e: Dir, done: set<Problem>, p: Problem)
    requires Orderly(d) && Shape(d, e, done) && forall q :: q in done <==> Found(d, q)
    ensures Found(e, p) ==> p.MissingFile? || p.SizeMismatch?
  {
    SameRecords(d, e);
    SameKnown(d, e, done);
    match p
    case DanglingNull(ptr) => NullClean(d, e, done, ptr);
    case MissingNull(ptr) => NullClean(d, e, done, ptr);
    case DanglingIndex(u) => IndexClean(d, e, done, u);
    case MissingIndex(u) => IndexClean(d, e, done, u);
    case OrphanParts(u) => PartsClean(d, e, done, u);
    case PartMissing(pid) => PartFileClean(d, e, done, pid);
    case OrphanFile(f) => FileClean(d, e, done, f);
    case RecordWithoutBucket(b) => hide HasRecords, Orderly, NullsShape, IndexShape, PartsShape, FilesShape, TempsShape;
    case BucketDeleting(b) => hide HasRecords, Orderly, NullsShape, IndexShape, PartsShape, FilesShape, TempsShape;
    case TempFile(t) => hide HasRecords, Orderly, NullsShape, IndexShape, PartsShape, FilesShape, BucketShape;
    case _ =>
  }

  lemma NullClean(d: Dir, e: Dir, done: set<Problem>, ptr: NullPtr)
    requires Orderly(d) && NullsShape(d, e, done) && (forall q :: q in done <==> Found(d, q)) && (Known(e, ptr.bucket) <==> Known(d, ptr.bucket))
    requires forall n: nat :: IsNull(e, ptr, n) <==> IsNull(d, ptr, n)
    requires HasNull(e, ptr) <==> HasNull(d, ptr)
    ensures !Found(e, DanglingNull(ptr)) && !Found(e, MissingNull(ptr))
  {
    assert NullShape(d, e, done, ptr);
    assert DanglingNull(ptr) in done <==> Found(d, DanglingNull(ptr));
    assert MissingNull(ptr) in done <==> Found(d, MissingNull(ptr));
    assert forall n: nat, m: nat :: IsNull(d, ptr, n) && IsNull(d, ptr, m) ==> n == m;
    hide Orderly, Known, IsNull;
  }

  lemma IndexClean(d: Dir, e: Dir, done: set<Problem>, u: UploadId)
    requires Orderly(d) && IndexShape(d, e, done) && (forall q :: q in done <==> Found(d, q)) && (Known(e, u.bucket) <==> Known(d, u.bucket))
    requires forall key :: IsUpload(e, u, key) <==> IsUpload(d, u, key)
    requires HasUpload(e, u) <==> HasUpload(d, u)
    ensures !Found(e, DanglingIndex(u)) && !Found(e, MissingIndex(u))
  {
    assert EntryShape(d, e, done, u);
    assert DanglingIndex(u) in done <==> Found(d, DanglingIndex(u));
    assert MissingIndex(u) in done <==> Found(d, MissingIndex(u));
    assert forall k, l :: IsUpload(d, u, k) && IsUpload(d, u, l) ==> k == l;
    hide Orderly, Known, IsUpload;
  }

  lemma PartsClean(d: Dir, e: Dir, done: set<Problem>, u: UploadId)
    requires PartsShape(d, e, done) && (forall q :: q in done <==> Found(d, q)) && (Known(e, u.bucket) <==> Known(d, u.bucket))
    requires HasUpload(e, u) <==> HasUpload(d, u)
    ensures !Found(e, OrphanParts(u))
  {
    assert OrphanParts(u) in done <==> Found(d, OrphanParts(u));
    hide Known, HasUpload;
  }

  lemma PartFileClean(d: Dir, e: Dir, done: set<Problem>, pid: PartId)
    requires Orderly(d) && PartsShape(d, e, done) && FilesShape(d, e, done) && (forall q :: q in done <==> Found(d, q))
    requires Known(e, pid.bucket) <==> Known(d, pid.bucket)
    requires HasUpload(e, UploadId(pid.bucket, pid.id)) <==> HasUpload(d, UploadId(pid.bucket, pid.id))
    ensures !Found(e, PartMissing(pid))
  {
    if Found(e, PartMissing(pid)) {
      var f := Blob(pid.bucket, d.parts[pid].blob);
      assert PartIs(d, pid, f) && PartNames(d, f);
      assert PartMissing(pid) in done <==> Found(d, PartMissing(pid));
      assert OrphanFile(f) in done <==> Found(d, OrphanFile(f));
      PartFileStays(d, done, pid, f);
      hide Known, HasUpload, ObjectNames, PartNames, FileDone, Orderly;
    }
  }

  lemma PartFileStays(d: Dir, done: set<Problem>, pid: PartId, f: Blob)
    requires Orderly(d) && pid in d.parts && PartIs(d, pid, f) && Known(d, f.bucket) && HasUpload(d, UploadId(pid.bucket, pid.id))
    requires forall q :: q in done <==> Found(d, q)
    ensures !FileDone(d, done, f)
  {
    assert PartNames(d, f);
    assert OrphanFile(f) in done <==> Found(d, OrphanFile(f));
    hide Known, ObjectNames, PartNames;
  }

  lemma FileClean(d: Dir, e: Dir, done: set<Problem>, f: Blob)
    requires PartsShape(d, e, done) && FilesShape(d, e, done) && (forall q :: q in done <==> Found(d, q))
    requires (Known(e, f.bucket) <==> Known(d, f.bucket)) && (ObjectNames(e, f) <==> ObjectNames(d, f))
    ensures !Found(e, OrphanFile(f))
  {
    assert OrphanFile(f) in done <==> Found(d, OrphanFile(f));
    NamedPartStays(d, e, done, f);
    hide Known, ObjectNames, PartNames, PartsShape;
  }

  /** A part whose file is there and is not dealt with is still there. */
  lemma NamedPartStays(d: Dir, e: Dir, done: set<Problem>, f: Blob)
    requires PartsShape(d, e, done) && forall q :: q in done <==> Found(d, q)
    ensures f in d.files && !FileDone(d, done, f) && PartNames(d, f) ==> PartNames(e, f)
  {
    hide Found;
    if f in d.files && !FileDone(d, done, f) && PartNames(d, f) {
      var pid :| pid in d.parts && PartIs(d, pid, f);
      FileNotMissing(d, pid, f);
      NotDone(d, done, pid, f);
      hide FileDone;
      assert pid in e.parts && PartIs(e, pid, f);
    }
  }

  lemma FileNotMissing(d: Dir, pid: PartId, f: Blob)
    requires pid in d.parts && PartIs(d, pid, f) && f in d.files
    ensures !Found(d, PartMissing(pid))
  {
    hide Known, HasUpload;
  }

  lemma NotDone(d: Dir, done: set<Problem>, pid: PartId, f: Blob)
    requires pid in d.parts && PartIs(d, pid, f) && !FileDone(d, done, f)
    ensures OrphanParts(UploadId(pid.bucket, pid.id)) !in done
  {
  }

  lemma UploadsUnique(d: Dir, e: Dir, done: set<Problem>)
    requires Orderly(d) && Shape(d, e, done)
    ensures forall u, k, l :: IsUpload(e, u, k) && IsUpload(e, u, l) ==> k == l
  {
    assert forall u, key :: IsUpload(e, u, key) <==> IsUpload(d, u, key);
  }

  /** On an orderly directory the repair of a fresh report goes through, and a second check finds
      no index, pointer, part or orphan-file problem: only damage that has no repair. */
  lemma RepairConverges(dirs: seq<Dir>, ps: seq<Problem>, p: Problem)
    requires IsRepair(dirs, ps) && Orderly(dirs[0]) && Fresh(dirs[0], ps)
    ensures Found(dirs[|ps|], p) ==> p.MissingFile? || p.SizeMismatch?
  {
    hide Repairs, Found, Shape, Orderly;
    assert ps[..|ps|] == ps;
    PartialShapes(dirs, ps, |ps|, |ps|);
    ShapeIsClean(dirs[0], dirs[|ps|], (set q | q in ps), p);
  }

  /** No repair of a fresh report fails. */
  lemma RepairGoesThrough(dirs: seq<Dir>, ps: seq<Problem>, i: nat)
    requires i < |ps| && |dirs| == i + 1 && Orderly(dirs[0]) && Fresh(dirs[0], ps) && IsRepair(dirs, ps[..i])
    ensures !Fails(dirs[i], ps[i])
  {
    hide Repairs, Found, Shape, Orderly, Fails;
    PartialShapes(dirs, ps, i, i);
    assert ps[i] in ps;
    assert forall q :: q in (set r | r in ps[..i]) ==> q in ps;
    ShapeStep(dirs[0], dirs[i], (set r | r in ps[..i]), ps[i]);
  }

  lemma {:induction false} PartialShapes(dirs: seq<Dir>, ps: seq<Problem>, n: nat, i: nat)
    requires i <= n <= |ps| && |dirs| == n + 1 && Orderly(dirs[0]) && Fresh(dirs[0], ps) && IsRepair(dirs, ps[..n])
    ensures Shape(dirs[0], dirs[i], set p | p in ps[..i])
    decreases i
  {
    hide Repairs, Found, Shape, Orderly;
    if i == 0 {
      ShapeStarts(dirs[0]);
      assert (set p | p in ps[..0]) == {};
    } else {
      PartialShapes(dirs, ps, n, i - 1);
      var before := ps[..i - 1];
      var done, p := (set q | q in before), ps[i - 1];
      assert ps[..n][i - 1] == p;
      assert forall q :: q in done ==> q in ps;
      assert p in ps;
      ShapeStep(dirs[0], dirs[i - 1], done, p);
      UploadsUnique(dirs[0], dirs[i - 1], done);
      RepairIsOne(dirs[i - 1], p, dirs[i]);
      assert (set q | q in ps[..i]) == done + {p} by { assert ps[..i] == ps[..i - 1] + [p]; }
    }
  }
}
