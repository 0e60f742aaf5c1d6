/** The check agrees with the store: whatever the server did and wherever it stopped, the check
    finds nothing but files no record names and buckets whose removal is under way. */
module FsckStore {
  import opened Records
  import opened Protocol
  import opened Fsck
  import FsckRepair
  import Safety
  import SafetyPut
  import SafetyRuns

  /** The data directory of a server stopped in a state. The model keeps the upload index inside
      the upload record, and writes no temporary files. */
  function DirOf(s: State): Dir {
    Dir(map b | b in s.kv.buckets :: s.kv.buckets[b].deleting, s.kv.objects, s.kv.nulls,
        set u | u in s.kv.uploads :: UploadRecord(u.bucket, s.kv.uploads[u].key, u.id),
        map u | u in s.kv.uploads :: s.kv.uploads[u].key, s.kv.parts, map b | b in s.blobs :: |s.blobs[b]|, {})
  }

  lemma UploadsOf(s: State)
    ensures forall u, key :: IsUpload(DirOf(s), u, key) <==> u in s.kv.uploads && s.kv.uploads[u].key == key
    ensures forall u :: HasUpload(DirOf(s), u) <==> u in s.kv.uploads
  {
    forall u, key
      ensures IsUpload(DirOf(s), u, key) <==> u in s.kv.uploads && s.kv.uploads[u].key == key
    {
      if u in s.kv.uploads && s.kv.uploads[u].key == key {
        assert UploadRecord(u.bucket, s.kv.uploads[u].key, u.id) in DirOf(s).uploads;
      }
    }
    forall u | u in s.kv.uploads
      ensures HasUpload(DirOf(s), u)
    {
      assert IsUpload(DirOf(s), u, s.kv.uploads[u].key);
    }
  }

  /** The records of a reachable state are sound. */
  lemma NothingWrong(s: State, p: Problem)
    requires Safety.Inv(s) && Found(DirOf(s), p)
    ensures p.OrphanFile? || p.BucketDeleting?
  {
    SafetyPut.KvOfInv(s);
    SafetyPut.PartsOfInv(s.kv, s.blobs, s.next);
    UploadsOf(s);
    hide Safety.Inv, Safety.KvInv, Safety.Unique, Safety.Content, Safety.Numbered, Known;
    match p
    case MissingFile(id, n) => PartHeld(s, Safety.ObjRef(id, n));
    case SizeMismatch(id, n) => PartHeld(s, Safety.ObjRef(id, n));
    case PartMissing(pid) => PartHeld(s, Safety.PartRef(pid));
    case DanglingNull(_) => NullsRight(s);
    case MissingNull(_) => NullsRight(s);
    case RecordWithoutBucket(b) => hide VersionsValid, Safety.Data;
    case OrphanParts(u) => hide VersionsValid, Safety.Data;
    case _ => hide VersionsValid, Safety.Data, Safety.Homes;
  }

  lemma NullsRight(s: State)
    requires VersionsValid(s.kv)
    ensures forall ptr :: ptr in s.kv.nulls ==> HasNull(DirOf(s), ptr)
    ensures forall ptr, n: nat :: IsNull(DirOf(s), ptr, n) ==> PointsAt(DirOf(s), ptr, n)
  {
    forall ptr | ptr in s.kv.nulls
      ensures HasNull(DirOf(s), ptr)
    {
      assert PointsToNull(s.kv, ptr);
      assert IsNull(DirOf(s), ptr, s.kv.nulls[ptr]);
    }
    forall ptr, n: nat | IsNull(DirOf(s), ptr, n)
      ensures PointsAt(DirOf(s), ptr, n)
    {
      assert IsPointed(s.kv, ObjectId(ptr.bucket, ptr.key, n));
    }
  }

  lemma PartHeld(s: State, r: Safety.Ref)
    requires Safety.Data(s.kv, s.blobs) && Safety.PartAt(s.kv, r).Some?
    ensures Safety.Holds(s.blobs, Safety.BlobAt(s.kv, r).value, Safety.PartAt(s.kv, r).value)
  {
  }

  /** In every reachable state, after any crash, the check finds no damage: no missing or wrong
      file, no wrong pointer or index, no orphan part record. */
  lemma CheckAgreesWithStore(states: seq<State>, steps: seq<Step>, i: nat, p: Problem)
    requires IsRun(states, steps) && i < |states| && Found(DirOf(states[i]), p)
    ensures p.OrphanFile? || p.BucketDeleting?
  {
    hide IsRun, Found;
    SafetyRuns.RunInv(states, steps, i);
    NothingWrong(states[i], p);
  }

  /** What the check calls an orphan file, no object version and no part names; and every file that
      nothing names is called so. */
  lemma OrphansAreUnnamed(s: State, f: Blob)
    requires Safety.Inv(s) && f in s.blobs
    ensures !Safety.Named(s.kv, f) ==> Found(DirOf(s), OrphanFile(f))
    ensures Found(DirOf(s), OrphanFile(f)) ==> !ObjectNames(DirOf(s), f) && !PartNames(DirOf(s), f)
  {
    SafetyPut.KvOfInv(s);
    SafetyPut.PartsOfInv(s.kv, s.blobs, s.next);
    hide Safety.Inv, Safety.KvInv, Safety.Unique, Safety.Content, Safety.Numbered, Safety.Data, VersionsValid;
    if ObjectNames(DirOf(s), f) {
      ObjectRef(s, f);
      assert f.bucket in DirOf(s).buckets;
    }
    if PartNames(DirOf(s), f) {
      var pid :| pid in s.kv.parts && PartIs(DirOf(s), pid, f);
      assert Safety.BlobAt(s.kv, Safety.PartRef(pid)) == Some(f);
      assert UploadId(pid.bucket, pid.id) in s.kv.uploads && f.bucket in DirOf(s).buckets;
    }
  }

  /** A reachable data directory meets what the repair relies on: one record per file, one null
      version per key, one key per upload ID. */
  lemma ReachableIsOrderly(states: seq<State>, steps: seq<Step>, i: nat)
    requires IsRun(states, steps) && i < |states|
    ensures FsckRepair.Unshared(DirOf(states[i]))
    ensures (forall b :: b in states[i].kv.buckets ==> !states[i].kv.buckets[b].deleting) ==> FsckRepair.Orderly(DirOf(states[i]))
  {
    var s := states[i];
    hide IsRun;
    SafetyRuns.RunInv(states, steps, i);
    SafetyPut.KvOfInv(s);
    SafetyPut.PartsOfInv(s.kv, s.blobs, s.next);
    hide Safety.Inv, Safety.KvInv, Safety.Content, Safety.Numbered, Safety.Data, Safety.Homes;
    NullsRight(s);
    UploadsOf(s);
    hide VersionsValid, IsNull, IsUpload, HasUpload;
    UnsharedOf(s);
    hide FsckRepair.Unshared, Safety.Unique;
  }

  lemma UnsharedOf(s: State)
    requires Safety.Unique(s.kv)
    ensures FsckRepair.Unshared(DirOf(s))
  {
    var d := DirOf(s);
    forall pid, f | pid in d.parts && PartIs(d, pid, f)
      ensures !ObjectNames(d, f)
    {
      assert Safety.BlobAt(s.kv, Safety.PartRef(pid)) == Some(f);
      if ObjectNames(d, f) { ObjectRef(s, f); }
    }
    forall p, q | p in d.parts && q in d.parts && p.bucket == q.bucket && d.parts[p].blob == d.parts[q].blob
      ensures p == q
    {
      assert Safety.BlobAt(s.kv, Safety.PartRef(p)).Some? && Safety.BlobAt(s.kv, Safety.PartRef(q)).Some?;
    }
  }

  lemma ObjectRef(s: State, f: Blob)
    requires ObjectNames(DirOf(s), f)
    ensures exists id, n :: Safety.BlobAt(s.kv, Safety.ObjRef(id, n)) == Some(f)
  {
    var id :| id in s.kv.objects && id.bucket == f.bucket && VersionNames(s.kv.objects[id], f.id);
    var q :| q in s.kv.objects[id].parts && q.blob == f.id;
    var n :| 0 <= n < |s.kv.objects[id].parts| && s.kv.objects[id].parts[n] == q;
    assert Safety.BlobAt(s.kv, Safety.ObjRef(id, n)) == Some(f);
  }
}
