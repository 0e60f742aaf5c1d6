/** How each kind of write keeps the invariant of the store. */
module SafetyKv {
  import opened Records
  import opened Service
  import opened Protocol
  import opened Safety

  // ----- writes that only take away or rewrite attributes

  predicate SameBody(o: Object, p: Object) {
    o.parts == p.parts && o.size == p.size && o.checksum == p.checksum
  }

  /** `kv'` holds no record that `kv` does not, and names the same blobs where it holds one. */
  ghost predicate Within(kv': Kv, kv: Kv) {
    && (forall id :: id in kv'.objects ==> id in kv.objects && SameBody(kv'.objects[id], kv.objects[id]))
    && (forall u :: u in kv'.uploads ==> u in kv.uploads && kv'.uploads[u] == kv.uploads[u])
    && (forall p :: p in kv'.parts ==> p in kv.parts && kv'.parts[p] == kv.parts[p])
  }

  lemma WithinNames(kv': Kv, kv: Kv)
    requires Within(kv', kv)
    ensures forall r :: PartAt(kv', r).Some? ==> PartAt(kv', r) == PartAt(kv, r)
    ensures forall r :: BlobAt(kv', r).Some? ==> BlobAt(kv', r) == BlobAt(kv, r)
    ensures forall b :: Named(kv', b) ==> Named(kv, b)
  {
    forall b | Named(kv', b)
      ensures Named(kv, b)
    {
      var r :| BlobAt(kv', r) == Some(b);
      assert BlobAt(kv, r) == Some(b);
    }
  }

  lemma WithinKeeps(kv': Kv, kv: Kv, blobs: map<Blob, seq<Byte>>, next: nat)
    requires KvInv(kv, blobs, next) && Within(kv', kv) && VersionsValid(kv') && Homes(kv')
    requires forall n :: n in kv'.buckets ==> kv'.buckets[n].created < next
    ensures KvInv(kv', blobs, next)
  {
    WithinNames(kv', kv);
    WithinUnique(kv', kv);
    assert Data(kv', blobs) by {
      forall r | BlobAt(kv', r).Some?
        ensures Holds(blobs, BlobAt(kv', r).value, PartAt(kv', r).value)
      {
        assert BlobAt(kv, r) == BlobAt(kv', r);
      }
    }
    WithinContent(kv', kv, blobs);
  }

  lemma WithinUnique(kv': Kv, kv: Kv)
    requires Unique(kv) && forall r :: BlobAt(kv', r).Some? ==> BlobAt(kv', r) == BlobAt(kv, r)
    ensures Unique(kv')
  {
    hide BlobAt;
  }

  lemma WithinContent(kv': Kv, kv: Kv, blobs: map<Blob, seq<Byte>>)
    requires Content(kv, blobs) && Within(kv', kv) && Homes(kv')
    ensures Content(kv', blobs)
  {
    hide BodyOk, SumOk, UploadOk;
    forall id | id in kv'.objects
      ensures BodyOk(blobs, id.bucket, kv'.objects[id])
    {
      BodySame(blobs, id.bucket, kv.objects[id], kv'.objects[id]);
    }
  }

  lemma BodySame(blobs: map<Blob, seq<Byte>>, name: Name, o: Object, o': Object)
    requires BodyOk(blobs, name, o) && SameBody(o', o)
    ensures BodyOk(blobs, name, o')
  {
  }

  // ----- growing counters and blob stores

  lemma NumbersGrow(kv: Kv, blobs: map<Blob, seq<Byte>>, next: nat, next': nat)
    requires KvInv(kv, blobs, next) && next <= next'
    ensures KvInv(kv, blobs, next')
  {
    hide VersionsValid, Unique, Homes, Data, Content;
  }

  // ----- a new version

  /** What the write of version `o` does to the places that name blobs. */
  lemma PutPartAt(kv: Kv, name: Name, key: Key, o: Object, r: Ref)
    requires VersionsValid(kv) && NewVersion(kv, name, key, o)
    ensures PartAt(PutObject(kv, name, key, o), r) ==
      if r.ObjRef? && r.id == ObjectId(name, key, o.seqNo) then (if r.n < |o.parts| then Some(o.parts[r.n]) else None)
      else if r.ObjRef? && IsReplaced(kv, name, key, o, r.id) then None
      else PartAt(kv, r)
  {
    PutObjectEffect(kv, name, key, o);
  }

  /** The blobs of a version exist, are new to the store and differ from one another. */
  ghost predicate NewParts(kv: Kv, blobs: map<Blob, seq<Byte>>, name: Name, parts: seq<Part>) {
    && (forall i :: 0 <= i < |parts| ==>
          Holds(blobs, Blob(name, parts[i].blob), parts[i]) && !Named(kv, Blob(name, parts[i].blob)))
    && (forall i, j :: 0 <= i < j < |parts| ==> parts[i].blob != parts[j].blob)
  }

  lemma PutNames(kv: Kv, blobs: map<Blob, seq<Byte>>, name: Name, key: Key, o: Object, r: Ref)
    requires VersionsValid(kv) && NewVersion(kv, name, key, o) && NewParts(kv, blobs, name, o.parts)
    requires BlobAt(PutObject(kv, name, key, o), r).Some?
    ensures var kv' := PutObject(kv, name, key, o);
      Holds(blobs, BlobAt(kv', r).value, PartAt(kv', r).value) || BlobAt(kv', r) == BlobAt(kv, r)
    ensures var kv', b := PutObject(kv, name, key, o), BlobAt(PutObject(kv, name, key, o), r).value;
      if r.ObjRef? && r.id == ObjectId(name, key, o.seqNo)
      then r.n < |o.parts| && b == Blob(name, o.parts[r.n].blob) && !Named(kv, b)
      else BlobAt(kv, r) == Some(b) && PartAt(kv, r) == PartAt(kv', r)
  {
    PutPartAt(kv, name, key, o, r);
  }

  lemma PutUnique(kv: Kv, blobs: map<Blob, seq<Byte>>, name: Name, key: Key, o: Object)
    requires VersionsValid(kv) && Unique(kv) && NewVersion(kv, name, key, o) && NewParts(kv, blobs, name, o.parts)
    ensures Unique(PutObject(kv, name, key, o))
  {
    var kv' := PutObject(kv, name, key, o);
    hide PutObject, VersionsValid;
    forall r1, r2 | BlobAt(kv', r1).Some? && BlobAt(kv', r1) == BlobAt(kv', r2)
      ensures r1 == r2
    {
      PutNames(kv, blobs, name, key, o, r1);
      PutNames(kv, blobs, name, key, o, r2);
      OneOfTwo(kv, blobs, name, key, o, r1, r2);
    }
  }

  lemma OneOfTwo(kv: Kv, blobs: map<Blob, seq<Byte>>, name: Name, key: Key, o: Object, r1: Ref, r2: Ref)
    requires Unique(kv) && NewParts(kv, blobs, name, o.parts)
    requires var added := ObjectId(name, key, o.seqNo);
      forall r :: r == r1 || r == r2 ==>
        if r.ObjRef? && r.id == added then r.n < |o.parts| else BlobAt(kv, r).Some?
    requires var added := ObjectId(name, key, o.seqNo);
      var b1 := if r1.ObjRef? && r1.id == added then Blob(name, o.parts[r1.n].blob) else BlobAt(kv, r1).value;
      var b2 := if r2.ObjRef? && r2.id == added then Blob(name, o.parts[r2.n].blob) else BlobAt(kv, r2).value;
      b1 == b2
    ensures r1 == r2
  {
    hide BlobAt;
  }

  lemma PutContent(kv: Kv, blobs: map<Blob, seq<Byte>>, name: Name, key: Key, o: Object)
    requires VersionsValid(kv) && Content(kv, blobs) && NewVersion(kv, name, key, o) && BodyOk(blobs, name, o)
    ensures Content(PutObject(kv, name, key, o), blobs)
  {
    hide BodyOk, SumOk, UploadOk, VersionsValid;
    PutObjectEffect(kv, name, key, o);
  }

  /** Writing a version whose blobs exist and are new keeps the invariant. */
  lemma PutKeeps(kv: Kv, blobs: map<Blob, seq<Byte>>, next: nat, name: Name, key: Key, o: Object)
    requires KvInv(kv, blobs, next) && NewVersion(kv, name, key, o) && o.seqNo < next && LiveName(kv, name)
    requires NewParts(kv, blobs, name, o.parts) && BodyOk(blobs, name, o)
    ensures KvInv(PutObject(kv, name, key, o), blobs, next)
  {
    var kv' := PutObject(kv, name, key, o);
    PutObjectKeeps(kv, name, key, o);
    PutUnique(kv, blobs, name, key, o);
    PutContent(kv, blobs, name, key, o);
    PutHomes(kv, blobs, next, name, key, o);
    hide Unique, Content, BodyOk, Homes, Numbered, PutObject;
    forall r | BlobAt(kv', r).Some?
      ensures Holds(blobs, BlobAt(kv', r).value, PartAt(kv', r).value)
    {
      PutNames(kv, blobs, name, key, o, r);
    }
  }

  lemma PutHomes(kv: Kv, blobs: map<Blob, seq<Byte>>, next: nat, name: Name, key: Key, o: Object)
    requires VersionsValid(kv) && Homes(kv) && Numbered(kv, blobs, next)
    requires NewVersion(kv, name, key, o) && o.seqNo < next && LiveName(kv, name)
    ensures Homes(PutObject(kv, name, key, o)) && Numbered(PutObject(kv, name, key, o), blobs, next)
  {
    PutObjectEffect(kv, name, key, o);
  }

  /** After the write a named blob was named before or is one of the version's. */
  lemma PutNamed(kv: Kv, blobs: map<Blob, seq<Byte>>, name: Name, key: Key, o: Object, b: Blob)
    requires VersionsValid(kv) && NewVersion(kv, name, key, o) && NewParts(kv, blobs, name, o.parts)
    requires Named(PutObject(kv, name, key, o), b)
    ensures Named(kv, b) || b in BlobsOf(name, o.parts)
  {
    var r :| BlobAt(PutObject(kv, name, key, o), r) == Some(b);
    PutNames(kv, blobs, name, key, o, r);
    if r.ObjRef? && r.id == ObjectId(name, key, o.seqNo) {
      assert o.parts[r.n] in o.parts;
    }
  }

  /** The blobs of the replaced null version are named no more. */
  lemma PutReleases(kv: Kv, blobs: map<Blob, seq<Byte>>, name: Name, key: Key, o: Object, b: Blob)
    requires VersionsValid(kv) && Unique(kv) && NewVersion(kv, name, key, o) && NewParts(kv, blobs, name, o.parts)
    requires b in ObjectBlobs(name, Replaced(kv, name, key, o))
    ensures !Named(PutObject(kv, name, key, o), b) && Named(kv, b)
  {
    PutObjectEffect(kv, name, key, o);
    var id :| IsReplaced(kv, name, key, o, id) && kv.objects[id] == Replaced(kv, name, key, o).value;
    var q :| q in kv.objects[id].parts && b == Blob(name, q.blob);
    var n :| 0 <= n < |kv.objects[id].parts| && kv.objects[id].parts[n] == q;
    var r := ObjRef(id, n);
    assert BlobAt(kv, r) == Some(b);
    if Named(PutObject(kv, name, key, o), b) {
      var r' :| BlobAt(PutObject(kv, name, key, o), r') == Some(b);
      PutNames(kv, blobs, name, key, o, r');
      PutPartAt(kv, name, key, o, r);
    }
  }

  // ----- removing one version

  /** A place that is gone leaves its blob unnamed. */
  lemma Released(kv': Kv, kv: Kv, r: Ref, b: Blob)
    requires Unique(kv) && BlobAt(kv, r) == Some(b) && BlobAt(kv', r).None?
    requires forall q :: BlobAt(kv', q).Some? ==> BlobAt(kv', q) == BlobAt(kv, q)
    ensures !Named(kv', b) && Named(kv, b)
  {
    hide BlobAt;
  }

  lemma DeleteReleases(kv: Kv, name: Name, key: Key, o: Object, b: Blob)
    requires Unique(kv) && ObjectId(name, key, o.seqNo) in kv.objects && kv.objects[ObjectId(name, key, o.seqNo)] == o
    requires b in BlobsOf(name, o.parts)
    ensures !Named(DeleteVersion(kv, name, key, o), b) && Named(kv, b)
  {
    var kv', id := DeleteVersion(kv, name, key, o), ObjectId(name, key, o.seqNo);
    WithinNames(kv', kv);
    var n :| 0 <= n < |o.parts| && b == Blob(name, o.parts[n].blob);
    Released(kv', kv, ObjRef(id, n), b);
  }

  lemma DeleteKeeps(kv: Kv, blobs: map<Blob, seq<Byte>>, next: nat, name: Name, key: Key, o: Object)
    requires KvInv(kv, blobs, next)
    requires ObjectId(name, key, o.seqNo) in kv.objects && kv.objects[ObjectId(name, key, o.seqNo)] == o
    ensures KvInv(DeleteVersion(kv, name, key, o), blobs, next) && Within(DeleteVersion(kv, name, key, o), kv)
  {
    var kv' := DeleteVersion(kv, name, key, o);
    DeleteVersionKeeps(kv, name, key, o);
    hide VersionsValid, Unique, Content, Data;
    WithinKeeps(kv', kv, blobs, next);
  }

  // ----- a part

  ghost function WithPart(kv: Kv, pid: PartId, p: Part): Kv {
    kv.(parts := kv.parts[pid := p])
  }

  lemma PartNames(kv: Kv, pid: PartId, p: Part, r: Ref)
    ensures PartAt(WithPart(kv, pid, p), r) == if r == PartRef(pid) then Some(p) else PartAt(kv, r)
    ensures BlobAt(WithPart(kv, pid, p), r) == if r == PartRef(pid) then Some(Blob(pid.bucket, p.blob)) else BlobAt(kv, r)
  {
  }

  /** Recording a part whose blob exists and is new keeps the invariant. */
  lemma PartKeeps(kv: Kv, blobs: map<Blob, seq<Byte>>, next: nat, pid: PartId, p: Part)
    requires KvInv(kv, blobs, next) && UploadId(pid.bucket, pid.id) in kv.uploads && p.number == pid.number
    requires var b := Blob(pid.bucket, p.blob);
      Holds(blobs, b, p) && !Named(kv, b) && SumOk(blobs, b, kv.uploads[UploadId(pid.bucket, pid.id)], p)
    ensures KvInv(WithPart(kv, pid, p), blobs, next)
    ensures forall b :: Named(WithPart(kv, pid, p), b) ==> Named(kv, b) || b == Blob(pid.bucket, p.blob)
    ensures pid in kv.parts ==> !Named(WithPart(kv, pid, p), Blob(pid.bucket, kv.parts[pid].blob)) && Named(kv, Blob(pid.bucket, kv.parts[pid].blob))
  {
    var kv' := WithPart(kv, pid, p);
    forall r
      ensures PartAt(kv', r) == if r == PartRef(pid) then Some(p) else PartAt(kv, r)
      ensures BlobAt(kv', r) == if r == PartRef(pid) then Some(Blob(pid.bucket, p.blob)) else BlobAt(kv, r)
    {
      PartNames(kv, pid, p, r);
    }
    PartVersions(kv, pid, p);
    PartContent(kv, blobs, pid, p);
    PartUnique(kv, kv', pid, Blob(pid.bucket, p.blob));
    if pid in kv.parts { PartReleases(kv, kv', pid, Blob(pid.bucket, p.blob), Blob(pid.bucket, kv.parts[pid].blob)); }
    hide Content, VersionsValid, Unique;
    forall b | Named(kv', b)
      ensures Named(kv, b) || b == Blob(pid.bucket, p.blob)
    {
      var r :| BlobAt(kv', r) == Some(b);
      assert r == PartRef(pid) || BlobAt(kv, r) == Some(b);
    }
  }

  lemma PartVersions(kv: Kv, pid: PartId, p: Part)
    requires VersionsValid(kv)
    ensures VersionsValid(WithPart(kv, pid, p))
  {
    var kv' := WithPart(kv, pid, p);
    forall q | q in kv'.nulls
      ensures PointsToNull(kv', q)
    {
      assert PointsToNull(kv, q);
    }
    forall id | id in kv'.objects && kv'.objects[id].vid == NullId
      ensures IsPointed(kv', id)
    {
      assert IsPointed(kv, id);
    }
  }

  lemma PartContent(kv: Kv, blobs: map<Blob, seq<Byte>>, pid: PartId, p: Part)
    requires Content(kv, blobs) && UploadId(pid.bucket, pid.id) in kv.uploads && p.number == pid.number
    requires SumOk(blobs, Blob(pid.bucket, p.blob), kv.uploads[UploadId(pid.bucket, pid.id)], p)
    ensures Content(WithPart(kv, pid, p), blobs)
  {
    hide BodyOk, SumOk, UploadOk;
  }

  lemma PartUnique(kv: Kv, kv': Kv, pid: PartId, b: Blob)
    requires Unique(kv) && !Named(kv, b)
    requires forall r :: BlobAt(kv', r) == if r == PartRef(pid) then Some(b) else BlobAt(kv, r)
    ensures Unique(kv')
  {
    hide BlobAt;
  }

  lemma PartReleases(kv: Kv, kv': Kv, pid: PartId, b: Blob, old_: Blob)
    requires Unique(kv) && !Named(kv, b) && BlobAt(kv, PartRef(pid)) == Some(old_)
    requires forall r :: BlobAt(kv', r) == if r == PartRef(pid) then Some(b) else BlobAt(kv, r)
    ensures !Named(kv', old_) && Named(kv, old_)
  {
    hide BlobAt;
  }

  // ----- removing an upload

  lemma UploadReleases(kv: Kv, name: Name, id: nat, p: PartId)
    requires Unique(kv) && p in PartsOf(kv, name, id)
    ensures !Named(DeleteUpload(kv, name, id), Blob(name, kv.parts[p].blob)) && Named(kv, Blob(name, kv.parts[p].blob))
  {
    WithinNames(DeleteUpload(kv, name, id), kv);
    Released(DeleteUpload(kv, name, id), kv, PartRef(p), Blob(name, kv.parts[p].blob));
  }

  lemma UploadGone(kv: Kv, blobs: map<Blob, seq<Byte>>, next: nat, name: Name, id: nat)
    requires KvInv(kv, blobs, next)
    ensures KvInv(DeleteUpload(kv, name, id), blobs, next) && Within(DeleteUpload(kv, name, id), kv)
  {
    UploadVersions(kv, name, id);
    UploadHomes(kv, name, id);
    hide VersionsValid, Unique, Content, Data, Homes;
    WithinKeeps(DeleteUpload(kv, name, id), kv, blobs, next);
  }

  lemma UploadVersions(kv: Kv, name: Name, id: nat)
    requires VersionsValid(kv)
    ensures VersionsValid(DeleteUpload(kv, name, id))
  {
    var kv' := DeleteUpload(kv, name, id);
    forall q | q in kv'.nulls
      ensures PointsToNull(kv', q)
    {
      assert PointsToNull(kv, q);
    }
    forall i | i in kv'.objects && kv'.objects[i].vid == NullId
      ensures IsPointed(kv', i)
    {
      assert IsPointed(kv, i);
    }
  }

  lemma UploadHomes(kv: Kv, name: Name, id: nat)
    requires Homes(kv)
    ensures Homes(DeleteUpload(kv, name, id))
  {
  }
}
