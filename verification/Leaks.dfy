/** No blob leaks: while no request is cut short, every blob on disk is named by a record or owed by
    a request, which will record it or delete it (internal/object over internal/blob). */
module Leaks {
  import opened Records
  import opened Service
  import opened Protocol
  import opened Safety
  import opened SafetyRuns
  import opened Promises
  import opened PromisesBuckets
  import opened PromisesDelete
  import opened PromisesMultipart
  import opened Governance

  /** The request has still to record the blob or to delete it. */
  predicate Owes(x: Proc, b: Blob) {
    match x
    case PutStored(_, name, _, _, o, _) => b in BlobsOf(name, o.parts)
    case PartStored(name, _, _, _, part) => b == Blob(name, part.blob)
    case Cleaning(blobs) => b in blobs
    case Finishing(name) => b.bucket == name
    case _ => false
  }

  ghost predicate Owed(s: State, b: Blob) {
    exists p :: p in s.procs && Owes(s.procs[p], b)
  }

  ghost predicate Tidy(s: State) {
    forall b :: b in s.blobs ==> Named(s.kv, b) || Owed(s, b)
  }

  /** The server does not crash, and no request leaves while it owes a blob; one whose deletion of a
      blob fails leaves so. */
  predicate Calm(s: State, st: Step) {
    !st.Crash? && (st.Drop? ==> st.p in s.procs && forall b :: b in s.blobs ==> !Owes(s.procs[st.p], b))
  }

  // ----- one request moves

  /** What is on disk, and was owed by the request or named, is owed by the request or named. */
  ghost predicate Settles(s: State, s': State, p: nat) {
    && (forall q :: q in s.procs && q != p ==> q in s'.procs && s'.procs[q] == s.procs[q])
    && forall b :: b in s'.blobs && Due(s, p, b) ==> Due(s', p, b)
  }

  /** The blob is new, or named, or owed by the request. */
  ghost predicate Due(s: State, p: nat, b: Blob) {
    b !in s.blobs || Named(s.kv, b) || (p in s.procs && Owes(s.procs[p], b))
  }

  lemma SettlesTidy(s: State, s': State, p: nat)
    requires Tidy(s) && Settles(s, s', p)
    ensures Tidy(s')
  {
    hide Named, Owes;
    forall b | b in s'.blobs && !Named(s'.kv, b)
      ensures Owed(s', b)
    {
      if Due(s, p, b) {
        assert Due(s', p, b);
      } else {
        var q :| q in s.procs && Owes(s.procs[q], b);
        assert q in s'.procs && s'.procs[q] == s.procs[q];
      }
    }
  }

  // ----- what stays named

  lemma NamedSame(kv: Kv, kv': Kv, b: Blob)
    requires kv'.objects == kv.objects && kv'.parts == kv.parts
    ensures Named(kv', b) <==> Named(kv, b)
  {
    forall r
      ensures BlobAt(kv', r) == BlobAt(kv, r)
    {
    }
    hide BlobAt;
  }

  /** A part of a version, or of an upload, names its blob. */
  lemma Names(kv: Kv, id: ObjectId, q: Part)
    requires id in kv.objects && q in kv.objects[id].parts
    ensures Named(kv, Blob(id.bucket, q.blob))
  {
    var n :| 0 <= n < |kv.objects[id].parts| && kv.objects[id].parts[n] == q;
    assert BlobAt(kv, ObjRef(id, n)) == Some(Blob(id.bucket, q.blob));
  }

  lemma PartNames(kv: Kv, pid: PartId)
    requires pid in kv.parts
    ensures Named(kv, Blob(pid.bucket, kv.parts[pid].blob))
  {
    assert BlobAt(kv, PartRef(pid)) == Some(Blob(pid.bucket, kv.parts[pid].blob));
  }

  /** A named blob belongs to a part of a version or of an upload. */
  lemma NamedBy(kv: Kv, b: Blob) returns (id: ObjectId, q: Part, pid: PartId)
    requires Named(kv, b)
    ensures (id in kv.objects && q in kv.objects[id].parts && b == Blob(id.bucket, q.blob)) ||
      (pid in kv.parts && b == Blob(pid.bucket, kv.parts[pid].blob))
  {
    var r :| BlobAt(kv, r) == Some(b);
    match r
    case ObjRef(i, n) => id, q := i, kv.objects[i].parts[n]; pid := PartId("", 0, 0);
    case PartRef(i) => pid := i; id, q := ObjectId("", "", 0), Part(0, 0, 0, "", None);
  }

  /** Versions that stay, with their parts, keep their blobs named; of those that go the blobs are in `freed`. */
  lemma StaysNamed(kv: Kv, kv': Kv, freed: set<Blob>, b: Blob)
    requires forall id :: id in kv.objects ==>
      if id in kv'.objects then kv'.objects[id].parts == kv.objects[id].parts
      else forall q :: q in kv.objects[id].parts ==> Named(kv', Blob(id.bucket, q.blob)) || Blob(id.bucket, q.blob) in freed
    requires forall pid :: pid in kv.parts ==> Kept(kv, kv', freed, pid)
    ensures Named(kv, b) ==> Named(kv', b) || b in freed
  {
    if Named(kv, b) {
      var id, q, pid := NamedBy(kv, b);
      if id in kv.objects && q in kv.objects[id].parts && b == Blob(id.bucket, q.blob) {
        if id in kv'.objects { Names(kv', id, q); }
      } else {
        assert Kept(kv, kv', freed, pid);
        if pid in kv'.parts { PartNames(kv', pid); }
      }
    }
  }

  ghost predicate Kept(kv: Kv, kv': Kv, freed: set<Blob>, pid: PartId)
    requires pid in kv.parts
  {
    var b := Blob(pid.bucket, kv.parts[pid].blob);
    (pid in kv'.parts && kv'.parts[pid].blob == kv.parts[pid].blob) || Named(kv', b) || b in freed
  }

  /** Of a write the replaced version is freed, and what it writes is named. */
  lemma WriteNames(kv: Kv, kv': Kv, name: Name, key: Key, o: Object, random: nat, replaced: Option<Object>)
    requires name in kv.buckets && IsFresh(kv, name, key, o.seqNo) && Wrote(kv, kv', name, key, o, random) && HandedBack(kv, name, key, replaced)
    ensures Stands(kv, kv', ObjectBlobs(name, replaced))
    ensures forall q :: q in o.parts ==> Named(kv', Blob(name, q.blob))
  {
    hide VersionsValid, GetVersion, GetLatest, WrittenId, Named;
    forall q | q in o.parts
      ensures Named(kv', Blob(name, q.blob))
    {
      Names(kv', ObjectId(name, key, o.seqNo), q);
    }
    forall id, q | id in kv.objects && id !in kv'.objects && q in kv.objects[id].parts
      ensures Blob(id.bucket, q.blob) in ObjectBlobs(name, replaced)
    {
      assert GivesWay(kv, name, key, id);
    }
    hide ObjectBlobs;
  }

  /** Every version stays with its parts, or the blobs of its parts are freed. */
  ghost predicate Stands(kv: Kv, kv': Kv, freed: set<Blob>) {
    forall id :: id in kv.objects ==>
      if id in kv'.objects then kv'.objects[id].parts == kv.objects[id].parts
      else forall q :: q in kv.objects[id].parts ==> Blob(id.bucket, q.blob) in freed
  }

  // ----- the steps

  /** The steps that leave the records and the blobs alone. */
  predicate Begins(st: Step) {
    st.BeginPut? || st.BeginUpload? || st.BeginPart? || st.BeginComplete? || st.BeginRetention? || st.BeginHold? || st.Recover?
  }

  lemma BeginIs(s: State, st: Step)
    requires Possible(s, st) && Begins(st)
    ensures st.p !in s.procs && st.p in Do(s, st).procs
    ensures Do(s, st) == s.(procs := s.procs[st.p := Do(s, st).procs[st.p]])
  {
    hide ValidateAttrs, GetUpload, GetLiveBucket, Readable, PutVersion, DigestOf, DoEndPut, DoEndUpload, DoEndPart, DoEndComplete, DoAbort, DoDelete,
      DoCommit, DoDeleteBucket;
  }

  lemma BeginSettles(s: State, st: Step)
    requires Possible(s, st) && Begins(st)
    ensures Settles(s, Do(s, st), st.p)
  {
    BeginIs(s, st);
    hide Possible, Do, Named, Owes, Settles;
    Turns(s, Do(s, st), st.p, Do(s, st).procs[st.p]);
  }

  /** What a request stores it owes. */
  lemma StoreSettles(s: State, st: Step)
    requires Possible(s, st) && (st.StorePut? || st.StorePart?)
    ensures Settles(s, Do(s, st), st.p)
  {
    hide Named, DigestOf;
    assert Do(s, st).kv == s.kv;
  }

  lemma RemoveSettles(s: State, st: Step)
    requires Possible(s, st) && Calm(s, st) && (st.RemoveDir? || st.Clean? || st.Drop?)
    ensures Settles(s, Do(s, st), st.p)
  {
    hide Named, BlobsOf;
    assert Do(s, st).kv == s.kv;
  }

  lemma PutIs(s: State, p: nat, random: nat)
    requires p in s.procs && s.procs[p].PutStored?
    ensures var x := s.procs[p];
      var r := CommitPut(s.kv, x.e, x.name, x.key, x.seen, x.o, random, x.c, s.now);
      Do(s, EndPut(p, random)) ==
        if r.Failed? then s.(procs := s.procs[p := Cleaning(BlobsOf(x.name, x.o.parts))])
        else s.(kv := r.kv, procs := s.procs[p := Cleaning(ObjectBlobs(x.name, r.value))])
  {
    hide CommitPut, BlobsOf, ObjectBlobs;
  }

  /** The request becomes `y`. */
  lemma Turns(s: State, s': State, p: nat, y: Proc)
    requires s'.blobs == s.blobs && s'.procs == s.procs[p := y]
    requires forall b :: Named(s.kv, b) || (p in s.procs && Owes(s.procs[p], b)) ==> Named(s'.kv, b) || Owes(y, b)
    ensures Settles(s, s', p)
  {
    hide Named, Owes;
  }

  lemma PutSettles(s: State, p: nat, random: nat)
    requires Inv(s) && p in s.procs && s.procs[p].PutStored?
    ensures Settles(s, Do(s, EndPut(p, random)), p)
  {
    hide Inv, Do, CommitPut, PutGranted, PutDone, IsFresh, BlobsOf, ObjectBlobs, Named, Settles;
    var x := s.procs[p];
    var r := CommitPut(s.kv, x.e, x.name, x.key, x.seen, x.o, random, x.c, s.now);
    PutIs(s, p, random);
    DrawnIsFresh(s, p);
    PutMeans(s.kv, x.e, x.name, x.key, x.seen, x.o, random, x.c, s.now);
    PutGrantedHas(s.kv, x.e, x.name, x.key, x.seen, x.c, s.now);
    if r.Committed? {
      PutNames(s.kv, r.kv, x.name, x.key, x.o, random, r.value);
      Turns(s, Do(s, EndPut(p, random)), p, Cleaning(ObjectBlobs(x.name, r.value)));
    } else {
      Turns(s, Do(s, EndPut(p, random)), p, Cleaning(BlobsOf(x.name, x.o.parts)));
    }
  }

  lemma PutNames(kv: Kv, kv': Kv, name: Name, key: Key, o: Object, random: nat, replaced: Option<Object>)
    requires name in kv.buckets && IsFresh(kv, name, key, o.seqNo) && PutDone(kv, kv', name, key, o, random, replaced)
    ensures forall b :: Named(kv, b) ==> Named(kv', b) || b in ObjectBlobs(name, replaced)
    ensures forall b :: b in BlobsOf(name, o.parts) ==> Named(kv', b)
  {
    hide IsFresh, Wrote, HandedBack, Stands, ObjectBlobs, Named;
    WriteNames(kv, kv', name, key, o, random, replaced);
    forall b
      ensures Named(kv, b) ==> Named(kv', b) || b in ObjectBlobs(name, replaced)
    {
      StandsNamed(kv, kv', ObjectBlobs(name, replaced), b);
    }
  }

  lemma StandsNamed(kv: Kv, kv': Kv, freed: set<Blob>, b: Blob)
    requires Stands(kv, kv', freed) && kv'.parts == kv.parts
    ensures Named(kv, b) ==> Named(kv', b) || b in freed
  {
    hide Named;
    StaysNamed(kv, kv', freed, b);
  }

  /** The request is done. */
  lemma Exits(s: State, s': State, p: nat)
    requires p in s.procs && s'.blobs == s.blobs && s'.procs == s.procs - {p}
    requires forall b :: Named(s.kv, b) || Owes(s.procs[p], b) ==> Named(s'.kv, b)
    ensures Settles(s, s', p)
  {
    hide Named, Owes;
  }

  lemma UploadSettles(s: State, p: nat)
    requires p in s.procs && s.procs[p].StartingUpload?
    ensures Settles(s, Do(s, EndUpload(p)), p)
  {
    var s' := Do(s, EndUpload(p));
    forall b
      ensures Named(s'.kv, b) <==> Named(s.kv, b)
    {
      NamedSame(s.kv, s'.kv, b);
    }
    hide Named;
    Exits(s, s', p);
  }

  lemma PartIs(s: State, p: nat)
    requires p in s.procs && s.procs[p].PartStored?
    ensures var x := s.procs[p];
      var r := CommitPart(s.kv, x.name, x.key, x.id, x.part);
      Do(s, EndPart(p)) ==
        if r.Failed? then s.(procs := s.procs[p := Cleaning({Blob(x.name, x.part.blob)})])
        else s.(kv := r.kv, procs := s.procs[p := Cleaning(if r.value.Some? then {Blob(x.name, r.value.value.blob)} else {})])
  {
    hide CommitPart;
  }

  lemma PartSettles(s: State, p: nat)
    requires p in s.procs && s.procs[p].PartStored?
    ensures Settles(s, Do(s, EndPart(p)), p)
  {
    hide Do, CommitPart, Named, Settles;
    var x := s.procs[p];
    var s' := Do(s, EndPart(p));
    PartIs(s, p);
    PartMeans(s.kv, x.name, x.key, x.id, x.part);
    var pid := PartId(x.name, x.id, x.part.number);
    var freed := if pid in s.kv.parts then {Blob(x.name, s.kv.parts[pid].blob)} else {};
    if IsOpen(s.kv, x.name, x.key, x.id) {
      forall b
        ensures Named(s.kv, b) ==> Named(s'.kv, b) || b in freed
      {
        StaysNamed(s.kv, s'.kv, freed, b);
      }
      PartNames(s'.kv, pid);
      Turns(s, s', p, Cleaning(freed));
    } else {
      Turns(s, s', p, Cleaning({Blob(x.name, x.part.blob)}));
    }
  }

  lemma CompleteIs(s: State, p: nat, random: nat)
    requires p in s.procs && s.procs[p].Completing?
    ensures var x := s.procs[p];
      var r := CommitComplete(s.kv, x.e, x.name, x.key, x.id, x.u, x.seen, x.r, s.next, random);
      (r.Committed? ==> r.value.unused <= s.kv.parts.Keys) &&
      Do(s, EndComplete(p, random)) ==
        if r.Failed? then s.(next := s.next + 1, procs := s.procs - {p})
        else s.(kv := r.kv, next := s.next + 1,
                procs := s.procs[p := Cleaning(PartBlobs(s.kv, r.value.unused) + ObjectBlobs(x.name, r.value.replaced))])
  {
    hide Assemble, CheckWriteConditions, SameBucket, BucketExpected, GetUpload, PutObject, Replaced, DeleteUpload, PartBlobs, ObjectBlobs;
  }

  lemma CompleteSettles(s: State, p: nat, random: nat)
    requires Inv(s) && p in s.procs && s.procs[p].Completing?
    ensures Settles(s, Do(s, EndComplete(p, random)), p)
  {
    hide Inv, Do, CommitComplete, CompleteGranted, Completed, IsFresh, PartBlobs, ObjectBlobs, Named, Settles;
    var x := s.procs[p];
    var r := CommitComplete(s.kv, x.e, x.name, x.key, x.id, x.u, x.seen, x.r, s.next, random);
    CompleteIs(s, p, random);
    NextIsFresh(s, x.name, x.key);
    CompleteMeans(s.kv, x.e, x.name, x.key, x.id, x.u, x.seen, x.r, s.next, random);
    if r.Committed? {
      CompleteNames(s.kv, r.kv, x.name, x.key, x.id, x.u, x.r, s.next, random, r.value);
      Turns(s, Do(s, EndComplete(p, random)), p, Cleaning(PartBlobs(s.kv, r.value.unused) + ObjectBlobs(x.name, r.value.replaced)));
    } else {
      Exits(s, Do(s, EndComplete(p, random)), p);
    }
  }

  /** A part of the completed upload is now part of the object, or freed. */
  lemma CompleteNames(kv: Kv, kv': Kv, name: Name, key: Key, upload: nat, u: Upload, c: CompleteRequest, seqNo: nat, random: nat, left: Leftovers)
    requires IsFresh(kv, name, key, seqNo) && Completed(kv, kv', name, key, upload, u, c, seqNo, random, left) && left.unused <= kv.parts.Keys
    ensures forall b :: Named(kv, b) ==> Named(kv', b) || b in PartBlobs(kv, left.unused) + ObjectBlobs(name, left.replaced)
  {
    hide IsFresh, Wrote, HandedBack, Stands, ObjectBlobs, PartBlobs, Named, NamesParts, IsSum, Agrees, UploadClosed;
    var o :| CompleteDone(kv, kv', name, key, upload, u, c, seqNo, random, left, o);
    var freed := PartBlobs(kv, left.unused) + ObjectBlobs(name, left.replaced);
    WriteNames(kv, kv', name, key, o, random, left.replaced);
    StandsMore(kv, kv', ObjectBlobs(name, left.replaced), freed);
    forall pid | pid in kv.parts
      ensures Kept(kv, kv', freed, pid)
    {
      if pid in left.unused {
        Unfolded(kv, left.unused, pid);
      } else if pid.bucket == name && pid.id == upload {
        var q :| q in o.parts && q.blob == kv.parts[pid].blob;
      } else {
        StillThere(kv, kv', name, upload, pid);
      }
    }
    hide CompleteDone, Kept;
    forall b
      ensures Named(kv, b) ==> Named(kv', b) || b in freed
    {
      StandsKept(kv, kv', freed, b);
    }
  }

  lemma StandsMore(kv: Kv, kv': Kv, freed: set<Blob>, more: set<Blob>)
    requires Stands(kv, kv', freed) && freed <= more
    ensures Stands(kv, kv', more)
  {
  }

  lemma Unfolded(kv: Kv, ids: set<PartId>, pid: PartId)
    requires ids <= kv.parts.Keys && pid in ids
    ensures Blob(pid.bucket, kv.parts[pid].blob) in PartBlobs(kv, ids)
  {
  }

  lemma StillThere(kv: Kv, kv': Kv, name: Name, upload: nat, pid: PartId)
    requires UploadClosed(kv, kv', name, upload) && pid in kv.parts && !(pid.bucket == name && pid.id == upload)
    ensures pid in kv'.parts && kv'.parts[pid] == kv.parts[pid]
  {
  }

  lemma StandsKept(kv: Kv, kv': Kv, freed: set<Blob>, b: Blob)
    requires Stands(kv, kv', freed) && forall pid :: pid in kv.parts ==> Kept(kv, kv', freed, pid)
    ensures Named(kv, b) ==> Named(kv', b) || b in freed
  {
    hide Named, Kept;
    StaysNamed(kv, kv', freed, b);
  }

  lemma AbortIs(s: State, p: nat, e: Expect, name: Name, key: Key, id: nat)
    requires Idle(s, p)
    ensures var r := CommitAbort(s.kv, e, name, key, id);
      (r.Committed? ==> r.value <= s.kv.parts.Keys) &&
      Do(s, Abort(p, e, name, key, id)) ==
        if r.Failed? then s else s.(kv := r.kv, procs := s.procs[p := Cleaning(PartBlobs(s.kv, r.value))])
  {
    hide LiveBucket, GetUpload, DeleteUpload, PartBlobs;
  }

  lemma AbortSettles(s: State, p: nat, e: Expect, name: Name, key: Key, id: nat)
    requires Idle(s, p)
    ensures Settles(s, Do(s, Abort(p, e, name, key, id)), p)
  {
    var r, s' := CommitAbort(s.kv, e, name, key, id), Do(s, Abort(p, e, name, key, id));
    AbortIs(s, p, e, name, key, id);
    AbortMeans(s.kv, e, name, key, id);
    hide Do, CommitAbort, PartBlobs, Named, IsOpen, Accepts;
    if r.Committed? {
      forall pid | pid in s.kv.parts
        ensures Kept(s.kv, s'.kv, PartBlobs(s.kv, r.value), pid)
      {
        if pid in r.value { Unfolded(s.kv, r.value, pid); } else { StillThere(s.kv, s'.kv, name, id, pid); }
      }
      hide Kept, UploadClosed;
      forall b
        ensures Named(s.kv, b) ==> Named(s'.kv, b) || b in PartBlobs(s.kv, r.value)
      {
        StaysNamed(s.kv, s'.kv, PartBlobs(s.kv, r.value), b);
      }
      hide Settles;
      Turns(s, s', p, Cleaning(PartBlobs(s.kv, r.value)));
    }
  }

  lemma DeleteIs(s: State, p: nat, e: Expect, name: Name, key: Key, q: DeleteRequest, random: nat)
    requires Idle(s, p)
    ensures var r := CommitDelete(s.kv, e, name, key, q, s.next, random, s.now);
      Do(s, Delete(p, e, name, key, q, random)) ==
        if r.Failed? then s.(next := s.next + 1)
        else s.(kv := r.kv, next := s.next + 1, procs := s.procs[p := Cleaning(ObjectBlobs(name, r.value.removed))])
  {
    hide CommitDelete, ObjectBlobs;
  }

  lemma DeleteSettles(s: State, p: nat, e: Expect, name: Name, key: Key, q: DeleteRequest, random: nat)
    requires Inv(s) && Idle(s, p)
    ensures Settles(s, Do(s, Delete(p, e, name, key, q, random)), p)
  {
    hide Inv, Do, CommitDelete, IsFresh, ObjectBlobs, Named, Settles, VersionsValid, DeleteOneGranted, DeleteCurrentGranted;
    var r := CommitDelete(s.kv, e, name, key, q, s.next, random, s.now);
    var s' := Do(s, Delete(p, e, name, key, q, random));
    DeleteIs(s, p, e, name, key, q, random);
    NextIsFresh(s, name, key);
    if r.Committed? {
      DeleteNames(s.kv, e, name, key, q, s.next, random, s.now);
      Turns(s, s', p, Cleaning(ObjectBlobs(name, r.value.removed)));
    } else {
      SameSettles(s, s', p);
    }
  }

  lemma SameSettles(s: State, s': State, p: nat)
    requires s'.kv == s.kv && s'.blobs == s.blobs && s'.procs == s.procs
    ensures Settles(s, s', p)
  {
    hide Named, Owes;
  }

  /** A delete frees the version that is gone, and no other. */
  lemma DeleteNames(kv: Kv, e: Expect, name: Name, key: Key, q: DeleteRequest, seqNo: nat, random: nat, now: int)
    requires IsFresh(kv, name, key, seqNo) && VersionsValid(kv) && CommitDelete(kv, e, name, key, q, seqNo, random, now).Committed?
    ensures var r := CommitDelete(kv, e, name, key, q, seqNo, random, now);
      forall b :: Named(kv, b) ==> Named(r.kv, b) || b in ObjectBlobs(name, r.value.removed)
  {
    hide CommitDelete, IsFresh, Named, VersionsValid, DeleteOneGranted, ObjectBlobs;
    var r := CommitDelete(kv, e, name, key, q, seqNo, random, now);
    if q.vid.Some? {
      DeleteOneMeans(kv, e, name, key, q, seqNo, random, now);
      OneStands(kv, r.kv, name, key, q.vid.value, r.value.removed);
    } else {
      DeleteCurrentMeans(kv, e, name, key, q, seqNo, random, now);
      CurrentGrantedHas(kv, e, name, key, q, now);
      CurrentStands(kv, r.kv, name, key, seqNo, random, r.value.removed);
    }
    hide *;
    forall b
      ensures Named(kv, b) ==> Named(r.kv, b) || b in ObjectBlobs(name, r.value.removed)
    {
      StandsNamed(kv, r.kv, ObjectBlobs(name, r.value.removed), b);
    }
  }

  lemma OneStands(kv: Kv, kv': Kv, name: Name, key: Key, vid: Vid, removed: Option<Object>)
    requires RemovedId(kv, kv', name, key, vid) && TellsRemoved(kv, name, key, vid, removed)
    ensures Stands(kv, kv', ObjectBlobs(name, removed)) && kv'.parts == kv.parts
  {
    hide VersionsValid;
  }

  lemma CurrentStands(kv: Kv, kv': Kv, name: Name, key: Key, seqNo: nat, random: nat, removed: Option<Object>)
    requires IsFresh(kv, name, key, seqNo) && name in kv.buckets
    requires DeleteCurrentDone(kv, kv', name, key, seqNo, random) && TellsGone(kv, kv', removed)
    ensures Stands(kv, kv', ObjectBlobs(name, removed)) && kv'.parts == kv.parts
  {
    hide VersionsValid, GetVersion, GetLatest, WrittenId, IsNewest;
    forall id | id in kv.objects
      ensures id !in kv'.objects ==> id.bucket == name && removed == Some(kv.objects[id])
      ensures id in kv'.objects ==> kv'.objects[id] == kv.objects[id]
    {
      if id !in kv'.objects { assert Gone(kv, kv', id); }
    }
    hide TellsGone, DeleteCurrentDone;
  }

  /** Retention and legal hold change no parts. */
  lemma UpdateStands(kv: Kv, e: Expect, name: Name, key: Key, vid: Option<Vid>, wanted: Option<Retention>, bypass: bool, now: int, on: bool)
    requires VersionsValid(kv)
    ensures var r := CommitRetention(kv, e, name, key, vid, wanted, bypass, now);
      r.Committed? ==> Stands(kv, r.kv, {}) && r.kv.parts == kv.parts
    ensures var r := CommitHold(kv, e, name, key, vid, on);
      r.Committed? ==> Stands(kv, r.kv, {}) && r.kv.parts == kv.parts
  {
    hide VersionsValid, FindVersion, RetentionRefused, Rewrite, Stands;
    FindMeans(kv, e, name, key, vid);
    var f := FindVersion(kv, e, name, key, vid);
    if f.Committed? {
      RewriteStands(kv, name, key, f.value, f.value.(retention := wanted));
      RewriteStands(kv, name, key, f.value, f.value.(legalHold := on));
    }
  }

  lemma RewriteStands(kv: Kv, name: Name, key: Key, o: Object, o': Object)
    requires o'.seqNo == o.seqNo && o'.parts == o.parts
    requires ObjectId(name, key, o.seqNo) in kv.objects && kv.objects[ObjectId(name, key, o.seqNo)] == o
    ensures Stands(kv, Rewrite(kv, name, key, o'), {}) && Rewrite(kv, name, key, o').parts == kv.parts
  {
  }

  lemma RetentionIs(s: State, p: nat)
    requires p in s.procs && s.procs[p].Retaining?
    ensures var x := s.procs[p];
      var r := CommitRetention(s.kv, x.e, x.name, x.key, x.vid, x.wanted, x.bypass, s.now);
      Do(s, EndRetention(p)) == s.(kv := if r.Committed? then r.kv else s.kv, procs := s.procs - {p})
  {
    hide CommitRetention;
  }

  lemma HoldIs(s: State, p: nat)
    requires p in s.procs && s.procs[p].Holding?
    ensures var x := s.procs[p];
      var r := CommitHold(s.kv, x.e, x.name, x.key, x.vid, x.on);
      Do(s, EndHold(p)) == s.(kv := if r.Committed? then r.kv else s.kv, procs := s.procs - {p})
  {
    hide CommitHold;
  }

  lemma RetentionSettles(s: State, p: nat)
    requires Inv(s) && p in s.procs && s.procs[p].Retaining?
    ensures Settles(s, Do(s, EndRetention(p)), p)
  {
    hide Inv, Do, CommitRetention, CommitHold, Stands, Named, VersionsValid, Settles;
    var x := s.procs[p];
    RetentionIs(s, p);
    NextIsFresh(s, x.name, x.key);
    UpdateStands(s.kv, x.e, x.name, x.key, x.vid, x.wanted, x.bypass, s.now, false);
    StandingExits(s, Do(s, EndRetention(p)), p);
  }

  lemma HoldSettles(s: State, p: nat)
    requires Inv(s) && p in s.procs && s.procs[p].Holding?
    ensures Settles(s, Do(s, EndHold(p)), p)
  {
    hide Inv, Do, CommitRetention, CommitHold, Stands, Named, VersionsValid, Settles;
    var x := s.procs[p];
    HoldIs(s, p);
    NextIsFresh(s, x.name, x.key);
    UpdateStands(s.kv, x.e, x.name, x.key, x.vid, None, false, s.now, x.on);
    StandingExits(s, Do(s, EndHold(p)), p);
  }

  lemma StandingExits(s: State, s': State, p: nat)
    requires p in s.procs && (s.procs[p].Retaining? || s.procs[p].Holding?) && s'.blobs == s.blobs && s'.procs == s.procs - {p}
    requires s'.kv == s.kv || (Stands(s.kv, s'.kv, {}) && s'.kv.parts == s.kv.parts)
    ensures Settles(s, s', p)
  {
    hide Named, Settles, Stands;
    forall b
      ensures Named(s.kv, b) ==> Named(s'.kv, b)
    {
      if s'.kv != s.kv { StandsNamed(s.kv, s'.kv, {}, b); }
    }
    Exits(s, s', p);
  }

  lemma BucketIs(s: State, st: Step)
    requires Possible(s, st) && (st.DeleteBucket? || st.ForceDeleteBucket?)
    ensures var s' := Do(s, st);
      s' == s || (st.p !in s.procs && s' == s.(kv := s'.kv, procs := s.procs[st.p := Finishing(st.name)]) && Spared(s.kv, s'.kv, st.name))
  {
    hide LiveBucket, GetLiveBucket, HasObjects;
  }

  /** The records of other buckets stay. */
  ghost predicate Spared(kv: Kv, kv': Kv, name: Name) {
    && (forall id :: id in kv.objects && id.bucket != name ==> id in kv'.objects && kv'.objects[id] == kv.objects[id])
    && (forall pid :: pid in kv.parts && pid.bucket != name ==> pid in kv'.parts && kv'.parts[pid] == kv.parts[pid])
  }

  lemma BucketGoes(s: State, st: Step)
    requires Possible(s, st) && (st.DeleteBucket? || st.ForceDeleteBucket?)
    ensures Settles(s, Do(s, st), st.p)
  {
    var s' := Do(s, st);
    BucketIs(s, st);
    hide Do, Possible, Named, Settles;
    if s' == s {
      SameSettles(s, s', st.p);
    } else {
      forall b: Blob | b.bucket != st.name
        ensures Named(s.kv, b) ==> Named(s'.kv, b)
      {
        SparedNamed(s.kv, s'.kv, st.name, b);
      }
      Turns(s, s', st.p, Finishing(st.name));
    }
  }

  lemma SparedNamed(kv: Kv, kv': Kv, name: Name, b: Blob)
    requires Spared(kv, kv', name) && b.bucket != name
    ensures Named(kv, b) ==> Named(kv', b)
  {
    if Named(kv, b) {
      var id, q, pid := NamedBy(kv, b);
      if id in kv.objects && q in kv.objects[id].parts && b == Blob(id.bucket, q.blob) { Names(kv', id, q); } else { PartNames(kv', pid); }
    }
  }

  lemma RecordGoes(s: State, p: nat)
    requires p in s.procs && s.procs[p].FinishingRecord?
    ensures Settles(s, Do(s, RemoveRecord(p)), p)
  {
    var s' := Do(s, RemoveRecord(p));
    forall b
      ensures Named(s'.kv, b) <==> Named(s.kv, b)
    {
      NamedSame(s.kv, s'.kv, b);
    }
    hide Named;
    Exits(s, s', p);
  }

  /** The steps without a request. */
  predicate Rests(st: Step) {
    st.CreateBucket? || st.SetVersioning? || st.SetLock? || st.Serve? || st.Tick?
  }

  lemma RestLeavesDisk(s: State, st: Step)
    requires Possible(s, st) && Rests(st)
    ensures Do(s, st).blobs == s.blobs && Do(s, st).procs == s.procs
  {
    hide CommitCreateBucket, CommitVersioning, CommitLockConfig, DoEndPut, DoEndUpload, DoEndPart, DoEndComplete, DoAbort, DoDelete, DoDeleteBucket,
      PutVersion, DigestOf, ValidateAttrs, GetUpload, Readable;
  }

  lemma RestLeavesRecords(s: State, st: Step)
    requires Possible(s, st) && Rests(st)
    ensures Do(s, st).kv.objects == s.kv.objects && Do(s, st).kv.parts == s.kv.parts
  {
    hide LiveBucket, DoEndPut, DoEndUpload, DoEndPart, DoEndComplete, DoAbort, DoDelete, DoDeleteBucket, PutVersion, DigestOf, ValidateAttrs,
      GetUpload, Readable;
  }

  lemma RestTidy(s: State, st: Step)
    requires Possible(s, st) && Tidy(s) && Rests(st)
    ensures Tidy(Do(s, st))
  {
    RestLeavesDisk(s, st);
    RestLeavesRecords(s, st);
    hide Do, Possible, Named, Owes;
    var s' := Do(s, st);
    forall b | b in s'.blobs
      ensures Named(s'.kv, b) || Owed(s', b)
    {
      NamedSame(s.kv, s'.kv, b);
    }
  }

  // ----- runs

  /** No step of a calm run leaves a blob behind. */
  lemma StepTidy(s: State, st: Step)
    requires Inv(s) && Possible(s, st) && Calm(s, st) && Tidy(s)
    ensures Tidy(Do(s, st))
  {
    hide Inv, Do, Tidy, Settles, Calm;
    match st
    case BeginPut(_, _, _, _, _, _, _, _) => BeginSettles(s, st); SettlesTidy(s, Do(s, st), st.p);
    case StorePut(_, _) => StoreSettles(s, st); SettlesTidy(s, Do(s, st), st.p);
    case EndPut(p, random) => PutSettles(s, p, random); SettlesTidy(s, Do(s, st), p);
    case BeginUpload(_, _, _, _, _, _, _) => BeginSettles(s, st); SettlesTidy(s, Do(s, st), st.p);
    case EndUpload(p) => UploadSettles(s, p); SettlesTidy(s, Do(s, st), p);
    case BeginPart(_, _, _, _, _) => BeginSettles(s, st); SettlesTidy(s, Do(s, st), st.p);
    case StorePart(_, _, _) => StoreSettles(s, st); SettlesTidy(s, Do(s, st), st.p);
    case EndPart(p) => PartSettles(s, p); SettlesTidy(s, Do(s, st), p);
    case BeginComplete(_, _, _, _, _, _) => BeginSettles(s, st); SettlesTidy(s, Do(s, st), st.p);
    case EndComplete(p, random) => CompleteSettles(s, p, random); SettlesTidy(s, Do(s, st), p);
    case Abort(p, e, name, key, id) => AbortSettles(s, p, e, name, key, id); SettlesTidy(s, Do(s, st), p);
    case Delete(p, e, name, key, q, random) => DeleteSettles(s, p, e, name, key, q, random); SettlesTidy(s, Do(s, st), p);
    case BeginRetention(_, _, _, _, _, _, _) => BeginSettles(s, st); SettlesTidy(s, Do(s, st), st.p);
    case EndRetention(p) => RetentionSettles(s, p); SettlesTidy(s, Do(s, st), p);
    case BeginHold(_, _, _, _, _, _) => BeginSettles(s, st); SettlesTidy(s, Do(s, st), st.p);
    case EndHold(p) => HoldSettles(s, p); SettlesTidy(s, Do(s, st), p);
    case DeleteBucket(p, _, _) => BucketGoes(s, st); SettlesTidy(s, Do(s, st), p);
    case ForceDeleteBucket(p, _) => BucketGoes(s, st); SettlesTidy(s, Do(s, st), p);
    case RemoveDir(_) => RemoveSettles(s, st); SettlesTidy(s, Do(s, st), st.p);
    case RemoveRecord(p) => RecordGoes(s, p); SettlesTidy(s, Do(s, st), p);
    case Clean(_, _) => RemoveSettles(s, st); SettlesTidy(s, Do(s, st), st.p);
    case Drop(_) => RemoveSettles(s, st); SettlesTidy(s, Do(s, st), st.p);
    case Recover(_, _) => BeginSettles(s, st); SettlesTidy(s, Do(s, st), st.p);
    case Crash => NeverCalm(s);
    case _ => RestTidy(s, st);
  }

  lemma NeverCalm(s: State)
    ensures !Calm(s, Crash)
  {
  }

  /** The first `n` steps of the run are calm. */
  ghost predicate CalmRun(states: seq<State>, steps: seq<Step>, n: nat)
    requires |states| == |steps| + 1 && n <= |steps|
  {
    forall k :: 0 <= k < n ==> Calm(states[k], steps[k])
  }

  /** As long as no crash and no abandoned request interferes, nothing leaks. */
  lemma {:induction false} NothingLeaks(states: seq<State>, steps: seq<Step>, n: nat)
    requires IsRun(states, steps) && n <= |steps| && CalmRun(states, steps, n)
    ensures Tidy(states[n])
  {
    hide Tidy, Do, Possible, Calm, Inv;
    if n == 0 {
      EmptyTidy();
    } else {
      NothingLeaks(states, steps, n - 1);
      RunInv(states, steps, n - 1);
      StepTidy(states[n - 1], steps[n - 1]);
    }
  }

  lemma EmptyTidy()
    ensures Tidy(EMPTY)
  {
  }

  /** Once no request is in flight, the blobs on disk are exactly those that records name. */
  lemma DiskIsExact(states: seq<State>, steps: seq<Step>, n: nat)
    requires IsRun(states, steps) && n <= |steps| && CalmRun(states, steps, n) && states[n].procs == map[]
    ensures forall b :: b in states[n].blobs <==> Named(states[n].kv, b)
  {
    NothingLeaks(states, steps, n);
    RunInv(states, steps, n);
    hide IsRun, CalmRun;
    forall b
      ensures Named(states[n].kv, b) ==> b in states[n].blobs
    {
      NamedIsThere(states[n], b);
    }
    hide Named, Inv;
  }

  lemma NamedIsThere(s: State, b: Blob)
    requires Inv(s)
    ensures Named(s.kv, b) ==> b in s.blobs
  {
    hide VersionsValid, Unique, Homes, Numbered, Content, ProcsInv;
    if Named(s.kv, b) {
      var r :| BlobAt(s.kv, r) == Some(b);
      assert Holds(s.blobs, BlobAt(s.kv, r).value, PartAt(s.kv, r).value);
    }
  }
}
