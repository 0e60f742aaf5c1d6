/** The remaining transactions, and the main result over whole runs. */
module SafetySteps {
  import opened Records
  import opened Service
  import opened Protocol
  import opened Safety
  import opened SafetyKv
  import opened SafetyBlobs
  import opened SafetyPut

  // ----- uploads and parts

  lemma UploadKeeps(kv: Kv, blobs: map<Blob, seq<Byte>>, next: nat, name: Name, u: Upload)
    requires KvInv(kv, blobs, next) && LiveName(kv, name) && UploadOk(u)
    ensures KvInv(kv.(uploads := kv.uploads[UploadId(name, next) := u]), blobs, next + 1)
  {
    var kv' := kv.(uploads := kv.uploads[UploadId(name, next) := u]);
    SameNames(kv', kv);
    PartsOfInv(kv, blobs, next);
    hide KvInv;
    SameRecords(kv', kv);
    NewUpload(kv, blobs, next, name, u);
    hide VersionsValid, Content, Numbered, Homes, PartAt, BlobAt;
    WithinUnique(kv', kv);
    SameData(kv', kv, blobs);
    hide Data, Unique;
    IsInv(kv', blobs, next + 1);
  }

  lemma NewUpload(kv: Kv, blobs: map<Blob, seq<Byte>>, next: nat, name: Name, u: Upload)
    requires Homes(kv) && Numbered(kv, blobs, next) && Content(kv, blobs) && LiveName(kv, name) && UploadOk(u)
    ensures var kv' := kv.(uploads := kv.uploads[UploadId(name, next) := u]);
      Homes(kv') && Numbered(kv', blobs, next + 1) && Content(kv', blobs)
  {
    hide BodyOk, SumOk, UploadOk;
  }

  lemma IsInv(kv: Kv, blobs: map<Blob, seq<Byte>>, next: nat)
    requires VersionsValid(kv) && Unique(kv) && Homes(kv) && Numbered(kv, blobs, next) && Data(kv, blobs) && Content(kv, blobs)
    ensures KvInv(kv, blobs, next)
  {
  }

  lemma SameNames(kv': Kv, kv: Kv)
    requires kv'.objects == kv.objects && kv'.parts == kv.parts
    ensures forall r :: PartAt(kv', r) == PartAt(kv, r)
    ensures forall r :: BlobAt(kv', r) == BlobAt(kv, r)
    ensures forall b :: Named(kv', b) <==> Named(kv, b)
  {
    hide PartAt;
    forall r
      ensures PartAt(kv', r) == PartAt(kv, r)
    {
      SamePartAt(kv', kv, r);
    }
  }

  lemma SamePartAt(kv': Kv, kv: Kv, r: Ref)
    requires kv'.objects == kv.objects && kv'.parts == kv.parts
    ensures PartAt(kv', r) == PartAt(kv, r)
  {
  }

  lemma SameData(kv': Kv, kv: Kv, blobs: map<Blob, seq<Byte>>)
    requires Data(kv, blobs)
    requires forall r :: PartAt(kv', r) == PartAt(kv, r)
    requires forall r :: BlobAt(kv', r) == BlobAt(kv, r)
    ensures Data(kv', blobs)
  {
    hide PartAt, BlobAt;
  }

  lemma SameRecords(kv': Kv, kv: Kv)
    requires kv'.objects == kv.objects && kv'.nulls == kv.nulls && VersionsValid(kv)
    ensures VersionsValid(kv')
  {
    forall p | p in kv'.nulls
      ensures PointsToNull(kv', p)
    {
      assert PointsToNull(kv, p);
    }
    forall i | i in kv'.objects && kv'.objects[i].vid == NullId
      ensures IsPointed(kv', i)
    {
      assert IsPointed(kv, i);
    }
  }

  lemma UploadEvolves(s: State, s': State, name: Name, u: Upload)
    requires s'.kv == s.kv.(uploads := s.kv.uploads[UploadId(name, s.next) := u]) && s'.blobs == s.blobs && s'.next == s.next + 1
    ensures Evolves(s, s', NOTHING)
  {
    SameNames(s'.kv, s.kv);
    hide Named, PartAt, BlobAt;
  }

  lemma UploadLands(s: State, p: nat)
    requires Inv(s) && p in s.procs && s.procs[p].StartingUpload? && LiveName(s.kv, s.procs[p].name)
    ensures var x := s.procs[p];
      Inv(Leave(s.(kv := s.kv.(uploads := s.kv.uploads[UploadId(x.name, s.next) := x.u]), next := s.next + 1), p))
  {
    var x := s.procs[p];
    var s' := Leave(s.(kv := s.kv.(uploads := s.kv.uploads[UploadId(x.name, s.next) := x.u]), next := s.next + 1), p);
    ProcOf(s, p);
    KvOfInv(s);
    hide Inv, KvInv, Evolves;
    UploadKeeps(s.kv, s.blobs, s.next, x.name, x.u);
    UploadEvolves(s, s', x.name, x.u);
    MovesOut(s, s');
  }

  lemma EndsUpload(s: State, p: nat)
    requires Inv(s) && p in s.procs && s.procs[p].StartingUpload?
    ensures Inv(DoEndUpload(s, p))
  {
    UploadIs(s, p);
    hide *;
    if DoEndUpload(s, p) == Leave(s, p) {
      LeavesOnly(s, p);
      Quits(s, Leave(s, p));
    } else {
      UploadLands(s, p);
    }
  }

  lemma LeavesOnly(s: State, p: nat)
    ensures var s' := Leave(s, p);
      s'.kv == s.kv && s'.blobs == s.blobs && s'.next == s.next && forall q :: q in s'.procs ==> q in s.procs && s'.procs[q] == s.procs[q]
  {
  }

  lemma UploadIs(s: State, p: nat)
    requires p in s.procs && s.procs[p].StartingUpload?
    ensures var x := s.procs[p];
      DoEndUpload(s, p) == Leave(s, p) ||
      (LiveName(s.kv, x.name) && DoEndUpload(s, p) ==
        Leave(s.(kv := s.kv.(uploads := s.kv.uploads[UploadId(x.name, s.next) := x.u]), next := s.next + 1), p))
  {
    hide Leave, BucketExpected;
  }

  lemma PartLands(s: State, p: nat)
    requires Inv(s) && p in s.procs && s.procs[p].PartStored?
    requires UploadId(s.procs[p].name, s.procs[p].id) in s.kv.uploads
    ensures var x := s.procs[p];
      var pid := PartId(x.name, x.id, x.part.number);
      Inv(Become(s.(kv := WithPart(s.kv, pid, x.part)), p,
                 Cleaning(if pid in s.kv.parts then {Blob(x.name, s.kv.parts[pid].blob)} else {})))
  {
    hide *;
    var x := s.procs[p];
    var pid := PartId(x.name, x.id, x.part.number);
    var doomed := if pid in s.kv.parts then {Blob(x.name, s.kv.parts[pid].blob)} else {};
    var s1 := s.(kv := WithPart(s.kv, pid, x.part));
    var s' := Become(s1, p, Cleaning(doomed));
    var own := Own(Some(Blob(x.name, x.part.blob)), None, {}, None);
    ProcOf(s, p);
    PartReady(s, p);
    KvOfInv(s);
    Becomes(s1, p, Cleaning(doomed));
    PartKeeps(s.kv, s.blobs, s.next, pid, x.part);
    PartEvolves(s, s', own, pid, x.part);
    TurnsToCleaning(s, s', own, p, doomed);
  }

  /** A stored part of a live upload is ready to be recorded. */
  lemma PartReady(s: State, p: nat)
    requires p in s.procs && s.procs[p].PartStored? && ProcOk(s.kv, s.blobs, s.next, s.procs[p])
    requires UploadId(s.procs[p].name, s.procs[p].id) in s.kv.uploads
    ensures var x := s.procs[p];
      var b := Blob(x.name, x.part.blob);
      Holds(s.blobs, b, x.part) && !Named(s.kv, b) && SumOk(s.blobs, b, s.kv.uploads[UploadId(x.name, x.id)], x.part) &&
      Claim(Before(s, p)) == Some(b)
  {
    hide Named;
  }

  lemma PartEvolves(s: State, s': State, own: Own, pid: PartId, part: Part)
    requires s'.kv == WithPart(s.kv, pid, part) && s'.blobs == s.blobs && s'.next == s.next && own.gone.None?
    requires forall b :: Named(s'.kv, b) ==> Named(s.kv, b) || Some(b) == own.claim
    ensures Evolves(s, s', own)
  {
    hide Named;
  }

  lemma EndsPart(s: State, p: nat)
    requires Inv(s) && p in s.procs && s.procs[p].PartStored?
    ensures Inv(DoEndPart(s, p))
  {
    var x := s.procs[p];
    hide Inv;
    if CommitPart(s.kv, x.name, x.key, x.id, x.part).Failed? {
      Discards(s, p, Blob(x.name, x.part.blob));
    } else {
      PartLands(s, p);
    }
  }

  // ----- writes that only take away or rewrite attributes

  /** The store shrinks to `kv'`: nothing becomes named, no bucket or upload appears. */
  lemma WithinEvolves(s: State, s': State)
    requires Within(s'.kv, s.kv) && s'.blobs == s.blobs && s.next <= s'.next && s'.kv.buckets.Keys == s.kv.buckets.Keys
    requires forall n :: n in s.kv.buckets ==> SameOrDying(s.kv.buckets[n], s'.kv.buckets[n])
    ensures Evolves(s, s', NOTHING)
  {
    WithinNames(s'.kv, s.kv);
    hide Named, SameBody, PartAt, BlobAt;
  }

  /** The same incarnation of a bucket, with nothing revived. */
  predicate SameOrDying(b: Bucket, b': Bucket) {
    b'.created == b.created && (b.deleting ==> b'.deleting)
  }

  lemma Aborts(s: State, p: nat, e: Expect, name: Name, key: Key, id: nat)
    requires Inv(s) && p !in s.procs
    ensures Inv(DoAbort(s, p, e, name, key, id))
  {
    hide Inv, DeleteUpload, PartsOf;
    if CommitAbort(s.kv, e, name, key, id).Committed? {
      UploadLeaves(s, p, name, id);
    }
  }

  lemma UploadLeaves(s: State, p: nat, name: Name, id: nat)
    requires Inv(s) && p !in s.procs
    ensures Inv(Become(s.(kv := DeleteUpload(s.kv, name, id)), p, Cleaning(PartBlobs(s.kv, PartsOf(s.kv, name, id)))))
  {
    var doomed := PartBlobs(s.kv, PartsOf(s.kv, name, id));
    var s' := Become(s.(kv := DeleteUpload(s.kv, name, id)), p, Cleaning(doomed));
    KvOfInv(s);
    PartsOfInv(s.kv, s.blobs, s.next);
    hide Inv, KvInv, VersionsValid, Unique, Homes, Numbered, Data, Content, Named;
    UploadGone(s.kv, s.blobs, s.next, name, id);
    WithinEvolves(s, s');
    forall b | b in doomed
      ensures !Named(s'.kv, b) && Named(s.kv, b)
    {
      var q :| q in PartsOf(s.kv, name, id) && b == Blob(q.bucket, s.kv.parts[q].blob);
      UploadReleases(s.kv, name, id, q);
    }
    hide Evolves, Within;
    TurnsToCleaning(s, s', NOTHING, p, doomed);
  }

  /** `o` is a version of the store. */
  ghost predicate Stored(kv: Kv, name: Name, key: Key, o: Object) {
    ObjectId(name, key, o.seqNo) in kv.objects && kv.objects[ObjectId(name, key, o.seqNo)] == o
  }

  lemma LatestStored(kv: Kv, name: Name, key: Key)
    requires WellKeyed(kv) && GetLatest(kv, name, key).Some?
    ensures Stored(kv, name, key, GetLatest(kv, name, key).value)
  {
    hide GetLatest;
    var n :| IsNewest(kv, name, key, n) && GetLatest(kv, name, key).value == kv.objects[ObjectId(name, key, n)];
  }

  lemma VersionStored(kv: Kv, name: Name, key: Key, vid: Vid)
    requires WellKeyed(kv) && GetVersion(kv, name, key, vid).Some?
    ensures Stored(kv, name, key, GetVersion(kv, name, key, vid).value)
  {
  }

  /** The null version that a write would replace is the one `GetVersion` finds. */
  lemma VersionLeaves(s: State, p: nat, name: Name, key: Key, o: Object)
    requires Inv(s) && p !in s.procs && Stored(s.kv, name, key, o)
    ensures Inv(Become(s.(kv := DeleteVersion(s.kv, name, key, o), next := s.next + 1), p, Cleaning(ObjectBlobs(name, Some(o)))))
  {
    hide *;
    var doomed := ObjectBlobs(name, Some(o));
    var s1 := s.(kv := DeleteVersion(s.kv, name, key, o), next := s.next + 1);
    var s' := Become(s1, p, Cleaning(doomed));
    KvOfInv(s);
    PartsOfInv(s.kv, s.blobs, s.next);
    StoredIn(s.kv, name, key, o);
    BucketsSame(s.kv, name, key, o);
    Becomes(s1, p, Cleaning(doomed));
    NothingOwned(NEWCOMER);
    DeleteKeeps(s.kv, s.blobs, s.next, name, key, o);
    NumbersGrow(s1.kv, s.blobs, s.next, s.next + 1);
    WithinEvolves(s, s');
    forall b | b in doomed
      ensures !Named(s'.kv, b) && Named(s.kv, b)
    {
      DeleteReleases(s.kv, name, key, o, b);
    }
    TurnsToCleaning(s, s', NOTHING, p, doomed);
  }

  lemma StoredIn(kv: Kv, name: Name, key: Key, o: Object)
    requires Stored(kv, name, key, o)
    ensures ObjectId(name, key, o.seqNo) in kv.objects && kv.objects[ObjectId(name, key, o.seqNo)] == o
    ensures ObjectBlobs(name, Some(o)) == BlobsOf(name, o.parts)
  {
  }

  lemma BucketsSame(kv: Kv, name: Name, key: Key, o: Object)
    ensures DeleteVersion(kv, name, key, o).buckets == kv.buckets
    ensures forall n :: n in kv.buckets ==> SameOrDying(kv.buckets[n], kv.buckets[n])
  {
  }

  /** A request that found nothing to delete. */
  lemma NothingLeaves(s: State, p: nat)
    requires Inv(s) && p !in s.procs
    ensures Inv(Become(s.(next := s.next + 1), p, Cleaning({})))
  {
    Quits(s, s.(next := s.next + 1));
    hide Inv;
    Joins(s.(next := s.next + 1), p, Cleaning({}));
  }

  /** What a delete commits, by case. */
  lemma DeleteIs(s: State, p: nat, e: Expect, name: Name, key: Key, r: DeleteRequest, random: nat)
    ensures var d :=
      if r.vid.Some? then DeleteOneVersion(s.kv, e, name, key, r, s.now)
      else if LiveName(s.kv, name) then DeleteCurrent(s.kv, s.kv.buckets[name], name, key, r, s.next, random, s.now)
      else Failed(NoSuchBucket);
      DoDelete(s, p, e, name, key, r, random) == s.(next := s.next + 1) ||
      (d.Committed? && DoDelete(s, p, e, name, key, r, random) ==
        Become(s.(kv := d.kv, next := s.next + 1), p, Cleaning(ObjectBlobs(name, d.value.removed))))
  {
    hide DeleteOneVersion, DeleteCurrent, BucketExpected, ObjectBlobs, Become;
  }

  lemma Deletes(s: State, p: nat, e: Expect, name: Name, key: Key, r: DeleteRequest, random: nat)
    requires Inv(s) && p !in s.procs
    ensures Inv(DoDelete(s, p, e, name, key, r, random))
  {
    KvOfInv(s);
    PartsOfInv(s.kv, s.blobs, s.next);
    DeleteIs(s, p, e, name, key, r, random);
    hide *;
    if DoDelete(s, p, e, name, key, r, random) == s.(next := s.next + 1) {
      Quits(s, s.(next := s.next + 1));
    } else if r.vid.Some? {
      DeletesOne(s, p, e, name, key, r);
    } else {
      DeletesCurrent(s, p, name, key, r, random);
    }
  }

  lemma Keyed(kv: Kv)
    requires VersionsValid(kv)
    ensures WellKeyed(kv)
  {
  }

  lemma DeletesOne(s: State, p: nat, e: Expect, name: Name, key: Key, r: DeleteRequest)
    requires Inv(s) && VersionsValid(s.kv) && p !in s.procs && r.vid.Some?
    requires DeleteOneVersion(s.kv, e, name, key, r, s.now).Committed?
    ensures var d := DeleteOneVersion(s.kv, e, name, key, r, s.now);
      Inv(Become(s.(kv := d.kv, next := s.next + 1), p, Cleaning(ObjectBlobs(name, d.value.removed))))
  {
    hide Inv, DeleteVersion, GetVersion, Locked, EtagMatches, BlobsOf, VersionsValid, ObjectExpected, WellKeyed;
    Keyed(s.kv);
    var o := GetVersion(s.kv, name, key, r.vid.value);
    if o.None? {
      NothingLeaves(s, p);
    } else {
      VersionStored(s.kv, name, key, r.vid.value);
      VersionLeaves(s, p, name, key, o.value);
    }
  }

  lemma DeletesCurrent(s: State, p: nat, name: Name, key: Key, r: DeleteRequest, random: nat)
    requires Inv(s) && VersionsValid(s.kv) && p !in s.procs && LiveName(s.kv, name)
    requires DeleteCurrent(s.kv, s.kv.buckets[name], name, key, r, s.next, random, s.now).Committed?
    ensures var d := DeleteCurrent(s.kv, s.kv.buckets[name], name, key, r, s.next, random, s.now);
      Inv(Become(s.(kv := d.kv, next := s.next + 1), p, Cleaning(ObjectBlobs(name, d.value.removed))))
  {
    hide Inv, PutObject, DeleteVersion, GetVersion, GetLatest, Locked, BlobsOf, VersionsValid, CheckDeleteConditions, WellKeyed,
      DeleteMarker;
    Keyed(s.kv);
    match s.kv.buckets[name].versioning
    case Enabled =>
      MarkerVid(SeqId(s.next, random), s.next);
      MarkerLands(s, p, name, key, SeqId(s.next, random));
    case Suspended =>
      MarkerVid(NullId, s.next);
      MarkerLands(s, p, name, key, NullId);
    case Unversioned =>
      var cur := GetLatest(s.kv, name, key);
      if cur.None? {
        NothingLeaves(s, p);
      } else {
        LatestStored(s.kv, name, key);
        VersionLeaves(s, p, name, key, cur.value);
      }
  }

  lemma MarkerVid(vid: Vid, seqNo: nat)
    ensures DeleteMarker(vid, seqNo).vid == vid
  {
  }

  // ----- retention and legal hold

  lemma RewriteWithin(kv: Kv, name: Name, key: Key, o: Object, o': Object)
    requires VersionsValid(kv) && Homes(kv)
    requires Stored(kv, name, key, o) && SameBody(o', o) && o'.vid == o.vid && o'.seqNo == o.seqNo
    ensures VersionsValid(Rewrite(kv, name, key, o')) && Homes(Rewrite(kv, name, key, o')) && Within(Rewrite(kv, name, key, o'), kv)
  {
    RewriteKeeps(kv, ObjectId(name, key, o.seqNo), o');
    hide VersionsValid;
  }

  lemma Rewrites(s: State, p: nat, name: Name, key: Key, o: Object, o': Object)
    requires Inv(s) && Stored(s.kv, name, key, o) && SameBody(o', o) && o'.vid == o.vid && o'.seqNo == o.seqNo
    ensures Inv(Leave(s.(kv := Rewrite(s.kv, name, key, o')), p))
  {
    var s' := Leave(s.(kv := Rewrite(s.kv, name, key, o')), p);
    KvOfInv(s);
    PartsOfInv(s.kv, s.blobs, s.next);
    hide Inv, KvInv, VersionsValid, Unique, Data, Content, Named, Homes, Within, Evolves, Stored, SameBody;
    RewriteWithin(s.kv, name, key, o, o');
    WithinKeeps(s'.kv, s.kv, s.blobs, s.next);
    WithinEvolves(s, s');
    MovesOut(s, s');
  }

  lemma FoundStored(kv: Kv, e: Expect, name: Name, key: Key, vid: Option<Vid>)
    requires VersionsValid(kv) && FindVersion(kv, e, name, key, vid).Committed?
    ensures Stored(kv, name, key, FindVersion(kv, e, name, key, vid).value)
  {
    hide GetLatest, GetVersion, Stored, NullsExact;
    if vid.None? { LatestStored(kv, name, key); } else { VersionStored(kv, name, key, vid.value); }
  }

  lemma EndsRetention(s: State, p: nat)
    requires Inv(s) && p in s.procs && s.procs[p].Retaining?
    ensures var x := s.procs[p];
      Inv(Leave(DoCommit(s, CommitRetention(s.kv, x.e, x.name, x.key, x.vid, x.wanted, x.bypass, s.now)), p))
  {
    var x := s.procs[p];
    KvOfInv(s);
    PartsOfInv(s.kv, s.blobs, s.next);
    hide Inv, KvInv, VersionsValid, Unique, Homes, Numbered, Data, Content, FindVersion, RetentionRefused, Rewrite, Stored;
    var f := FindVersion(s.kv, x.e, x.name, x.key, x.vid);
    if f.Failed? || RetentionRefused(f.value.retention, x.wanted, x.bypass, s.now) {
      Quits(s, Leave(s, p));
    } else {
      FoundStored(s.kv, x.e, x.name, x.key, x.vid);
      Rewrites(s, p, x.name, x.key, f.value, f.value.(retention := x.wanted));
    }
  }

  lemma EndsHold(s: State, p: nat)
    requires Inv(s) && p in s.procs && s.procs[p].Holding?
    ensures var x := s.procs[p]; Inv(Leave(DoCommit(s, CommitHold(s.kv, x.e, x.name, x.key, x.vid, x.on)), p))
  {
    var x := s.procs[p];
    KvOfInv(s);
    PartsOfInv(s.kv, s.blobs, s.next);
    hide Inv, KvInv, VersionsValid, Unique, Homes, Numbered, Data, Content, FindVersion, Rewrite, Stored;
    var f := FindVersion(s.kv, x.e, x.name, x.key, x.vid);
    if f.Failed? {
      Quits(s, Leave(s, p));
    } else {
      FoundStored(s.kv, x.e, x.name, x.key, x.vid);
      Rewrites(s, p, x.name, x.key, f.value, f.value.(legalHold := x.on));
    }
  }
}
