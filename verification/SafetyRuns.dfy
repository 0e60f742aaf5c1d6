/** Bucket transactions, and the main result over whole runs: no record ever loses its data. */
module SafetyRuns {
  import opened Records
  import opened Service
  import opened Protocol
  import opened Safety
  import opened SafetyKv
  import opened SafetyBlobs
  import opened SafetyPut
  import opened SafetySteps

  // ----- bucket records

  /** A change of the bucket records that leaves live the bucket of every record. */
  lemma BucketsKeep(kv: Kv, kv': Kv, blobs: map<Blob, seq<Byte>>, next: nat, next': nat)
    requires KvInv(kv, blobs, next) && kv' == kv.(buckets := kv'.buckets) && next <= next'
    requires forall n :: LiveName(kv, n) ==> LiveName(kv', n)
    requires forall n :: n in kv'.buckets ==> kv'.buckets[n].created < next'
    ensures KvInv(kv', blobs, next')
  {
    PartsOfInv(kv, blobs, next);
    hide KvInv;
    SameNames(kv', kv);
    SameRecords(kv', kv);
    assert Homes(kv') && Numbered(kv', blobs, next') && Content(kv', blobs) by {
      hide VersionsValid, Unique, Data, BodyOk, SumOk, UploadOk;
    }
    hide VersionsValid, Homes, Numbered, Content, PartAt, BlobAt;
    WithinUnique(kv', kv);
    SameData(kv', kv, blobs);
    hide Data, Unique;
    IsInv(kv', blobs, next');
  }

  /** Bucket records are added or changed, but no bucket goes. */
  lemma BucketsEvolve(s: State, s': State)
    requires s'.kv == s.kv.(buckets := s'.kv.buckets) && s'.blobs == s.blobs && s.next <= s'.next
    requires forall n :: n in s'.kv.buckets ==> n in s.kv.buckets || s'.kv.buckets[n].created >= s.next
    requires forall n :: n in s.kv.buckets ==> n in s'.kv.buckets && SameOrDying(s.kv.buckets[n], s'.kv.buckets[n])
    ensures Evolves(s, s', NOTHING)
  {
    SameNames(s'.kv, s.kv);
    hide Named, PartAt, BlobAt;
  }

  lemma BucketsOf(s: State)
    requires Inv(s)
    ensures forall n :: n in s.kv.buckets ==> s.kv.buckets[n].created < s.next
  {
    KvOfInv(s);
    PartsOfInv(s.kv, s.blobs, s.next);
    hide Inv, KvInv, VersionsValid, Unique, Homes, Data, Content;
  }

  /** What creating a bucket changes. */
  lemma CreateIs(s: State, name: Name, lock: bool)
    requires forall n :: n in s.kv.buckets ==> s.kv.buckets[n].created < s.next
    ensures var s' := DoCommit(s, CommitCreateBucket(s.kv, name, s.next, lock)).(next := s.next + 1);
      s'.kv == s.kv.(buckets := s'.kv.buckets) && s'.blobs == s.blobs && s'.procs == s.procs &&
      (forall n :: LiveName(s.kv, n) ==> LiveName(s'.kv, n)) &&
      (forall n :: n in s'.kv.buckets ==> s'.kv.buckets[n].created < s.next + 1) &&
      (forall n :: n in s'.kv.buckets ==> n in s.kv.buckets || s'.kv.buckets[n].created >= s.next) &&
      forall n :: n in s.kv.buckets ==> n in s'.kv.buckets && SameOrDying(s.kv.buckets[n], s'.kv.buckets[n])
  {
    var s' := DoCommit(s, CommitCreateBucket(s.kv, name, s.next, lock)).(next := s.next + 1);
    if name in s.kv.buckets {
      assert s' == s.(next := s.next + 1);
    } else {
      assert exists b: Bucket :: b.created == s.next && !b.deleting && s' == s.(kv := s.kv.(buckets := s.kv.buckets[name := b]), next := s.next + 1) by {
        assert s' == s.(kv := s.kv.(buckets := s.kv.buckets[name := Bucket(s.next, false, if lock then Enabled else Unversioned, lock, None)]), next := s.next + 1);
      }
    }
    hide DoCommit, CommitCreateBucket;
  }

  lemma Creates(s: State, name: Name, lock: bool)
    requires Inv(s)
    ensures Inv(DoCommit(s, CommitCreateBucket(s.kv, name, s.next, lock)).(next := s.next + 1))
  {
    hide *;
    var s' := DoCommit(s, CommitCreateBucket(s.kv, name, s.next, lock)).(next := s.next + 1);
    BucketsOf(s);
    CreateIs(s, name, lock);
    KvOfInv(s);
    BucketsKeep(s.kv, s'.kv, s.blobs, s.next, s.next + 1);
    BucketsEvolve(s, s');
    MovesOut(s, s');
  }

  /** The settings of a live bucket change. */
  lemma Settles(s: State, name: Name, b: Bucket)
    requires Inv(s) && LiveName(s.kv, name) && b.created == s.kv.buckets[name].created && !b.deleting
    ensures Inv(s.(kv := s.kv.(buckets := s.kv.buckets[name := b])))
  {
    var s' := s.(kv := s.kv.(buckets := s.kv.buckets[name := b]));
    BucketsOf(s);
    KvOfInv(s);
    hide Inv, KvInv;
    BucketsKeep(s.kv, s'.kv, s.blobs, s.next, s.next);
    BucketsEvolve(s, s');
    hide Evolves;
    MovesOut(s, s');
  }

  lemma SetsVersioning(s: State, e: Expect, name: Name, v: Versioning)
    requires Inv(s) && v != Unversioned
    ensures Inv(DoCommit(s, CommitVersioning(s.kv, e, name, v)))
  {
    hide Inv;
    if CommitVersioning(s.kv, e, name, v).Committed? {
      Settles(s, name, s.kv.buckets[name].(versioning := v));
    }
  }

  lemma SetsLock(s: State, e: Expect, name: Name, c: Option<LockConfig>)
    requires Inv(s)
    ensures Inv(DoCommit(s, CommitLockConfig(s.kv, e, name, c)))
  {
    hide Inv;
    if CommitLockConfig(s.kv, e, name, c).Committed? {
      Settles(s, name, s.kv.buckets[name].(lock := true, lockDefault := c));
    }
  }

  // ----- removal of a bucket

  /** The store without the records of bucket `name`, which is marked as being deleted. */
  function Emptied(kv: Kv, name: Name): Kv
    requires name in kv.buckets
  {
    MarkDeleting(WithoutUploads(WithoutObjects(kv, name), name), name)
  }

  lemma EmptiedVersions(kv: Kv, name: Name)
    requires VersionsValid(kv) && name in kv.buckets
    ensures VersionsValid(Emptied(kv, name))
  {
    var kv' := Emptied(kv, name);
    forall p | p in kv'.nulls
      ensures PointsToNull(kv', p)
    {
      assert PointsToNull(kv, p);
    }
    forall i | i in kv'.objects && kv'.objects[i].vid == NullId
      ensures IsPointed(kv', i)
    {
      assert IsPointed(kv, i);
    }
  }

  lemma EmptiedWithin(kv: Kv, name: Name)
    requires Homes(kv) && name in kv.buckets
    ensures Within(Emptied(kv, name), kv) && Homes(Emptied(kv, name)) && Emptied(kv, name).buckets.Keys == kv.buckets.Keys
    ensures forall n :: n in kv.buckets ==> SameOrDying(kv.buckets[n], Emptied(kv, name).buckets[n])
    ensures Emptied(kv, name).buckets[name].deleting
  {
  }

  /** An empty bucket has no null pointers, so hiding it removes everything in it. */
  lemma EmptyHasNoNulls(kv: Kv, name: Name)
    requires VersionsValid(kv) && !HasObjects(kv, name) && name in kv.buckets
    ensures MarkDeleting(WithoutUploads(kv, name), name) == Emptied(kv, name)
  {
    forall p | p in kv.nulls
      ensures p.bucket != name
    {
      assert PointsToNull(kv, p);
    }
    assert kv.objects == (map o | o in kv.objects && o.bucket != name :: kv.objects[o]);
    assert kv.nulls == (map n | n in kv.nulls && n.bucket != name :: kv.nulls[n]);
  }

  lemma FinishingPasses(kv: Kv, blobs: map<Blob, seq<Byte>>, next: nat, y: Proc, name: Name, kv': Kv)
    requires LiveName(kv, name) && name in kv'.buckets && kv'.buckets[name].deleting
    ensures Passes(kv, next, y, NOTHING, Finishing(name)) && ProcOk(kv', blobs, next, Finishing(name))
  {
  }

  lemma Empties(s: State, p: nat, name: Name)
    requires Inv(s) && LiveName(s.kv, name)
    ensures Inv(Become(s.(kv := Emptied(s.kv, name)), p, Finishing(name)))
  {
    var s' := Become(s.(kv := Emptied(s.kv, name)), p, Finishing(name));
    KvOfInv(s);
    PartsOfInv(s.kv, s.blobs, s.next);
    BucketsOf(s);
    EmptiedVersions(s.kv, name);
    EmptiedWithin(s.kv, name);
    hide Inv, KvInv, VersionsValid, Unique, Homes, Data, Content, Numbered, Within, Emptied, Evolves, Passes, ProcOk;
    WithinKeeps(s'.kv, s.kv, s.blobs, s.next);
    WithinEvolves(s, s');
    FinishingPasses(s.kv, s.blobs, s.next, Before(s, p), name, s'.kv);
    Moves(s, s', NOTHING, p, Finishing(name));
  }

  lemma DeletesBucket(s: State, p: nat, e: Expect, name: Name)
    requires Inv(s)
    ensures Inv(DoDeleteBucket(s, p, CommitDeleteBucket(s.kv, e, name), name))
  {
    hide Inv, Emptied;
    if CommitDeleteBucket(s.kv, e, name).Committed? {
      KvOfInv(s);
      PartsOfInv(s.kv, s.blobs, s.next);
      EmptyHasNoNulls(s.kv, name);
      Empties(s, p, name);
    }
  }

  lemma ForceDeletes(s: State, p: nat, name: Name)
    requires Inv(s)
    ensures Inv(DoDeleteBucket(s, p, CommitForceDelete(s.kv, name), name))
  {
    hide Inv;
    if CommitForceDelete(s.kv, name).Committed? {
      Empties(s, p, name);
    }
  }

  /** The last step of the removal of a bucket. */
  lemma RemovesRecord(s: State, p: nat)
    requires Inv(s) && p in s.procs && s.procs[p].FinishingRecord?
    ensures Inv(Leave(s.(kv := FinishDelete(s.kv, s.procs[p].name)), p))
  {
    var name := s.procs[p].name;
    var s0 := s.(kv := FinishDelete(s.kv, name));
    var s1 := Become(s0, p, NEWCOMER);
    var own := Own(None, None, {}, Some(name));
    ProcOf(s, p);
    RemoverOk(s, p, name);
    BucketsOf(s);
    FinishIs(s.kv, name);
    KvOfInv(s);
    Becomes(s0, p, NEWCOMER);
    LeavesOnly(s0, p);
    LeaveBecome(s0, p, NEWCOMER);
    hide *;
    BucketsKeep(s.kv, s0.kv, s.blobs, s.next, s.next);
    Forgets(s, s1, own, name);
    Moves(s, s1, own, p, NEWCOMER);
    Quits(s1, Leave(s0, p));
  }

  lemma RemoverOk(s: State, p: nat, name: Name)
    requires p in s.procs && s.procs[p] == FinishingRecord(name) && ProcOk(s.kv, s.blobs, s.next, s.procs[p])
    ensures name in s.kv.buckets && s.kv.buckets[name].deleting
    ensures Passes(s.kv, s.next, Before(s, p), Own(None, None, {}, Some(name)), NEWCOMER)
    ensures forall kv, blobs, next :: ProcOk(kv, blobs, next, NEWCOMER)
  {
    hide Named;
  }

  lemma FinishIs(kv: Kv, name: Name)
    ensures FinishDelete(kv, name) == kv.(buckets := FinishDelete(kv, name).buckets)
    ensures forall n :: LiveName(kv, n) ==> LiveName(FinishDelete(kv, name), n)
    ensures forall n :: n in FinishDelete(kv, name).buckets ==> n in kv.buckets && FinishDelete(kv, name).buckets[n] == kv.buckets[n]
  {
  }

  lemma LeaveBecome(s: State, p: nat, x: Proc)
    ensures var s', s'' := Become(s, p, x), Leave(s, p);
      s''.kv == s'.kv && s''.blobs == s'.blobs && s''.next == s'.next && forall q :: q in s''.procs ==> q in s'.procs && s''.procs[q] == s'.procs[q]
  {
  }

  lemma Forgets(s: State, s': State, own: Own, name: Name)
    requires name in s.kv.buckets && s.kv.buckets[name].deleting && own == Own(None, None, {}, Some(name))
    requires s'.kv == FinishDelete(s.kv, name) && s'.blobs == s.blobs && s'.next == s.next
    ensures Evolves(s, s', own)
  {
    SameNames(s'.kv, s.kv);
    hide Named, PartAt, BlobAt;
  }

  // ----- requests that begin

  lemma BeginsPut(s: State, st: Step)
    requires Inv(s) && Possible(s, st) && (st.BeginPut? || st.BeginUpload?)
    ensures Inv(Do(s, st))
  {
    BucketsOf(s);
    hide Inv, ValidateAttrs;
    if st.BeginPut? {
      Joins(s, st.p, Do(s, st).procs[st.p]);
    } else {
      Joins(s, st.p, Do(s, st).procs[st.p]);
    }
  }

  lemma Uploads(s: State)
    requires Inv(s)
    ensures forall u :: u in s.kv.uploads ==> u.id < s.next
  {
    KvOfInv(s);
    PartsOfInv(s.kv, s.blobs, s.next);
    hide Inv, KvInv, VersionsValid, Unique, Homes, Data, Content;
  }

  lemma BeginsOther(s: State, st: Step)
    requires Inv(s) && Possible(s, st) && (st.BeginPart? || st.BeginComplete? || st.BeginRetention? || st.BeginHold?)
    ensures Inv(Do(s, st))
  {
    BucketsOf(s);
    Uploads(s);
    Opens(s, st);
    hide *;
    Joins(s, st.p, Do(s, st).procs[st.p]);
  }

  lemma Opens(s: State, st: Step)
    requires Possible(s, st) && (st.BeginPart? || st.BeginComplete? || st.BeginRetention? || st.BeginHold?)
    requires forall n :: n in s.kv.buckets ==> s.kv.buckets[n].created < s.next
    requires forall u :: u in s.kv.uploads ==> u.id < s.next
    ensures st.p in Do(s, st).procs
    ensures var x := Do(s, st).procs[st.p]; Do(s, st) == Become(s, st.p, x) && Plain(x) && ProcOk(s.kv, s.blobs, s.next, x)
  {
    hide Named;
  }

  lemma Recovers(s: State, p: nat, name: Name)
    requires Inv(s) && s.procs == map[] && name in s.kv.buckets && s.kv.buckets[name].deleting
    ensures Inv(Become(s, p, Finishing(name)))
  {
    var s' := Become(s, p, Finishing(name));
    hide KvInv;
    assert ProcOk(s.kv, s.blobs, s.next, Finishing(name));
    hide ProcOk;
  }

  // ----- blobs written

  lemma StoresPut(s: State, p: nat, content: seq<Byte>)
    requires Inv(s) && p in s.procs && s.procs[p].Putting?
    ensures var x := s.procs[p];
      Inv(Become(s.(blobs := s.blobs[Blob(x.name, s.next) := content], next := s.next + 2), p,
                 PutStored(x.e, x.name, x.key, x.seen, PutVersion(x, s.next, content), x.c)))
  {
    hide *;
    var x := s.procs[p];
    var b, o := Blob(x.name, s.next), PutVersion(x, s.next, content);
    ProcOf(s, p);
    FreshBlob(s, b, content, s.next + 2);
    Objects(s);
    PutStoredOk(s, x, content);
    Stores(s, p, b, content, s.next + 2, PutStored(x.e, x.name, x.key, x.seen, o, x.c));
  }

  lemma PutStoredOk(s: State, x: Proc, content: seq<Byte>)
    requires x.Putting? && ProcOk(s.kv, s.blobs, s.next, x) && !Named(s.kv, Blob(x.name, s.next))
    requires forall id :: id in s.kv.objects ==> id.seqNo < s.next
    ensures var y := PutStored(x.e, x.name, x.key, x.seen, PutVersion(x, s.next, content), x.c);
      ProcOk(s.kv, s.blobs[Blob(x.name, s.next) := content], s.next + 2, y) && Claim(y) == Some(Blob(x.name, s.next)) &&
      Removes(y).None? && Doomed(y) == {} && Drawn(y) == Some(s.next + 1)
  {
    PutBodyOk(s, x, content);
    hide Named, BodyOk;
  }

  /** The sum of a put is the digest of its one part. */
  lemma PutBodyOk(s: State, x: Proc, content: seq<Byte>)
    requires x.Putting?
    ensures BodyOk(s.blobs[Blob(x.name, s.next) := content], x.name, PutVersion(x, s.next, content))
  {
    var o, blobs' := PutVersion(x, s.next, content), s.blobs[Blob(x.name, s.next) := content];
    assert o.parts[..0] == [] && TotalSize(o.parts) == |content|;
    var all := Contents(blobs', x.name, o.parts);
    assert all == [content] && all[..0] == [];
    assert Checksum.Concat([]) == [] && Body(blobs', x.name, o.parts) == content;
  }

  lemma Objects(s: State)
    requires Inv(s)
    ensures forall id :: id in s.kv.objects ==> id.seqNo < s.next
  {
    KvOfInv(s);
    PartsOfInv(s.kv, s.blobs, s.next);
    hide Inv, KvInv, VersionsValid, Unique, Homes, Data, Content;
  }

  lemma StoresPart(s: State, p: nat, content: seq<Byte>, etag: string)
    requires Inv(s) && p in s.procs && s.procs[p].PartWriting?
    ensures var x := s.procs[p];
      var sum := if x.u.alg.Some? then Some(DigestOf(x.u.alg.value, content)) else None;
      Inv(Become(s.(blobs := s.blobs[Blob(x.name, s.next) := content], next := s.next + 1), p,
                 PartStored(x.name, x.key, x.id, x.u, Part(x.number, s.next, |content|, etag, sum))))
  {
    hide *;
    var x := s.procs[p];
    var b := Blob(x.name, s.next);
    var sum := if x.u.alg.Some? then Some(DigestOf(x.u.alg.value, content)) else None;
    var y := PartStored(x.name, x.key, x.id, x.u, Part(x.number, s.next, |content|, etag, sum));
    ProcOf(s, p);
    FreshBlob(s, b, content, s.next + 1);
    PartStoredOk(s, x, content, etag);
    Stores(s, p, b, content, s.next + 1, y);
  }

  lemma PartStoredOk(s: State, x: Proc, content: seq<Byte>, etag: string)
    requires x.PartWriting? && ProcOk(s.kv, s.blobs, s.next, x) && !Named(s.kv, Blob(x.name, s.next))
    ensures var sum := if x.u.alg.Some? then Some(DigestOf(x.u.alg.value, content)) else None;
      var y := PartStored(x.name, x.key, x.id, x.u, Part(x.number, s.next, |content|, etag, sum));
      ProcOk(s.kv, s.blobs[Blob(x.name, s.next) := content], s.next + 1, y) && Claim(y) == Some(Blob(x.name, s.next)) &&
      Removes(y).None? && Doomed(y) == {} && Drawn(y).None?
  {
    hide Named, DigestOf;
  }

  // ----- every step

  predicate Opening(st: Step) {
    st.BeginPut? || st.BeginUpload? || st.BeginPart? || st.BeginComplete? || st.BeginRetention? || st.BeginHold? || st.StorePut? || st.StorePart?
  }

  predicate Committing(st: Step) {
    st.EndPut? || st.EndUpload? || st.EndPart? || st.EndComplete? || st.Abort? || st.Delete? || st.EndRetention? || st.EndHold?
  }

  predicate OnBucket(st: Step) {
    st.CreateBucket? || st.SetVersioning? || st.SetLock? || st.DeleteBucket? || st.ForceDeleteBucket? || st.RemoveDir? || st.RemoveRecord?
  }

  lemma OpeningKeeps(s: State, st: Step)
    requires Inv(s) && Possible(s, st) && Opening(st)
    ensures Inv(Do(s, st))
  {
    hide Inv, ValidateAttrs, DigestOf, Become, GetLiveBucket, GetUpload, Readable;
    match st
    case BeginPut(_, _, _, _, _, _, _, _) => BeginsPut(s, st);
    case StorePut(p, content) => StoresPut(s, p, content);
    case BeginUpload(_, _, _, _, _, _, _) => BeginsPut(s, st);
    case BeginPart(_, _, _, _, _) => BeginsOther(s, st);
    case StorePart(p, content, etag) => StoresPart(s, p, content, etag);
    case BeginComplete(_, _, _, _, _, _) => BeginsOther(s, st);
    case BeginRetention(_, _, _, _, _, _, _) => BeginsOther(s, st);
    case BeginHold(_, _, _, _, _, _) => BeginsOther(s, st);
  }

  lemma CommittingKeeps(s: State, st: Step)
    requires Inv(s) && Possible(s, st) && Committing(st)
    ensures Inv(Do(s, st))
  {
    hide Inv, DoEndPut, DoEndUpload, DoEndPart, DoEndComplete, DoAbort, DoDelete, DoCommit, CommitRetention, CommitHold, Leave;
    match st
    case EndPut(p, random) => EndsPut(s, p, random);
    case EndUpload(p) => EndsUpload(s, p);
    case EndPart(p) => EndsPart(s, p);
    case EndComplete(p, random) => EndsComplete(s, p, random);
    case Abort(p, e, name, key, id) => Aborts(s, p, e, name, key, id);
    case Delete(p, e, name, key, d, random) => Deletes(s, p, e, name, key, d, random);
    case EndRetention(p) => EndsRetention(s, p);
    case EndHold(p) => EndsHold(s, p);
  }

  lemma BucketKeeps(s: State, st: Step)
    requires Inv(s) && Possible(s, st) && OnBucket(st)
    ensures Inv(Do(s, st))
  {
    hide Inv, DoCommit, DoDeleteBucket, CommitCreateBucket, CommitVersioning, CommitLockConfig, CommitDeleteBucket, CommitForceDelete,
      FinishDelete, Become, Leave;
    match st
    case CreateBucket(name, lock) => Creates(s, name, lock);
    case SetVersioning(e, name, v) => SetsVersioning(s, e, name, v);
    case SetLock(e, name, lockConfig) => SetsLock(s, e, name, lockConfig);
    case DeleteBucket(p, e, name) => DeletesBucket(s, p, e, name);
    case ForceDeleteBucket(p, name) => ForceDeletes(s, p, name);
    case RemoveDir(p) => RemovesDir(s, p);
    case RemoveRecord(p) => RemovesRecord(s, p);
  }

  /** Every step of every request, every crash and every recovery keeps the invariant. */
  lemma StepKeeps(s: State, st: Step)
    requires Inv(s) && Possible(s, st)
    ensures Inv(Do(s, st))
  {
    hide Inv, ValidateAttrs, DoEndPut, DoEndUpload, DoEndPart, DoEndComplete, DoAbort, DoDelete, DoCommit, DoDeleteBucket, FinishDelete,
      DigestOf;
    if Opening(st) {
      OpeningKeeps(s, st);
    } else if Committing(st) {
      CommittingKeeps(s, st);
    } else if OnBucket(st) {
      BucketKeeps(s, st);
    } else {
      match st
      case Clean(p, b) => Cleans(s, p, b);
      case Drop(p) => Quits(s, Leave(s, p));
      case Crash => Quits(s, s.(procs := map[], serving := false));
      case Recover(p, name) => Recovers(s, p, name);
      case Serve => Quits(s, s.(serving := true));
      case Tick(time) => Quits(s, s.(now := s.now + time));
    }
  }

  lemma EmptyInv()
    ensures Inv(EMPTY)
  {
    assert forall r :: BlobAt(EMPTY.kv, r).None?;
  }

  lemma RunStarts(states: seq<State>, steps: seq<Step>)
    requires IsRun(states, steps)
    ensures |states| == |steps| + 1 && states[0] == EMPTY
  {
    hide Possible, Do;
  }

  lemma RunStep(states: seq<State>, steps: seq<Step>, i: nat)
    requires IsRun(states, steps) && i < |steps|
    ensures |states| == |steps| + 1
    ensures Possible(states[i], steps[i]) && states[i + 1] == Do(states[i], steps[i])
  {
    hide Possible, Do;
  }

  lemma {:induction false} RunInv(states: seq<State>, steps: seq<Step>, i: nat)
    requires IsRun(states, steps) && i < |states|
    ensures Inv(states[i])
  {
    hide *;
    RunStarts(states, steps);
    if i == 0 {
      EmptyInv();
    } else {
      RunInv(states, steps, i - 1);
      RunStep(states, steps, i - 1);
      StepKeeps(states[i - 1], steps[i - 1]);
    }
  }

  /** In every reachable state, every blob that an object or part record names exists, has the
      recorded length, and is named by no other record. */
  lemma NoRecordLosesData(states: seq<State>, steps: seq<Step>, i: nat, r: Ref)
    requires IsRun(states, steps) && i < |states|
    requires BlobAt(states[i].kv, r).Some?
    ensures var b := BlobAt(states[i].kv, r).value;
      b in states[i].blobs && |states[i].blobs[b]| == PartAt(states[i].kv, r).value.size
    ensures forall q :: BlobAt(states[i].kv, q) == BlobAt(states[i].kv, r) ==> q == r
  {
    RunInv(states, steps, i);
    KvOfInv(states[i]);
    PartsOfInv(states[i].kv, states[i].blobs, states[i].next);
    hide IsRun, Inv, KvInv, VersionsValid, Homes, Numbered, Content, BlobAt;
  }

  /** In every reachable state, an object has the size of its body, which is the concatenation
      of its parts, and a full-object checksum on it is the checksum of that body. */
  lemma EveryBodyIsRight(states: seq<State>, steps: seq<Step>, i: nat, id: ObjectId)
    requires IsRun(states, steps) && i < |states| && id in states[i].kv.objects
    ensures var o := states[i].kv.objects[id];
      BodyOk(states[i].blobs, id.bucket, o) && |Body(states[i].blobs, id.bucket, o.parts)| == o.size
  {
    var s := states[i];
    RunInv(states, steps, i);
    KvOfInv(s);
    PartsOfInv(s.kv, s.blobs, s.next);
    hide IsRun, Inv, KvInv, VersionsValid, Homes, Numbered, Unique;
    var parts := s.kv.objects[id].parts;
    forall k | 0 <= k < |parts|
      ensures Holds(s.blobs, Blob(id.bucket, parts[k].blob), parts[k])
    {
      assert BlobAt(s.kv, ObjRef(id, k)).Some?;
    }
    BodyLength(s.blobs, id.bucket, parts);
  }

  lemma {:induction false} BodyLength(blobs: map<Blob, seq<Byte>>, name: Name, parts: seq<Part>)
    requires forall k :: 0 <= k < |parts| ==> Holds(blobs, Blob(name, parts[k].blob), parts[k])
    ensures |Body(blobs, name, parts)| == TotalSize(parts)
    decreases |parts|
  {
    var c := Contents(blobs, name, parts);
    if parts != [] {
      BodyLength(blobs, name, parts[..|parts| - 1]);
      assert Contents(blobs, name, parts[..|parts| - 1]) == c[..|parts| - 1];
    }
  }

  /** In every reachable state, the null pointer of a key exists exactly when the key has a
      null version, which is then unique. */
  lemma NullPointersExact(states: seq<State>, steps: seq<Step>, i: nat, bucket: Name, key: Key)
    requires IsRun(states, steps) && i < |states|
    ensures NullPtr(bucket, key) in states[i].kv.nulls <==> exists n: nat :: IsNullVersion(states[i].kv, bucket, key, n)
    ensures forall n: nat, m: nat ::
      IsNullVersion(states[i].kv, bucket, key, n) && IsNullVersion(states[i].kv, bucket, key, m) ==> n == m
  {
    RunInv(states, steps, i);
    KvOfInv(states[i]);
    PartsOfInv(states[i].kv, states[i].blobs, states[i].next);
    hide IsRun, Inv, KvInv, VersionsValid, Homes, Numbered, Unique, Data, Content;
    NullVersionUnique(states[i].kv, bucket, key);
  }

  /** The bytes of blobs, the clock and the identifiers after a step. */
  ghost predicate Onward(s: State, s': State) {
    s.next <= s'.next && s.now <= s'.now && forall b :: b in s'.blobs ==> b.id >= s.next || (b in s.blobs && s'.blobs[b] == s.blobs[b])
  }

  lemma EndsOnward(s: State, st: Step)
    requires Possible(s, st) && (st.EndPut? || st.EndUpload? || st.EndPart? || st.EndComplete?)
    ensures Onward(s, Do(s, st))
  {
    hide CommitPut, CommitUpload, CommitPart, CommitComplete, PartBlobs, ObjectBlobs, BlobsOf;
  }

  lemma RequestsOnward(s: State, st: Step)
    requires Possible(s, st) && (st.Abort? || st.Delete? || st.EndRetention? || st.EndHold?)
    ensures Onward(s, Do(s, st))
  {
    hide CommitAbort, CommitDelete, CommitRetention, CommitHold, PartBlobs, ObjectBlobs, BlobsOf;
  }

  lemma BucketsOnward(s: State, st: Step)
    requires Possible(s, st) && OnBucket(st)
    ensures Onward(s, Do(s, st))
  {
    hide CommitCreateBucket, CommitVersioning, CommitLockConfig, CommitDeleteBucket, CommitForceDelete, FinishDelete;
  }

  lemma OpeningOnward(s: State, st: Step)
    requires Possible(s, st) && Opening(st)
    ensures Onward(s, Do(s, st))
  {
    hide ValidateAttrs, DigestOf, GetUpload, GetLiveBucket, Readable;
  }

  /** One step never changes the bytes of a blob, and hands out only new identifiers; time never
      runs backwards. */
  lemma StepSparesBytes(s: State, st: Step)
    requires Possible(s, st)
    ensures Onward(s, Do(s, st))
  {
    if Opening(st) {
      OpeningOnward(s, st);
    } else if OnBucket(st) {
      BucketsOnward(s, st);
    } else if st.EndPut? || st.EndUpload? || st.EndPart? || st.EndComplete? {
      EndsOnward(s, st);
    } else if Committing(st) {
      RequestsOnward(s, st);
    } else {
      hide DoEndPut, DoEndUpload, DoEndPart, DoEndComplete, DoAbort, DoDelete, DoCommit, DoDeleteBucket, ValidateAttrs, GetUpload,
        GetLiveBucket, Readable, DigestOf;
    }
  }

  lemma OnwardMeans(s: State, s': State, b: Blob)
    requires Onward(s, s')
    ensures s.next <= s'.next && s.now <= s'.now
    ensures b in s'.blobs ==> b.id >= s.next || (b in s.blobs && s'.blobs[b] == s.blobs[b])
  {
  }

  /** While a blob exists its bytes never change, and once it is gone it never comes back. */
  lemma {:induction false} BytesNeverChange(states: seq<State>, steps: seq<Step>, i: nat, j: nat, b: Blob)
    requires IsRun(states, steps) && i <= j < |states|
    requires b.id < states[i].next && b in states[j].blobs
    ensures b in states[i].blobs && states[j].blobs[b] == states[i].blobs[b]
    ensures b.id < states[j].next
    decreases j
  {
    hide *;
    if i < j {
      RunStarts(states, steps);
      RunStep(states, steps, j - 1);
      NextNeverFalls(states, steps, i, j - 1);
      StepSparesBytes(states[j - 1], steps[j - 1]);
      OnwardMeans(states[j - 1], states[j], b);
      BytesNeverChange(states, steps, i, j - 1, b);
    }
  }

  lemma {:induction false} NextNeverFalls(states: seq<State>, steps: seq<Step>, i: nat, j: nat)
    requires IsRun(states, steps) && i <= j < |states|
    ensures states[i].next <= states[j].next
    decreases j
  {
    hide *;
    if i < j {
      RunStarts(states, steps);
      RunStep(states, steps, j - 1);
      StepSparesBytes(states[j - 1], steps[j - 1]);
      OnwardMeans(states[j - 1], states[j], Blob("", 0));
      NextNeverFalls(states, steps, i, j - 1);
    }
  }

  /** What a reader gets from a version is fixed: the same parts read the same at any two times. */
  lemma BodyNeverChanges(states: seq<State>, steps: seq<Step>, i: nat, j: nat, id: ObjectId)
    requires IsRun(states, steps) && i <= j < |states|
    requires id in states[i].kv.objects && id in states[j].kv.objects
    requires states[j].kv.objects[id].parts == states[i].kv.objects[id].parts
    ensures var parts := states[i].kv.objects[id].parts;
      Body(states[j].blobs, id.bucket, parts) == Body(states[i].blobs, id.bucket, parts)
  {
    var parts := states[i].kv.objects[id].parts;
    hide IsRun;
    forall k | 0 <= k < |parts|
      ensures var b := Blob(id.bucket, parts[k].blob);
        b in states[j].blobs && b in states[i].blobs && states[j].blobs[b] == states[i].blobs[b]
    {
      NoRecordLosesData(states, steps, j, ObjRef(id, k));
      NoRecordLosesData(states, steps, i, ObjRef(id, k));
      RunInv(states, steps, i);
      hide Inv;
      BlobIds(states[i]);
      BytesNeverChange(states, steps, i, j, Blob(id.bucket, parts[k].blob));
    }
    assert Contents(states[j].blobs, id.bucket, parts) == Contents(states[i].blobs, id.bucket, parts);
  }

  lemma BlobIds(s: State)
    requires Inv(s)
    ensures forall b :: b in s.blobs ==> b.id < s.next
  {
    KvOfInv(s);
    PartsOfInv(s.kv, s.blobs, s.next);
    hide Inv, KvInv, VersionsValid, Unique, Homes, Data, Content;
  }
}
