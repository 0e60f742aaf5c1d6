/** Object lock: in runs without forced bucket deletion, a version under compliance retention
    or under legal hold is never removed. */
module Worm {
  import opened Records
  import opened Service
  import opened Protocol
  import opened Safety
  import opened SafetyKv
  import opened SafetyBlobs
  import opened SafetyPut
  import opened SafetySteps
  import opened SafetyRuns

  // ----- what protection means

  predicate Retained(o: Object, now: int) {
    o.retention.Some? && o.retention.value.mode == Compliance && now < o.retention.value.until
  }

  predicate Guarded(o: Object, now: int) {
    o.legalHold || Retained(o, now)
  }

  /** `o'` holds the data of `o`, and does not weaken its retention. */
  predicate Upholds(o: Object, o': Object, now: int) {
    && SameBody(o', o) && o'.vid == o.vid && o'.seqNo == o.seqNo && o'.deleteMarker == o.deleteMarker
    && (Retained(o, now) ==>
          o'.retention.Some? && o'.retention.value.mode == Compliance && o'.retention.value.until >= o.retention.value.until)
  }

  /** Every guarded version of `kv` is upheld in `kv'`; only `released` may lose its hold. */
  ghost predicate Survive(kv: Kv, kv': Kv, now: int, released: Option<ObjectId>) {
    forall id :: id in kv.objects && Guarded(kv.objects[id], now) ==>
      id in kv'.objects && Upholds(kv.objects[id], kv'.objects[id], now) &&
      (kv.objects[id].legalHold && released != Some(id) ==> kv'.objects[id].legalHold)
  }

  // ----- the invariant of the lock

  predicate Protects(retention: Option<Retention>, hold: bool) {
    retention.Some? || hold
  }

  predicate LockedBucket(kv: Kv, n: Name) {
    n in kv.buckets && kv.buckets[n].lock
  }

  /** A bucket with object lock keeps all versions, and only such buckets hold protected
      versions or uploads. */
  ghost predicate LockKv(kv: Kv) {
    && LockMeansVersions(kv)
    && (forall id :: id in kv.objects && Protects(kv.objects[id].retention, kv.objects[id].legalHold) ==> LockedBucket(kv, id.bucket))
    && (forall u :: u in kv.uploads && Protects(kv.uploads[u].retention, kv.uploads[u].legalHold) ==> LockedBucket(kv, u.bucket))
  }

  predicate LockMeansVersions(kv: Kv) {
    forall n :: n in kv.buckets && kv.buckets[n].lock ==> kv.buckets[n].versioning == Versioning.Enabled
  }

  /** The bucket a request read is older than or the same as the one that stands there now, and
      the same one has not lost its lock. */
  predicate SeenOk(kv: Kv, name: Name, seen: Bucket) {
    name in kv.buckets ==>
      kv.buckets[name].created >= seen.created && (kv.buckets[name].created == seen.created && seen.lock ==> kv.buckets[name].lock)
  }

  predicate Bound(e: Expect, seen: Bucket) {
    e.bucketCreated.Some? && e.bucketCreated.value <= seen.created
  }

  /** A request that will protect a version saw a bucket with object lock. */
  predicate LockProc(kv: Kv, x: Proc) {
    match x
    case Putting(_, name, _, seen, retention, hold, _, _, _) => SeenOk(kv, name, seen) && (Protects(retention, hold) ==> seen.lock)
    case PutStored(_, name, _, seen, o, _) => SeenOk(kv, name, seen) && (Protects(o.retention, o.legalHold) ==> seen.lock)
    case StartingUpload(e, name, seen, u) =>
      SeenOk(kv, name, seen) && Bound(e, seen) && (Protects(u.retention, u.legalHold) ==> seen.lock)
    case Retaining(e, name, _, seen, _, _, _) => SeenOk(kv, name, seen) && Bound(e, seen) && seen.lock
    case Holding(e, name, _, seen, _, _) => SeenOk(kv, name, seen) && Bound(e, seen) && seen.lock
    case _ => true
  }

  ghost predicate LockInv(s: State) {
    LockKv(s.kv) && forall p :: p in s.procs ==> LockProc(s.kv, s.procs[p])
  }

  /** A step of a run without forced bucket deletion, whose requests carry the creation time of
      the bucket they were authorised against, as every API request does. */
  predicate Careful(st: Step) {
    match st
    case ForceDeleteBucket(_, _) => false
    case BeginUpload(_, e, _, _, _, _, _) => e.bucketCreated.Some?
    case BeginRetention(_, e, _, _, _, _, _) => e.bucketCreated.Some?
    case BeginHold(_, e, _, _, _, _) => e.bucketCreated.Some?
    case _ => true
  }

  // ----- how buckets change

  /** Live buckets stay, no bucket loses its lock, and new ones are new. */
  ghost predicate LocksStay(kv: Kv, kv': Kv, next: nat) {
    && (forall n :: LiveName(kv, n) ==> n in kv'.buckets)
    && (forall n :: n in kv'.buckets ==>
          kv'.buckets[n].created >= next ||
          (n in kv.buckets && kv'.buckets[n].created == kv.buckets[n].created && (kv.buckets[n].lock ==> kv'.buckets[n].lock)))
    && (forall n :: n in kv'.buckets && LiveName(kv, n) ==> kv'.buckets[n].created == kv.buckets[n].created)
  }

  function Seen(x: Proc): Option<Bucket> {
    match x
    case Putting(_, _, _, seen, _, _, _, _, _) => Some(seen)
    case PutStored(_, _, _, seen, _, _) => Some(seen)
    case StartingUpload(_, _, seen, _) => Some(seen)
    case Retaining(_, _, _, seen, _, _, _) => Some(seen)
    case Holding(_, _, _, seen, _, _) => Some(seen)
    case _ => None
  }

  lemma ProcStays(kv: Kv, kv': Kv, next: nat, x: Proc)
    requires LockProc(kv, x) && LocksStay(kv, kv', next) && (Seen(x).Some? ==> Seen(x).value.created < next)
    ensures LockProc(kv', x)
  {
  }

  /** Seen buckets are old. */
  lemma SeenOld(s: State, p: nat)
    requires Inv(s) && p in s.procs
    ensures Seen(s.procs[p]).Some? ==> Seen(s.procs[p]).value.created < s.next
  {
    ProcOf(s, p);
    hide Inv, Named;
  }

  /** Request `p` (or none) moves on, and the store stays well locked. */
  lemma LockMoves(s: State, s': State, p: nat)
    requires Inv(s) && LockInv(s) && LockKv(s'.kv) && LocksStay(s.kv, s'.kv, s.next)
    requires forall q :: q in s'.procs && q != p ==> q in s.procs && s'.procs[q] == s.procs[q]
    requires p in s'.procs ==> LockProc(s'.kv, s'.procs[p])
    ensures LockInv(s')
  {
    hide Inv, LockKv, LocksStay, LockProc, Seen;
    forall q | q in s'.procs && q != p
      ensures LockProc(s'.kv, s'.procs[q])
    {
      SeenOld(s, q);
      ProcStays(s.kv, s'.kv, s.next, s.procs[q]);
    }
  }

  // ----- how records change

  /** New protection only appears in locked buckets. */
  ghost predicate ProtectionFounded(kv: Kv, kv': Kv) {
    && (forall id :: id in kv'.objects && Protects(kv'.objects[id].retention, kv'.objects[id].legalHold) ==>
          LockedBucket(kv, id.bucket) && LiveName(kv, id.bucket))
    && (forall u :: u in kv'.uploads && Protects(kv'.uploads[u].retention, kv'.uploads[u].legalHold) ==>
          LockedBucket(kv, u.bucket) && LiveName(kv, u.bucket))
  }

  lemma FoundedKv(kv: Kv, kv': Kv, next: nat)
    requires ProtectionFounded(kv, kv') && LocksStay(kv, kv', next) && LockMeansVersions(kv')
    requires forall n :: n in kv.buckets ==> kv.buckets[n].created < next
    ensures LockKv(kv')
  {
  }

  /** In the store as it is, all protection is founded. */
  lemma Founded(kv: Kv)
    requires LockKv(kv) && Homes(kv)
    ensures ProtectionFounded(kv, kv)
  {
  }

  lemma SameBuckets(kv: Kv, kv': Kv, next: nat)
    requires kv'.buckets == kv.buckets
    ensures LocksStay(kv, kv', next)
    ensures LockMeansVersions(kv) ==> LockMeansVersions(kv')
  {
  }

  /** What the write of a new version does: versions of a locked bucket are all kept. */
  lemma WriteSurvives(kv: Kv, name: Name, key: Key, o: Object, now: int)
    requires VersionsValid(kv) && LockKv(kv) && NewVersion(kv, name, key, o)
    requires o.vid == NullId ==> !LockedBucket(kv, name)
    ensures Survive(kv, PutObject(kv, name, key, o), now, None)
  {
    PutObjectEffect(kv, name, key, o);
    hide VersionsValid, LockedBucket, LockMeansVersions;
    var kv' := PutObject(kv, name, key, o);
    forall id | id in kv.objects && Guarded(kv.objects[id], now)
      ensures id in kv'.objects && kv'.objects[id] == kv.objects[id]
    {
      assert LockedBucket(kv, id.bucket);
      assert !IsReplaced(kv, name, key, o, id);
    }
  }

  lemma WriteFounded(kv: Kv, name: Name, key: Key, o: Object)
    requires VersionsValid(kv) && ProtectionFounded(kv, kv) && NewVersion(kv, name, key, o)
    requires Protects(o.retention, o.legalHold) ==> LockedBucket(kv, name) && LiveName(kv, name)
    ensures ProtectionFounded(kv, PutObject(kv, name, key, o))
  {
    PutObjectEffect(kv, name, key, o);
    hide VersionsValid, LockedBucket, LiveName;
  }

  // ----- the facts that every step starts from

  lemma Facts(s: State)
    requires Inv(s) && LockInv(s)
    ensures VersionsValid(s.kv) && Homes(s.kv) && LockKv(s.kv) && LockMeansVersions(s.kv) && ProtectionFounded(s.kv, s.kv)
    ensures Numbered(s.kv, s.blobs, s.next)
    ensures forall n :: n in s.kv.buckets ==> s.kv.buckets[n].created < s.next
  {
    KvOfInv(s);
    PartsOfInv(s.kv, s.blobs, s.next);
    BucketsOf(s);
    Founded(s.kv);
    hide Inv, KvInv, VersionsValid, Homes, Numbered, Unique, Data, Content;
  }

  lemma LockOf(s: State, p: nat)
    requires LockInv(s) && p in s.procs
    ensures LockProc(s.kv, s.procs[p])
  {
    hide LockProc, LockKv;
  }

  /** A record step that leaves the buckets alone. */
  lemma RecordStep(s: State, s': State, p: nat)
    requires Inv(s) && LockInv(s) && s'.kv.buckets == s.kv.buckets && ProtectionFounded(s.kv, s'.kv)
    requires forall q :: q in s'.procs && q != p ==> q in s.procs && s'.procs[q] == s.procs[q]
    requires p in s'.procs ==> LockProc(s'.kv, s'.procs[p])
    ensures LockInv(s')
  {
    Facts(s);
    SameBuckets(s.kv, s'.kv, s.next);
    FoundedKv(s.kv, s'.kv, s.next);
    hide *;
    LockMoves(s, s', p);
  }

  lemma Unchanged(kv: Kv, now: int)
    ensures Survive(kv, kv, now, None)
  {
  }

  lemma CleaningLock(kv: Kv, blobs: set<Blob>)
    ensures LockProc(kv, Cleaning(blobs))
  {
  }

  // ----- writes

  /** What the end of a put does to the records. */
  lemma PutIs(s: State, p: nat, random: nat) returns (o: Object)
    requires p in s.procs && s.procs[p].PutStored?
    ensures var x, s' := s.procs[p], DoEndPut(s, p, random);
      p in s'.procs && LockProc(s'.kv, s'.procs[p]) && (forall q :: q in s'.procs && q != p ==> q in s.procs && s'.procs[q] == s.procs[q]) &&
      (s'.kv == s.kv ||
        (s'.kv == PutObject(s.kv, x.name, x.key, o) && Incarnation(s.kv, x.name, x.seen) && o == x.o.(vid := o.vid) &&
         (o.vid == NullId || (o.vid.SeqId? && o.vid.seqNo == o.seqNo)) && (o.vid == NullId ==> s.kv.buckets[x.name].versioning != Versioning.Enabled)))
  {
    hide PutObject, Replaced, GetVersion, CheckWriteConditions, BlobsOf, ObjectBlobs, BucketExpected;
    var x := s.procs[p];
    o := if x.name in s.kv.buckets then x.o.(vid := VersionIdFor(s.kv.buckets[x.name], x.o.seqNo, random)) else x.o;
  }

  lemma PutIsLocked(s: State, p: nat, random: nat)
    requires Inv(s) && LockInv(s) && p in s.procs && s.procs[p].PutStored?
    ensures LockInv(DoEndPut(s, p, random)) && Survive(s.kv, DoEndPut(s, p, random).kv, s.now, None)
  {
    var s' := DoEndPut(s, p, random);
    var o := PutIs(s, p, random);
    Facts(s);
    LockOf(s, p);
    Unchanged(s.kv, s.now);
    if s'.kv != s.kv {
      PutProtects(s, p, o);
      hide *;
      RecordStep(s, s', p);
    } else {
      hide *;
      RecordStep(s, s', p);
    }
  }

  lemma PutProtects(s: State, p: nat, o: Object)
    requires Inv(s) && LockInv(s) && p in s.procs && s.procs[p].PutStored? && Incarnation(s.kv, s.procs[p].name, s.procs[p].seen)
    requires o == s.procs[p].o.(vid := o.vid) && (o.vid == NullId || (o.vid.SeqId? && o.vid.seqNo == o.seqNo))
    requires o.vid == NullId ==> s.kv.buckets[s.procs[p].name].versioning != Versioning.Enabled
    ensures var x := s.procs[p];
      var kv' := PutObject(s.kv, x.name, x.key, o);
      Survive(s.kv, kv', s.now, None) && ProtectionFounded(s.kv, kv') && kv'.buckets == s.kv.buckets
  {
    var x := s.procs[p];
    Facts(s);
    LockOf(s, p);
    PutReady(s, p, o);
    assert Protects(o.retention, o.legalHold) ==> LockedBucket(s.kv, x.name) && LiveName(s.kv, x.name);
    assert o.vid == NullId ==> !LockedBucket(s.kv, x.name);
    hide *;
    WriteSurvives(s.kv, x.name, x.key, o, s.now);
    WriteFounded(s.kv, x.name, x.key, o);
    KeepsBuckets(s.kv, x.name, x.key, o);
  }

  lemma KeepsBuckets(kv: Kv, name: Name, key: Key, o: Object)
    ensures PutObject(kv, name, key, o).buckets == kv.buckets
  {
  }

  /** A bound expectation that the bucket meets means that it is the bucket the request read. */
  lemma BoundIsSame(kv: Kv, e: Expect, name: Name, seen: Bucket)
    requires SeenOk(kv, name, seen) && Bound(e, seen) && LiveBucket(kv, e, name).Some?
    ensures LiveName(kv, name) && (seen.lock ==> LockedBucket(kv, name))
  {
  }

  /** A step that leaves the versions alone and adds at most one upload. */
  lemma VersionsAlone(kv: Kv, kv': Kv, now: int, added: Option<UploadId>)
    requires ProtectionFounded(kv, kv) && kv'.objects == kv.objects && kv'.buckets == kv.buckets
    requires forall u :: u in kv'.uploads && added != Some(u) ==> u in kv.uploads && kv'.uploads[u] == kv.uploads[u]
    requires added.Some? && added.value in kv'.uploads && Protects(kv'.uploads[added.value].retention, kv'.uploads[added.value].legalHold) ==>
      LockedBucket(kv, added.value.bucket) && LiveName(kv, added.value.bucket)
    ensures Survive(kv, kv', now, None) && ProtectionFounded(kv, kv')
  {
    hide LockedBucket, LiveName, Protects;
  }

  lemma UploadIsLocked(s: State, p: nat)
    requires Inv(s) && LockInv(s) && p in s.procs && s.procs[p].StartingUpload?
    ensures LockInv(DoEndUpload(s, p)) && Survive(s.kv, DoEndUpload(s, p).kv, s.now, None)
  {
    var x := s.procs[p];
    var s' := DoEndUpload(s, p);
    Facts(s);
    LockOf(s, p);
    if CommitUpload(s.kv, x.e, x.name, s.next, x.u).Committed? {
      BoundIsSame(s.kv, x.e, x.name, x.seen);
    }
    assert CommitUpload(s.kv, x.e, x.name, s.next, x.u).Committed? && Protects(x.u.retention, x.u.legalHold) ==>
      LockedBucket(s.kv, x.name) && LiveName(s.kv, x.name);
    hide Inv, LockInv, Numbered, Homes, VersionsValid, LockKv, ProtectionFounded, LockProc, LockedBucket, LiveName, LiveBucket,
      BucketExpected, LockMeansVersions, Survive, Protects;
    VersionsAlone(s.kv, s'.kv, s.now, Some(UploadId(x.name, s.next)));
    RecordStep(s, s', p);
  }

  lemma PartIsLocked(s: State, p: nat)
    requires Inv(s) && LockInv(s) && p in s.procs && s.procs[p].PartStored?
    ensures LockInv(DoEndPart(s, p)) && Survive(s.kv, DoEndPart(s, p).kv, s.now, None)
  {
    PartIs(s, p);
    Facts(s);
    hide *;
    VersionsAlone(s.kv, DoEndPart(s, p).kv, s.now, None);
    RecordStep(s, DoEndPart(s, p), p);
  }

  lemma PartIs(s: State, p: nat)
    requires p in s.procs && s.procs[p].PartStored?
    ensures var s' := DoEndPart(s, p);
      s'.kv == s.kv.(parts := s'.kv.parts) && p in s'.procs && LockProc(s'.kv, s'.procs[p]) &&
      forall q :: q in s'.procs && q != p ==> q in s.procs && s'.procs[q] == s.procs[q]
  {
    hide GetUpload;
  }

  lemma CompleteIsLocked(s: State, p: nat, random: nat)
    requires Inv(s) && LockInv(s) && p in s.procs && s.procs[p].Completing?
    ensures LockInv(DoEndComplete(s, p, random)) && Survive(s.kv, DoEndComplete(s, p, random).kv, s.now, None)
  {
    var x := s.procs[p];
    Facts(s);
    if CommitComplete(s.kv, x.e, x.name, x.key, x.id, x.u, x.seen, x.r, s.next, random).Failed? {
      CompleteFails(s, p, random);
      Unchanged(s.kv, s.now);
      hide *;
      RecordStep(s, DoEndComplete(s, p, random), p);
    } else {
      ProcOf(s, p);
      hide *;
      var o := WhenComplete(s.kv, x.e, x.name, x.key, x.id, x.u, x.seen, x.r, s.next, random);
      CompleteIs(s, p, random, o);
      CompletedIsLocked(s, p, o);
    }
  }

  lemma CompleteFails(s: State, p: nat, random: nat)
    requires p in s.procs && s.procs[p].Completing?
    requires var x := s.procs[p];
      CommitComplete(s.kv, x.e, x.name, x.key, x.id, x.u, x.seen, x.r, s.next, random).Failed?
    ensures var s' := DoEndComplete(s, p, random);
      s'.kv == s.kv && p !in s'.procs && forall q :: q in s'.procs ==> q in s.procs && s'.procs[q] == s.procs[q]
  {
    hide CommitComplete;
  }

  lemma CompletedIsLocked(s: State, p: nat, o: Object)
    requires Inv(s) && LockInv(s) && p in s.procs && s.procs[p].Completing?
    requires Incarnation(s.kv, s.procs[p].name, s.procs[p].seen) && UploadId(s.procs[p].name, s.procs[p].id) in s.kv.uploads
    requires o.vid == NullId || (o.vid.SeqId? && o.vid.seqNo == o.seqNo)
    requires o.seqNo == s.next && o.retention == s.procs[p].u.retention && o.legalHold == s.procs[p].u.legalHold
    requires o.vid == NullId ==> s.kv.buckets[s.procs[p].name].versioning != Versioning.Enabled
    ensures var x := s.procs[p];
      var kv1 := DeleteUpload(s.kv, x.name, x.id);
      var s' := Become(s.(kv := PutObject(kv1, x.name, x.key, o), next := s.next + 1), p,
        Cleaning(PartBlobs(s.kv, Unused(s.kv, x.name, x.id, o.parts)) + ObjectBlobs(x.name, Replaced(kv1, x.name, x.key, o))));
      LockInv(s') && Survive(s.kv, s'.kv, s.now, None)
  {
    var x := s.procs[p];
    var kv1 := DeleteUpload(s.kv, x.name, x.id);
    var doomed := PartBlobs(s.kv, Unused(s.kv, x.name, x.id, o.parts)) + ObjectBlobs(x.name, Replaced(kv1, x.name, x.key, o));
    var s1 := s.(kv := PutObject(kv1, x.name, x.key, o), next := s.next + 1);
    CompletedFacts(s, p, o);
    CleaningLock(s1.kv, doomed);
    Becomes(s1, p, Cleaning(doomed));
    hide *;
    RecordStep(s, Become(s1, p, Cleaning(doomed)), p);
  }

  lemma CompletedFacts(s: State, p: nat, o: Object)
    requires Inv(s) && LockInv(s) && p in s.procs && s.procs[p].Completing?
    requires Incarnation(s.kv, s.procs[p].name, s.procs[p].seen) && UploadId(s.procs[p].name, s.procs[p].id) in s.kv.uploads
    requires o.vid == NullId || (o.vid.SeqId? && o.vid.seqNo == o.seqNo)
    requires o.seqNo == s.next && o.retention == s.procs[p].u.retention && o.legalHold == s.procs[p].u.legalHold
    requires o.vid == NullId ==> s.kv.buckets[s.procs[p].name].versioning != Versioning.Enabled
    ensures var x := s.procs[p];
      var kv' := PutObject(DeleteUpload(s.kv, x.name, x.id), x.name, x.key, o);
      Survive(s.kv, kv', s.now, None) && ProtectionFounded(s.kv, kv') && kv'.buckets == s.kv.buckets
  {
    var x := s.procs[p];
    var kv1 := DeleteUpload(s.kv, x.name, x.id);
    Facts(s);
    UploadUnchanged(s, p);
    CompletedProtects(s.kv, x.name, x.id, o);
    WithoutUpload(s.kv, s.blobs, s.next, x.name, x.id, x.key, o);
    hide *;
    WriteSurvives(kv1, x.name, x.key, o, s.now);
    WriteFounded(kv1, x.name, x.key, o);
    KeepsBuckets(kv1, x.name, x.key, o);
    SameVersions(s.kv, kv1, PutObject(kv1, x.name, x.key, o), s.now);
  }

  lemma CompletedProtects(kv: Kv, name: Name, id: nat, o: Object)
    requires UploadId(name, id) in kv.uploads && LockMeansVersions(kv) && ProtectionFounded(kv, kv)
    requires o.retention == kv.uploads[UploadId(name, id)].retention && o.legalHold == kv.uploads[UploadId(name, id)].legalHold
    requires o.vid == NullId ==> name in kv.buckets && kv.buckets[name].versioning != Versioning.Enabled
    ensures var kv1 := DeleteUpload(kv, name, id);
      (Protects(o.retention, o.legalHold) ==> LockedBucket(kv1, name) && LiveName(kv1, name)) &&
      (o.vid == NullId ==> !LockedBucket(kv1, name))
  {
  }

  /** Only the versions and the buckets matter to survival. */
  lemma SameVersions(kv: Kv, kv1: Kv, kv': Kv, now: int)
    requires kv1.objects == kv.objects && kv1.buckets == kv.buckets && Survive(kv1, kv', now, None) && ProtectionFounded(kv1, kv')
    ensures Survive(kv, kv', now, None) && ProtectionFounded(kv, kv')
  {
  }

  /** The upload that a request completes is the one it read. */
  lemma UploadUnchanged(s: State, p: nat)
    requires Inv(s) && p in s.procs && s.procs[p].Completing? && UploadId(s.procs[p].name, s.procs[p].id) in s.kv.uploads
    ensures s.procs[p].u == s.kv.uploads[UploadId(s.procs[p].name, s.procs[p].id)]
  {
    ProcOf(s, p);
    hide Inv, Named;
  }

  lemma WithoutUpload(kv: Kv, blobs: map<Blob, seq<Byte>>, next: nat, name: Name, id: nat, key: Key, o: Object)
    requires VersionsValid(kv) && Numbered(kv, blobs, next) && LockKv(kv) && ProtectionFounded(kv, kv)
    requires o.vid == NullId || (o.vid.SeqId? && o.vid.seqNo == o.seqNo)
    requires o.seqNo == next
    ensures var kv1 := DeleteUpload(kv, name, id);
      VersionsValid(kv1) && NewVersion(kv1, name, key, o) && LockKv(kv1) && ProtectionFounded(kv1, kv1) &&
      kv1.objects == kv.objects && kv1.buckets == kv.buckets
  {
    UploadVersions(kv, name, id);
    hide VersionsValid, PartsOf, Protects;
  }

  lemma AbortIs(s: State, p: nat, e: Expect, name: Name, key: Key, id: nat)
    ensures var s' := DoAbort(s, p, e, name, key, id);
      s' == s || (s'.kv == DeleteUpload(s.kv, name, id) && p in s'.procs && s'.procs[p].Cleaning? &&
      forall q :: q in s'.procs && q != p ==> q in s.procs && s'.procs[q] == s.procs[q])
  {
    hide LiveBucket, GetUpload, DeleteUpload, PartsOf, PartBlobs;
  }

  lemma AbortIsLocked(s: State, p: nat, e: Expect, name: Name, key: Key, id: nat)
    requires Inv(s) && LockInv(s) && p !in s.procs
    ensures LockInv(DoAbort(s, p, e, name, key, id)) && Survive(s.kv, DoAbort(s, p, e, name, key, id).kv, s.now, None)
  {
    var s' := DoAbort(s, p, e, name, key, id);
    AbortIs(s, p, e, name, key, id);
    Facts(s);
    hide Inv, LockInv, Numbered, Homes, VersionsValid, LockKv, ProtectionFounded, LockMeansVersions, Survive, DoAbort, PartsOf;
    VersionsAlone(s.kv, s'.kv, s.now, None);
    RecordStep(s, s', p);
  }

  // ----- deletes

  lemma RemovalSurvives(kv: Kv, name: Name, key: Key, o: Object, now: int)
    requires Stored(kv, name, key, o) && !Guarded(o, now)
    ensures Survive(kv, DeleteVersion(kv, name, key, o), now, None)
  {
  }

  lemma RemovalFounded(kv: Kv, name: Name, key: Key, o: Object)
    requires ProtectionFounded(kv, kv)
    ensures ProtectionFounded(kv, DeleteVersion(kv, name, key, o)) && DeleteVersion(kv, name, key, o).buckets == kv.buckets
  {
    hide LockedBucket, LiveName, Protects;
  }

  lemma DeletesOneLocked(s: State, e: Expect, name: Name, key: Key, r: DeleteRequest)
    requires Inv(s) && LockInv(s) && r.vid.Some?
    requires DeleteOneVersion(s.kv, e, name, key, r, s.now).Committed?
    ensures var kv' := DeleteOneVersion(s.kv, e, name, key, r, s.now).kv;
      Survive(s.kv, kv', s.now, None) && ProtectionFounded(s.kv, kv') && kv'.buckets == s.kv.buckets
  {
    Facts(s);
    Unchanged(s.kv, s.now);
    Keyed(s.kv);
    hide Inv, LockInv, Numbered, Homes, VersionsValid, WellKeyed, LockKv, ProtectionFounded, Survive, DeleteVersion, GetVersion, EtagMatches,
      ObjectExpected, Stored;
    var o := GetVersion(s.kv, name, key, r.vid.value);
    if o.Some? {
      VersionStored(s.kv, name, key, r.vid.value);
      RemovalSurvives(s.kv, name, key, o.value, s.now);
      RemovalFounded(s.kv, name, key, o.value);
    }
  }

  lemma MarkerFacts(s: State, name: Name, key: Key, vid: Vid)
    requires Inv(s) && LockInv(s) && (vid == NullId || (vid.SeqId? && vid.seqNo == s.next))
    requires vid == NullId ==> !LockedBucket(s.kv, name)
    ensures var kv' := PutObject(s.kv, name, key, DeleteMarker(vid, s.next));
      Survive(s.kv, kv', s.now, None) && ProtectionFounded(s.kv, kv') && kv'.buckets == s.kv.buckets
  {
    Facts(s);
    MarkerReady(s.kv, s.blobs, s.next, name, key, vid);
    hide Inv, LockInv, Numbered, Homes, VersionsValid, LockKv, ProtectionFounded, Survive, NewVersion, PutObject;
    WriteSurvives(s.kv, name, key, DeleteMarker(vid, s.next), s.now);
    WriteFounded(s.kv, name, key, DeleteMarker(vid, s.next));
    KeepsBuckets(s.kv, name, key, DeleteMarker(vid, s.next));
  }

  /** A delete without a version ID keeps every guarded version: in a locked bucket it only
      adds a marker. */
  lemma DeletesCurrentLocked(s: State, name: Name, key: Key, r: DeleteRequest, random: nat)
    requires Inv(s) && LockInv(s) && LiveName(s.kv, name)
    requires DeleteCurrent(s.kv, s.kv.buckets[name], name, key, r, s.next, random, s.now).Committed?
    ensures var kv' := DeleteCurrent(s.kv, s.kv.buckets[name], name, key, r, s.next, random, s.now).kv;
      Survive(s.kv, kv', s.now, None) && ProtectionFounded(s.kv, kv') && kv'.buckets == s.kv.buckets
  {
    Facts(s);
    Unchanged(s.kv, s.now);
    Keyed(s.kv);
    hide Inv, LockInv, Numbered, Homes, VersionsValid, WellKeyed, LockKv, ProtectionFounded, Survive, DeleteVersion, GetVersion, GetLatest,
      PutObject, DeleteMarker, CheckDeleteConditions, Stored;
    match s.kv.buckets[name].versioning
    case Enabled => MarkerFacts(s, name, key, SeqId(s.next, random));
    case Suspended => MarkerFacts(s, name, key, NullId);
    case Unversioned =>
      var cur := GetLatest(s.kv, name, key);
      if cur.Some? {
        LatestStored(s.kv, name, key);
        RemovalSurvives(s.kv, name, key, cur.value, s.now);
        RemovalFounded(s.kv, name, key, cur.value);
      }
  }

  /** The commit of a delete keeps the lock invariant. */
  lemma DeleteDone(s: State, p: nat, kv': Kv, blobs: set<Blob>)
    requires Inv(s) && LockInv(s) && ProtectionFounded(s.kv, kv') && kv'.buckets == s.kv.buckets
    ensures LockInv(Become(s.(kv := kv', next := s.next + 1), p, Cleaning(blobs)))
  {
    hide Inv, LockInv, ProtectionFounded;
    RecordStep(s, Become(s.(kv := kv', next := s.next + 1), p, Cleaning(blobs)), p);
  }

  lemma DeleteNotDone(s: State, p: nat)
    requires Inv(s) && LockInv(s) && p !in s.procs
    ensures LockInv(s.(next := s.next + 1)) && Survive(s.kv, s.kv, s.now, None)
  {
    Facts(s);
    Unchanged(s.kv, s.now);
    hide Inv, LockInv, Numbered, Homes, VersionsValid, LockKv, ProtectionFounded, Survive;
    RecordStep(s, s.(next := s.next + 1), p);
  }

  lemma DeleteIsLocked(s: State, p: nat, e: Expect, name: Name, key: Key, r: DeleteRequest, random: nat)
    requires Inv(s) && LockInv(s) && p !in s.procs
    ensures LockInv(DoDelete(s, p, e, name, key, r, random)) && Survive(s.kv, DoDelete(s, p, e, name, key, r, random).kv, s.now, None)
  {
    hide Inv, LockInv, ProtectionFounded, Survive, DeleteOneVersion, DeleteCurrent, DoDelete, ObjectBlobs;
    var s' := DoDelete(s, p, e, name, key, r, random);
    DeleteIs(s, p, e, name, key, r, random);
    if s' == s.(next := s.next + 1) {
      DeleteNotDone(s, p);
    } else if r.vid.Some? {
      var d := DeleteOneVersion(s.kv, e, name, key, r, s.now);
      DeletesOneLocked(s, e, name, key, r);
      DeleteDone(s, p, d.kv, ObjectBlobs(name, d.value.removed));
    } else {
      var d := DeleteCurrent(s.kv, s.kv.buckets[name], name, key, r, s.next, random, s.now);
      DeletesCurrentLocked(s, name, key, r, random);
      DeleteDone(s, p, d.kv, ObjectBlobs(name, d.value.removed));
    }
  }

  // ----- retention and legal hold

  lemma RewriteSurvives(kv: Kv, name: Name, key: Key, o: Object, o': Object, now: int, released: Option<ObjectId>)
    requires Stored(kv, name, key, o) && Upholds(o, o', now)
    requires o.legalHold ==> o'.legalHold || released == Some(ObjectId(name, key, o.seqNo))
    ensures Survive(kv, Rewrite(kv, name, key, o'), now, released)
  {
  }

  lemma RewriteFounded(kv: Kv, name: Name, key: Key, o: Object, o': Object)
    requires Stored(kv, name, key, o) && o'.seqNo == o.seqNo && ProtectionFounded(kv, kv)
    requires LockedBucket(kv, name) && LiveName(kv, name)
    ensures ProtectionFounded(kv, Rewrite(kv, name, key, o')) && Rewrite(kv, name, key, o').buckets == kv.buckets
  {
    hide LockedBucket, LiveName, Protects;
  }

  /** The version an update found, in the bucket the request read. */
  lemma FoundLocked(s: State, e: Expect, name: Name, key: Key, seen: Bucket, vid: Option<Vid>)
    requires Inv(s) && LockInv(s) && FindVersion(s.kv, e, name, key, vid).Committed?
    requires SeenOk(s.kv, name, seen) && Bound(e, seen) && seen.lock
    ensures Stored(s.kv, name, key, FindVersion(s.kv, e, name, key, vid).value) && LockedBucket(s.kv, name) && LiveName(s.kv, name)
  {
    Facts(s);
    hide Inv, LockInv, Numbered, Homes, VersionsValid, LockKv, GetLatest, GetVersion;
    FoundStored(s.kv, e, name, key, vid);
    BoundIsSame(s.kv, e, name, seen);
  }

  lemma RetentionIsLocked(s: State, p: nat)
    requires Inv(s) && LockInv(s) && p in s.procs && s.procs[p].Retaining?
    ensures var x := s.procs[p];
      var s' := Leave(DoCommit(s, CommitRetention(s.kv, x.e, x.name, x.key, x.vid, x.wanted, x.bypass, s.now)), p);
      LockInv(s') && Survive(s.kv, s'.kv, s.now, None)
  {
    var x := s.procs[p];
    var s' := Leave(DoCommit(s, CommitRetention(s.kv, x.e, x.name, x.key, x.vid, x.wanted, x.bypass, s.now)), p);
    Facts(s);
    LockOf(s, p);
    Unchanged(s.kv, s.now);
    hide Inv, LockInv, Numbered, Homes, VersionsValid, LockKv, ProtectionFounded, Survive, FindVersion, Rewrite, Stored;
    var f := FindVersion(s.kv, x.e, x.name, x.key, x.vid);
    if f.Committed? && !RetentionRefused(f.value.retention, x.wanted, x.bypass, s.now) {
      var o' := f.value.(retention := x.wanted);
      FoundLocked(s, x.e, x.name, x.key, x.seen, x.vid);
      RewriteSurvives(s.kv, x.name, x.key, f.value, o', s.now, None);
      RewriteFounded(s.kv, x.name, x.key, f.value, o');
    }
    RecordStep(s, s', p);
  }

  /** The version whose hold the request turns off, if it turns one off. */
  ghost function Released(s: State, x: Proc): Option<ObjectId>
    requires x.Holding?
  {
    var f := FindVersion(s.kv, x.e, x.name, x.key, x.vid);
    if f.Committed? && !x.on then Some(ObjectId(x.name, x.key, f.value.seqNo)) else None
  }

  lemma HoldIsLocked(s: State, p: nat)
    requires Inv(s) && LockInv(s) && p in s.procs && s.procs[p].Holding?
    ensures var x := s.procs[p];
      var s' := Leave(DoCommit(s, CommitHold(s.kv, x.e, x.name, x.key, x.vid, x.on)), p);
      LockInv(s') && Survive(s.kv, s'.kv, s.now, Released(s, x))
  {
    var x := s.procs[p];
    var s' := Leave(DoCommit(s, CommitHold(s.kv, x.e, x.name, x.key, x.vid, x.on)), p);
    Facts(s);
    LockOf(s, p);
    Unchanged(s.kv, s.now);
    hide Inv, LockInv, Numbered, Homes, VersionsValid, LockKv, ProtectionFounded, Survive, FindVersion, Rewrite, Stored;
    var f := FindVersion(s.kv, x.e, x.name, x.key, x.vid);
    if f.Committed? {
      var o' := f.value.(legalHold := x.on);
      FoundLocked(s, x.e, x.name, x.key, x.seen, x.vid);
      RewriteSurvives(s.kv, x.name, x.key, f.value, o', s.now, Released(s, x));
      RewriteFounded(s.kv, x.name, x.key, f.value, o');
    }
    RecordStep(s, s', p);
  }

  // ----- buckets

  /** A step that changes bucket records. */
  lemma BucketStep(s: State, s': State, p: nat)
    requires Inv(s) && LockInv(s) && LocksStay(s.kv, s'.kv, s.next) && LockMeansVersions(s'.kv)
    requires s'.kv.objects == s.kv.objects
    requires forall u :: u in s'.kv.uploads ==> u in s.kv.uploads && s'.kv.uploads[u] == s.kv.uploads[u]
    requires forall q :: q in s'.procs && q != p ==> q in s.procs && s'.procs[q] == s.procs[q]
    requires p in s'.procs ==> LockProc(s'.kv, s'.procs[p])
    ensures LockInv(s') && Survive(s.kv, s'.kv, s.now, None)
  {
    Facts(s);
    StillFounded(s.kv, s'.kv);
    FoundedKv(s.kv, s'.kv, s.next);
    hide Inv, LockInv, LockKv, LocksStay, LockMeansVersions, ProtectionFounded, Homes, Numbered, VersionsValid, LockProc;
    LockMoves(s, s', p);
  }

  lemma StillFounded(kv: Kv, kv': Kv)
    requires ProtectionFounded(kv, kv) && kv'.objects == kv.objects
    requires forall u :: u in kv'.uploads ==> u in kv.uploads && kv'.uploads[u] == kv.uploads[u]
    ensures ProtectionFounded(kv, kv')
  {
    hide LockedBucket, LiveName, Protects;
  }

  lemma LockVersions(s: State)
    requires LockInv(s)
    ensures LockMeansVersions(s.kv)
  {
    hide LockMeansVersions, LockProc;
  }

  lemma CreatedLocks(s: State, name: Name, lock: bool)
    requires LockMeansVersions(s.kv)
    ensures var s' := DoCommit(s, CommitCreateBucket(s.kv, name, s.next, lock)).(next := s.next + 1);
      LocksStay(s.kv, s'.kv, s.next) && LockMeansVersions(s'.kv) && s'.kv == s.kv.(buckets := s'.kv.buckets) && s'.procs == s.procs
  {
  }

  lemma CreateIsLocked(s: State, name: Name, lock: bool, p: nat)
    requires Inv(s) && LockInv(s) && p !in s.procs
    ensures var s' := DoCommit(s, CommitCreateBucket(s.kv, name, s.next, lock)).(next := s.next + 1);
      LockInv(s') && Survive(s.kv, s'.kv, s.now, None)
  {
    LockVersions(s);
    CreatedLocks(s, name, lock);
    hide *;
    BucketStep(s, DoCommit(s, CommitCreateBucket(s.kv, name, s.next, lock)).(next := s.next + 1), p);
  }

  lemma SettingLocked(s: State, name: Name, b: Bucket, p: nat)
    requires Inv(s) && LockInv(s) && p !in s.procs && LiveName(s.kv, name)
    requires b.created == s.kv.buckets[name].created && (s.kv.buckets[name].lock ==> b.lock)
    requires b.lock ==> b.versioning == Versioning.Enabled
    ensures var s' := s.(kv := s.kv.(buckets := s.kv.buckets[name := b])); LockInv(s') && Survive(s.kv, s'.kv, s.now, None)
  {
    LockVersions(s);
    hide Inv, LockInv;
    BucketStep(s, s.(kv := s.kv.(buckets := s.kv.buckets[name := b])), p);
  }

  lemma VersioningLocked(s: State, e: Expect, name: Name, v: Versioning, p: nat)
    requires Inv(s) && LockInv(s) && p !in s.procs && v != Unversioned
    ensures var s' := DoCommit(s, CommitVersioning(s.kv, e, name, v)); LockInv(s') && Survive(s.kv, s'.kv, s.now, None)
  {
    hide Inv, LockInv, Survive;
    if CommitVersioning(s.kv, e, name, v).Committed? {
      SettingLocked(s, name, s.kv.buckets[name].(versioning := v), p);
    } else {
      Unchanged(s.kv, s.now);
    }
  }

  lemma ConfigLocked(s: State, e: Expect, name: Name, c: Option<LockConfig>, p: nat)
    requires Inv(s) && LockInv(s) && p !in s.procs
    ensures var s' := DoCommit(s, CommitLockConfig(s.kv, e, name, c)); LockInv(s') && Survive(s.kv, s'.kv, s.now, None)
  {
    LockVersions(s);
    hide Inv, LockInv, Survive;
    if CommitLockConfig(s.kv, e, name, c).Committed? {
      SettingLocked(s, name, s.kv.buckets[name].(lock := true, lockDefault := c), p);
    } else {
      Unchanged(s.kv, s.now);
    }
  }

  lemma BucketGoneIs(s: State, p: nat, e: Expect, name: Name)
    requires LockMeansVersions(s.kv)
    ensures var s' := DoDeleteBucket(s, p, CommitDeleteBucket(s.kv, e, name), name);
      LocksStay(s.kv, s'.kv, s.next) && LockMeansVersions(s'.kv) && s'.kv.objects == s.kv.objects &&
      (forall u :: u in s'.kv.uploads ==> u in s.kv.uploads && s'.kv.uploads[u] == s.kv.uploads[u]) &&
      (p in s'.procs ==> s' == s || LockProc(s'.kv, s'.procs[p])) &&
      forall q :: q in s'.procs && q != p ==> q in s.procs && s'.procs[q] == s.procs[q]
  {
    hide BucketExpected, HasObjects;
  }

  lemma BucketGoneLocked(s: State, p: nat, e: Expect, name: Name)
    requires Inv(s) && LockInv(s) && p !in s.procs
    ensures var s' := DoDeleteBucket(s, p, CommitDeleteBucket(s.kv, e, name), name); LockInv(s') && Survive(s.kv, s'.kv, s.now, None)
  {
    LockVersions(s);
    BucketGoneIs(s, p, e, name);
    hide *;
    BucketStep(s, DoDeleteBucket(s, p, CommitDeleteBucket(s.kv, e, name), name), p);
  }

  lemma RecordGoneLocked(s: State, p: nat)
    requires Inv(s) && LockInv(s) && p in s.procs && s.procs[p].FinishingRecord?
    ensures var s' := Leave(s.(kv := FinishDelete(s.kv, s.procs[p].name)), p); LockInv(s') && Survive(s.kv, s'.kv, s.now, None)
  {
    LockVersions(s);
    hide Inv, LockInv;
    BucketStep(s, Leave(s.(kv := FinishDelete(s.kv, s.procs[p].name)), p), p);
  }

  // ----- requests

  /** A step that leaves the records alone. */
  lemma RequestStep(s: State, s': State, p: nat)
    requires Inv(s) && LockInv(s) && s'.kv == s.kv
    requires forall q :: q in s'.procs && q != p ==> q in s.procs && s'.procs[q] == s.procs[q]
    requires p in s'.procs ==> LockProc(s.kv, s'.procs[p])
    ensures LockInv(s') && Survive(s.kv, s'.kv, s.now, None)
  {
    Facts(s);
    Unchanged(s.kv, s.now);
    hide *;
    RecordStep(s, s', p);
  }

  /** Protection is granted only in a bucket with object lock. */
  lemma GrantedInLocked(b: Bucket, a: LockAttrs, now: int)
    ensures var at := ValidateAttrs(b, a, now); at.Attrs? && Protects(at.retention, at.hold) ==> b.lock
  {
  }

  lemma BeginIsLocked(s: State, st: Step)
    requires Inv(s) && LockInv(s) && Possible(s, st) && Careful(st)
    requires st.BeginPut? || st.BeginUpload? || st.BeginPart? || st.BeginComplete? || st.BeginRetention? || st.BeginHold?
    ensures LockInv(Do(s, st)) && Survive(s.kv, Do(s, st).kv, s.now, None)
  {
    if st.BeginPut? || st.BeginUpload? { GrantedInLocked(GetLiveBucket(s.kv, st.name).value, st.a, s.now); }
    var s' := Do(s, st);
    BeginLocks(s, st);
    hide *;
    RequestStep(s, s', st.p);
  }

  lemma BeginLocks(s: State, st: Step)
    requires Possible(s, st) && Careful(st)
    requires st.BeginPut? || st.BeginUpload? || st.BeginPart? || st.BeginComplete? || st.BeginRetention? || st.BeginHold?
    requires st.BeginPut? || st.BeginUpload? ==>
      var b := GetLiveBucket(s.kv, st.name).value;
      var at := ValidateAttrs(b, st.a, s.now);
      at.Attrs? && Protects(at.retention, at.hold) ==> b.lock
    ensures var s' := Do(s, st);
      s'.kv == s.kv && st.p in s'.procs && LockProc(s.kv, s'.procs[st.p]) &&
      forall q :: q in s'.procs && q != st.p ==> q in s.procs && s'.procs[q] == s.procs[q]
  {
    hide ValidateAttrs;
  }

  /** The steps that touch neither records nor protection. */
  predicate Aside(st: Step) {
    st.StorePut? || st.StorePart? || st.RemoveDir? || st.Clean? || st.Drop? || st.Crash? || st.Recover? || st.Serve? || st.Tick?
  }

  function Mover(st: Step): nat {
    match st
    case StorePut(p, _) => p
    case StorePart(p, _, _) => p
    case RemoveDir(p) => p
    case Clean(p, _) => p
    case Drop(p) => p
    case Recover(p, _) => p
    case _ => 0
  }

  lemma AsideIs(s: State, st: Step)
    requires LockInv(s) && Possible(s, st) && Aside(st)
    ensures var s', p := Do(s, st), Mover(st);
      s'.kv == s.kv && (p in s'.procs ==> LockProc(s.kv, s'.procs[p])) &&
      forall q :: q in s'.procs && q != p ==> q in s.procs && s'.procs[q] == s.procs[q]
  {
    if Mover(st) in s.procs { LockOf(s, Mover(st)); }
    StoredLock(s, st);
    AsideMoves(s, st);
    hide *;
  }

  /** What such a step leaves: the request that stored something, or one that is as it was. */
  lemma AsideMoves(s: State, st: Step)
    requires Possible(s, st) && Aside(st)
    ensures var s', p := Do(s, st), Mover(st);
      s'.kv == s.kv && (forall q :: q in s'.procs && q != p ==> q in s.procs && s'.procs[q] == s.procs[q]) &&
      (p in s'.procs ==> st.StorePut? || st.StorePart? || st.RemoveDir? || st.Recover? || st.Clean? || (p in s.procs && s'.procs[p] == s.procs[p]))
  {
    hide Possible, Do, Mover;
    if st.StorePut? || st.StorePart? || st.RemoveDir? || st.Recover? || st.Clean? { AsideOne(s, st); } else { AsideNone(s, st); }
  }

  lemma AsideNone(s: State, st: Step)
    requires Possible(s, st) && (st.Drop? || st.Crash? || st.Serve? || st.Tick?)
    ensures var s' := Do(s, st); s'.kv == s.kv && forall q :: q in s'.procs ==> q in s.procs && s'.procs[q] == s.procs[q]
  {
  }

  lemma AsideOne(s: State, st: Step)
    requires Possible(s, st) && (st.StorePut? || st.StorePart? || st.RemoveDir? || st.Recover? || st.Clean?)
    ensures var s', p := Do(s, st), Mover(st);
      s'.kv == s.kv && forall q :: q in s'.procs && q != p ==> q in s.procs && s'.procs[q] == s.procs[q]
  {
    hide DigestOf;
  }

  lemma StoredLock(s: State, st: Step)
    requires Possible(s, st) && Aside(st) && (Mover(st) in s.procs ==> LockProc(s.kv, s.procs[Mover(st)]))
    ensures (st.StorePut? || st.StorePart? || st.RemoveDir? || st.Recover? || st.Clean?) && Mover(st) in Do(s, st).procs ==>
      LockProc(s.kv, Do(s, st).procs[Mover(st)])
  {
    hide DigestOf, SeenOk, LockKv, Bound;
  }

  /** A process number that is not in use. */
  lemma FreeNumber(procs: map<nat, Proc>) returns (p: nat)
    ensures p !in procs
  {
    if procs == map[] {
      p := 0;
    } else {
      assert procs.Keys != {} by { var q :| q in procs; }
      var m := MaxExists(procs.Keys);
      p := m + 1;
    }
  }

  /** The hold that a step may release. */
  ghost function ReleasedBy(s: State, st: Step): Option<ObjectId>
    requires Possible(s, st)
  {
    if st.EndHold? then Released(s, s.procs[st.p]) else None
  }

  lemma CommitGuards(s: State, st: Step)
    requires Inv(s) && LockInv(s) && Possible(s, st) && Committing(st)
    ensures LockInv(Do(s, st)) && Survive(s.kv, Do(s, st).kv, s.now, ReleasedBy(s, st))
  {
    hide Inv, LockInv, Survive, Released, DoEndPut, DoEndUpload, DoEndPart, DoEndComplete, DoAbort, DoDelete, DoCommit, CommitRetention,
      CommitHold, Leave;
    match st
    case EndPut(p, random) => PutIsLocked(s, p, random);
    case EndUpload(p) => UploadIsLocked(s, p);
    case EndPart(p) => PartIsLocked(s, p);
    case EndComplete(p, random) => CompleteIsLocked(s, p, random);
    case Abort(p, e, name, key, id) => AbortIsLocked(s, p, e, name, key, id);
    case Delete(p, e, name, key, d, random) => DeleteIsLocked(s, p, e, name, key, d, random);
    case EndRetention(p) => RetentionIsLocked(s, p);
    case EndHold(p) => HoldIsLocked(s, p);
  }

  lemma BucketGuards(s: State, st: Step)
    requires Inv(s) && LockInv(s) && Possible(s, st) && Careful(st) && OnBucket(st) && !st.RemoveDir?
    ensures LockInv(Do(s, st)) && Survive(s.kv, Do(s, st).kv, s.now, ReleasedBy(s, st))
  {
    hide Inv, LockInv, Survive, DoCommit, DoDeleteBucket, CommitCreateBucket, CommitVersioning, CommitLockConfig, CommitDeleteBucket,
      CommitForceDelete, FinishDelete, Leave, Become;
    var free := FreeNumber(s.procs);
    match st
    case CreateBucket(name, lock) => CreateIsLocked(s, name, lock, free);
    case SetVersioning(e, name, v) => VersioningLocked(s, e, name, v, free);
    case SetLock(e, name, lockConfig) => ConfigLocked(s, e, name, lockConfig, free);
    case DeleteBucket(p, e, name) => BucketGoneLocked(s, p, e, name);
    case ForceDeleteBucket(_, _) =>
    case RemoveRecord(p) => RecordGoneLocked(s, p);
  }

  /** Every careful step keeps the invariant of the lock and every guarded version. */
  lemma StepGuards(s: State, st: Step)
    requires Inv(s) && LockInv(s) && Possible(s, st) && Careful(st)
    ensures LockInv(Do(s, st)) && Survive(s.kv, Do(s, st).kv, s.now, ReleasedBy(s, st))
  {
    hide Inv, LockInv, Survive, Released, Possible, Do, Careful, LockProc;
    if Committing(st) {
      CommitGuards(s, st);
    } else if Aside(st) {
      AsideIs(s, st);
      RequestStep(s, Do(s, st), Mover(st));
    } else if OnBucket(st) {
      BucketGuards(s, st);
    } else {
      BeginIsLocked(s, st);
    }
  }

  // ----- whole runs

  /** A run without forced bucket deletion. */
  ghost predicate CarefulRun(states: seq<State>, steps: seq<Step>) {
    IsRun(states, steps) && forall i :: 0 <= i < |steps| ==> Careful(steps[i])
  }

  lemma CarefulStep(states: seq<State>, steps: seq<Step>, i: nat)
    requires CarefulRun(states, steps) && i < |steps|
    ensures IsRun(states, steps) && |states| == |steps| + 1 && Careful(steps[i])
    ensures Possible(states[i], steps[i]) && states[i + 1] == Do(states[i], steps[i])
  {
    hide IsRun, Careful, Possible, Do;
    RunStarts(states, steps);
    RunStep(states, steps, i);
  }

  lemma CarefulLength(states: seq<State>, steps: seq<Step>)
    requires CarefulRun(states, steps)
    ensures |states| == |steps| + 1
  {
    hide Careful, Possible, Do;
  }

  lemma {:induction false} LockRun(states: seq<State>, steps: seq<Step>, i: nat)
    requires CarefulRun(states, steps) && i < |states|
    ensures Inv(states[i]) && LockInv(states[i])
  {
    hide Inv, LockInv, Careful, IsRun, Possible, Do;
    RunStarts(states, steps);
    RunInv(states, steps, i);
    if i == 0 {
      EmptyLocked();
    } else {
      LockRun(states, steps, i - 1);
      CarefulStep(states, steps, i - 1);
      StepGuards(states[i - 1], steps[i - 1]);
    }
  }

  lemma EmptyLocked()
    ensures LockInv(EMPTY)
  {
  }

  /** Lock enabled implies versioning enabled, in every reachable state. */
  lemma LockImpliesVersioning(states: seq<State>, steps: seq<Step>, i: nat, n: Name)
    requires CarefulRun(states, steps) && i < |states| && n in states[i].kv.buckets && states[i].kv.buckets[n].lock
    ensures states[i].kv.buckets[n].versioning == Versioning.Enabled
  {
    hide CarefulRun, Inv, LockProc;
    LockRun(states, steps, i);
  }

  /** A version under legal hold survives every step with the same data, and stays under hold
      unless that very step released it. */
  lemma HeldVersionStays(states: seq<State>, steps: seq<Step>, i: nat, id: ObjectId)
    requires CarefulRun(states, steps) && i < |steps| && |states| == |steps| + 1
    requires id in states[i].kv.objects && states[i].kv.objects[id].legalHold
    requires Possible(states[i], steps[i])
    ensures id in states[i + 1].kv.objects && SameBody(states[i + 1].kv.objects[id], states[i].kv.objects[id])
    ensures ReleasedBy(states[i], steps[i]) != Some(id) ==> states[i + 1].kv.objects[id].legalHold
  {
    hide CarefulRun, Inv, LockInv, Careful, Possible, Do, ReleasedBy, SameBody, Retained;
    LockRun(states, steps, i);
    CarefulStep(states, steps, i);
    StepGuards(states[i], steps[i]);
    assert Guarded(states[i].kv.objects[id], states[i].now);
  }

  /** From step `i` up to state `j` no step released the hold of the version. */
  ghost predicate Unreleased(states: seq<State>, steps: seq<Step>, i: nat, j: nat, id: ObjectId)
    requires |states| == |steps| + 1 && j <= |steps|
  {
    forall k :: i <= k < j && Possible(states[k], steps[k]) ==> ReleasedBy(states[k], steps[k]) != Some(id)
  }

  /** A version stays stored with the same data, and held, for as long as its hold is on. */
  lemma {:induction false} HeldUntilReleased(states: seq<State>, steps: seq<Step>, i: nat, j: nat, id: ObjectId)
    requires CarefulRun(states, steps) && |states| == |steps| + 1 && i <= j <= |steps|
    requires id in states[i].kv.objects && states[i].kv.objects[id].legalHold && Unreleased(states, steps, i, j, id)
    ensures id in states[j].kv.objects && states[j].kv.objects[id].legalHold
    ensures SameBody(states[j].kv.objects[id], states[i].kv.objects[id])
    decreases j
  {
    hide CarefulRun, Careful, Possible, Do, ReleasedBy, SameBody;
    if i < j {
      HeldUntilReleased(states, steps, i, j - 1, id);
      CarefulMove(states, steps, j - 1);
      HeldVersionStays(states, steps, j - 1, id);
      SameBodyTwice(states[i].kv.objects[id], states[j - 1].kv.objects[id], states[j].kv.objects[id]);
    } else {
      SameBodyTwice(states[i].kv.objects[id], states[i].kv.objects[id], states[i].kv.objects[id]);
    }
  }

  lemma CarefulMove(states: seq<State>, steps: seq<Step>, i: nat)
    requires CarefulRun(states, steps) && |states| == |steps| + 1 && i < |steps|
    ensures Possible(states[i], steps[i])
  {
    hide Possible, Do, Careful;
  }

  /** A version under compliance retention until some time stays stored, with the same data, at
      all times before, and its retain-until never decreases. */
  lemma {:induction false} RetainedVersionStays(states: seq<State>, steps: seq<Step>, i: nat, j: nat, id: ObjectId)
    requires CarefulRun(states, steps) && i <= j < |states|
    requires id in states[i].kv.objects && Retained(states[i].kv.objects[id], states[j].now)
    ensures id in states[j].kv.objects
    ensures var o, o' := states[i].kv.objects[id], states[j].kv.objects[id];
      SameBody(o', o) && o'.vid == o.vid && o'.retention.Some? && o'.retention.value.mode == Compliance &&
      o'.retention.value.until >= o.retention.value.until
    decreases j
  {
    hide CarefulRun, Inv, LockInv, Careful, Possible, Do, ReleasedBy, SameBody, Onward;
    CarefulLength(states, steps);
    if i < j {
      LockRun(states, steps, j - 1);
      CarefulStep(states, steps, j - 1);
      StepSparesBytes(states[j - 1], steps[j - 1]);
      OnwardMeans(states[j - 1], states[j], Blob("", 0));
      RetainedVersionStays(states, steps, i, j - 1, id);
      StepGuards(states[j - 1], steps[j - 1]);
      assert Guarded(states[j - 1].kv.objects[id], states[j - 1].now);
      SameBodyTwice(states[i].kv.objects[id], states[j - 1].kv.objects[id], states[j].kv.objects[id]);
    } else {
      SameBodyTwice(states[i].kv.objects[id], states[i].kv.objects[id], states[i].kv.objects[id]);
    }
  }

  lemma SameBodyTwice(o: Object, o': Object, o'': Object)
    ensures SameBody(o, o)
    ensures SameBody(o', o) && SameBody(o'', o') ==> SameBody(o'', o)
  {
  }
}
