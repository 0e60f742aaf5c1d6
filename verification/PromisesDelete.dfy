/** What deleting an object and changing its lock promise, in terms of the records alone
    (internal/object/delete.go and internal/object/tagging.go). */
module PromisesDelete {
  import opened Records
  import opened Service
  import opened Promises

  // ----- one version by its ID

  /** The other conditions of a delete hold of version `n`. */
  predicate Wanted(kv: Kv, e: Expect, name: Name, key: Key, q: DeleteRequest, n: nat)
    requires ObjectId(name, key, n) in kv.objects
  {
    && (q.ifMatch.Some? ==> ListsTag(q.ifMatch.value, kv.objects[ObjectId(name, key, n)].etag))
    && (q.ifSeq.Some? ==> q.ifSeq.value == n)
    && (e.objectSeq.Some? ==> e.objectSeq.value == n)
  }

  ghost predicate IdStored(kv: Kv, name: Name, key: Key, vid: Vid) {
    exists n :: HasId(kv, name, key, vid, n)
  }

  /** A version goes when nothing forbids it; deleting what is not there succeeds if the ID is one. */
  ghost predicate DeleteOneGranted(kv: Kv, e: Expect, name: Name, key: Key, q: DeleteRequest, now: int)
    requires q.vid.Some?
  {
    && Accepts(kv, e, name)
    && (IdStored(kv, name, key, q.vid.value) || !q.vid.value.BadId?)
    && forall n :: HasId(kv, name, key, q.vid.value, n) ==>
         Wanted(kv, e, name, key, q, n) && MayGo(kv.objects[ObjectId(name, key, n)], q.bypass, now)
  }

  /** The versions that carry the ID. */
  predicate Carries(kv: Kv, name: Name, key: Key, vid: Vid, id: ObjectId) {
    id in kv.objects && id.bucket == name && id.key == key && kv.objects[id].vid == vid
  }

  /** Exactly the versions that carry the ID are gone, and nothing else changed. */
  ghost predicate RemovedId(kv: Kv, kv': Kv, name: Name, key: Key, vid: Vid) {
    && (forall id :: id in kv'.objects <==> id in kv.objects && !Carries(kv, name, key, vid, id))
    && (forall id :: id in kv'.objects ==> kv'.objects[id] == kv.objects[id])
    && VersionsValid(kv') && kv'.buckets == kv.buckets && kv'.uploads == kv.uploads && kv'.parts == kv.parts
  }

  ghost predicate TellsRemoved(kv: Kv, name: Name, key: Key, vid: Vid, removed: Option<Object>) {
    && (removed.Some? ==> exists id :: Carries(kv, name, key, vid, id) && kv.objects[id] == removed.value)
    && (forall id :: Carries(kv, name, key, vid, id) ==> removed == Some(kv.objects[id]))
  }

  lemma DeleteOneMeans(kv: Kv, e: Expect, name: Name, key: Key, q: DeleteRequest, seqNo: nat, random: nat, now: int)
    requires VersionsValid(kv) && q.vid.Some?
    ensures var r := CommitDelete(kv, e, name, key, q, seqNo, random, now);
      (r.Committed? <==> DeleteOneGranted(kv, e, name, key, q, now)) &&
      (r.Committed? ==> RemovedId(kv, r.kv, name, key, q.vid.value) && TellsRemoved(kv, name, key, q.vid.value, r.value.removed))
  {
    var vid := q.vid.value;
    var o := GetVersion(kv, name, key, vid);
    LookupMeans(kv, name, key, vid);
    if o.Some? {
      DeleteVersionKeeps(kv, name, key, o.value);
      OneRemoved(kv, name, key, o.value);
      assert HasId(kv, name, key, vid, o.value.seqNo);
    }
    hide VersionsValid, GetVersion, DeleteVersion, RemovedId, TellsRemoved;
    if o.None? { NoneRemoved(kv, name, key, vid); }
  }

  /** `GetVersion` finds the one version that carries the ID. */
  lemma LookupMeans(kv: Kv, name: Name, key: Key, vid: Vid)
    requires VersionsValid(kv)
    ensures var o := GetVersion(kv, name, key, vid);
      (o.Some? ==> HasId(kv, name, key, vid, o.value.seqNo) && kv.objects[ObjectId(name, key, o.value.seqNo)] == o.value) &&
      forall n :: HasId(kv, name, key, vid, n) ==> o == Some(kv.objects[ObjectId(name, key, n)]) && o.value.seqNo == n
  {
    var o := GetVersion(kv, name, key, vid);
    if o.Some? { GetVersionIsLookup(kv, name, key, vid, o.value); }
    forall n | HasId(kv, name, key, vid, n)
      ensures o == Some(kv.objects[ObjectId(name, key, n)]) && o.value.seqNo == n
    {
      GetVersionIsLookup(kv, name, key, vid, kv.objects[ObjectId(name, key, n)]);
    }
  }

  lemma OneRemoved(kv: Kv, name: Name, key: Key, o: Object)
    requires VersionsValid(kv) && VersionsValid(DeleteVersion(kv, name, key, o))
    requires ObjectId(name, key, o.seqNo) in kv.objects && kv.objects[ObjectId(name, key, o.seqNo)] == o
    ensures RemovedId(kv, DeleteVersion(kv, name, key, o), name, key, o.vid) && TellsRemoved(kv, name, key, o.vid, Some(o))
  {
    LookupMeans(kv, name, key, o.vid);
    forall id
      ensures Carries(kv, name, key, o.vid, id) <==> id == ObjectId(name, key, o.seqNo)
    {
      if Carries(kv, name, key, o.vid, id) { assert HasId(kv, name, key, o.vid, id.seqNo) && HasId(kv, name, key, o.vid, o.seqNo); }
    }
    hide VersionsValid, GetVersion, HasId;
  }

  lemma NoneRemoved(kv: Kv, name: Name, key: Key, vid: Vid)
    requires VersionsValid(kv) && forall n :: !HasId(kv, name, key, vid, n)
    ensures RemovedId(kv, kv, name, key, vid) && TellsRemoved(kv, name, key, vid, None)
  {
    forall id
      ensures !Carries(kv, name, key, vid, id)
    {
      assert !HasId(kv, name, key, vid, id.seqNo);
    }
    hide VersionsValid;
  }

  // ----- the current version

  /** A delete without an ID: in an unversioned bucket the newest version must be free to go, in a
      suspended one the null version. */
  ghost predicate DeleteCurrentGranted(kv: Kv, e: Expect, name: Name, key: Key, q: DeleteRequest, now: int) {
    && Accepts(kv, e, name)
    && (q.ifMatch.Some? ==> CurrentLists(kv, name, key, q.ifMatch.value))
    && (q.ifSeq.Some? ==> IsNewest(kv, name, key, q.ifSeq.value))
    && match kv.buckets[name].versioning
       case Enabled => true
       case Suspended => NullsMayGo(kv, name, key, q.bypass, now)
       case Unversioned => forall n :: IsNewest(kv, name, key, n) ==> MayGo(kv.objects[ObjectId(name, key, n)], q.bypass, now)
  }

  /** A marker on top of what is kept, or the newest version gone. */
  ghost predicate DeleteCurrentDone(kv: Kv, kv': Kv, name: Name, key: Key, seqNo: nat, random: nat)
    requires name in kv.buckets
  {
    if kv.buckets[name].versioning == Unversioned then RemovedNewest(kv, kv', name, key)
    else
      Wrote(kv, kv', name, key, Object(NullId, seqNo, true, 0, "", [], None, None, false), random) &&
      kv'.uploads == kv.uploads && kv'.parts == kv.parts
  }

  predicate IsVersionOf(id: ObjectId, name: Name, key: Key) {
    id.bucket == name && id.key == key
  }

  ghost predicate RemovedNewest(kv: Kv, kv': Kv, name: Name, key: Key) {
    && (forall id :: id in kv'.objects <==> id in kv.objects && !(IsVersionOf(id, name, key) && IsNewest(kv, name, key, id.seqNo)))
    && (forall id :: id in kv'.objects ==> kv'.objects[id] == kv.objects[id])
    && VersionsValid(kv') && kv'.buckets == kv.buckets && kv'.uploads == kv.uploads && kv'.parts == kv.parts
  }

  predicate Gone(kv: Kv, kv': Kv, id: ObjectId) {
    id in kv.objects && id !in kv'.objects
  }

  /** The version that is gone, if one is, is handed back. */
  ghost predicate TellsGone(kv: Kv, kv': Kv, removed: Option<Object>) {
    && (removed.Some? ==> exists id :: Gone(kv, kv', id) && kv.objects[id] == removed.value)
    && (forall id :: Gone(kv, kv', id) ==> removed == Some(kv.objects[id]))
  }

  lemma DeleteCurrentMeans(kv: Kv, e: Expect, name: Name, key: Key, q: DeleteRequest, seqNo: nat, random: nat, now: int)
    requires IsFresh(kv, name, key, seqNo) && q.vid.None?
    ensures var r := CommitDelete(kv, e, name, key, q, seqNo, random, now);
      (r.Committed? <==> DeleteCurrentGranted(kv, e, name, key, q, now)) &&
      (r.Committed? ==> DeleteCurrentDone(kv, r.kv, name, key, seqNo, random) && TellsGone(kv, r.kv, r.value.removed))
  {
    hide TellsGone, VersionsValid, Wrote, HandedBack, PutObject, DeleteVersion, CheckDeleteConditions, NullsMayGo, GetVersion, GetLatest, Locked,
      RemovedNewest, CurrentLists, IsNewest, MayGo, IsFresh, VersionIdFor, Replaced;
    assert VersionsValid(kv) by { FreshIsValid(kv, name, key, seqNo); }
    DeleteConditionsMean(kv, name, key, q);
    if name in kv.buckets {
      match kv.buckets[name].versioning
      case Enabled => MarkerWritten(kv, name, key, seqNo, random);
      case Suspended =>
        NullLockMeans(kv, name, key, q.bypass, now);
        MarkerWritten(kv, name, key, seqNo, random);
      case Unversioned =>
        NewestLockMeans(kv, name, key, q.bypass, now);
        NewestRemoved(kv, name, key);
    }
  }

  lemma FreshIsValid(kv: Kv, name: Name, key: Key, seqNo: nat)
    requires IsFresh(kv, name, key, seqNo)
    ensures VersionsValid(kv)
  {
  }

  lemma MarkerWritten(kv: Kv, name: Name, key: Key, seqNo: nat, random: nat)
    requires IsFresh(kv, name, key, seqNo) && name in kv.buckets && kv.buckets[name].versioning != Unversioned
    ensures var vid := if kv.buckets[name].versioning == Versioning.Enabled then SeqId(seqNo, random) else NullId;
      var kv' := PutObject(kv, name, key, DeleteMarker(vid, seqNo));
      DeleteCurrentDone(kv, kv', name, key, seqNo, random) &&
      TellsGone(kv, kv', if vid == NullId then GetVersion(kv, name, key, NullId) else None)
  {
    hide VersionsValid, Wrote, HandedBack, PutObject, IsFresh, GetVersion, TellsGone;
    var o := Object(NullId, seqNo, true, 0, "", [], None, None, false);
    var v := o.(vid := VersionIdFor(kv.buckets[name], seqNo, random));
    WriteMeans(kv, name, key, o, random);
    WriteTells(kv, PutObject(kv, name, key, v), name, key, o, random, Replaced(kv, name, key, v));
  }

  /** What a write hands back is what it took the place of. */
  lemma WriteTells(kv: Kv, kv': Kv, name: Name, key: Key, o: Object, random: nat, replaced: Option<Object>)
    requires IsFresh(kv, name, key, o.seqNo) && name in kv.buckets && Wrote(kv, kv', name, key, o, random) && HandedBack(kv, name, key, replaced)
    ensures TellsGone(kv, kv', replaced)
  {
    hide VersionsValid, GetVersion, GetLatest, WrittenId;
    forall id
      ensures Gone(kv, kv', id) <==> GivesWay(kv, name, key, id)
    {
    }
    hide Gone, GivesWay;
  }

  lemma DeleteConditionsMean(kv: Kv, name: Name, key: Key, q: DeleteRequest)
    requires VersionsValid(kv)
    ensures CheckDeleteConditions(GetLatest(kv, name, key), q).None? <==>
      (q.ifMatch.Some? ==> CurrentLists(kv, name, key, q.ifMatch.value)) && (q.ifSeq.Some? ==> IsNewest(kv, name, key, q.ifSeq.value))
  {
    LatestMeans(kv, name, key);
    if q.ifMatch.Some? { CurrentListsMeans(kv, name, key, q.ifMatch.value); }
    hide GetLatest, CurrentLists;
  }

  lemma NewestLockMeans(kv: Kv, name: Name, key: Key, bypass: bool, now: int)
    ensures var cur := GetLatest(kv, name, key);
      (forall n :: IsNewest(kv, name, key, n) ==> MayGo(kv.objects[ObjectId(name, key, n)], bypass, now)) <==>
      !(cur.Some? && Locked(cur.value, bypass, now))
  {
    LatestMeans(kv, name, key);
    hide GetLatest, IsNewest;
  }

  lemma NewestRemoved(kv: Kv, name: Name, key: Key)
    requires VersionsValid(kv)
    ensures var cur := GetLatest(kv, name, key);
      var kv' := if cur.Some? then DeleteVersion(kv, name, key, cur.value) else kv;
      RemovedNewest(kv, kv', name, key) && TellsGone(kv, kv', cur)
  {
    var cur := GetLatest(kv, name, key);
    LatestMeans(kv, name, key);
    hide GetLatest;
    if cur.Some? {
      var n :| IsNewest(kv, name, key, n) && cur.value == kv.objects[ObjectId(name, key, n)];
      DeleteVersionKeeps(kv, name, key, cur.value);
      forall id
        ensures IsVersionOf(id, name, key) && IsNewest(kv, name, key, id.seqNo) <==> id == ObjectId(name, key, n)
      {
      }
      hide VersionsValid, IsNewest;
    }
  }

  // ----- retention and legal hold

  /** Version `n` is the one the request addresses, and it may be updated. */
  ghost predicate Updates(kv: Kv, e: Expect, name: Name, key: Key, vid: Option<Vid>, n: nat) {
    && Accepts(kv, e, name)
    && (if vid.None? then IsNewest(kv, name, key, n) else HasId(kv, name, key, vid.value, n))
    && (e.objectSeq.Some? ==> e.objectSeq.value == n)
    && !kv.objects[ObjectId(name, key, n)].deleteMarker
  }

  /** Active retention is kept or extended in its mode, unless it is governance and bypassed. */
  predicate RetentionMay(o: Object, wanted: Option<Retention>, bypass: bool, now: int) {
    Active(o, now) ==>
      (wanted.Some? && wanted.value.until >= o.retention.value.until && wanted.value.mode == o.retention.value.mode) ||
      (o.retention.value.mode == Governance && bypass)
  }

  ghost predicate RetainGranted(kv: Kv, e: Expect, name: Name, key: Key, vid: Option<Vid>, wanted: Option<Retention>, bypass: bool, now: int) {
    exists n :: Updates(kv, e, name, key, vid, n) && RetentionMay(kv.objects[ObjectId(name, key, n)], wanted, bypass, now)
  }

  /** The addressed version has the new retention; nothing else changed. */
  ghost predicate RetainDone(kv: Kv, kv': Kv, e: Expect, name: Name, key: Key, vid: Option<Vid>, wanted: Option<Retention>) {
    forall n :: Updates(kv, e, name, key, vid, n) ==>
      var id := ObjectId(name, key, n); kv' == kv.(objects := kv.objects[id := kv.objects[id].(retention := wanted)])
  }

  ghost predicate HoldGranted(kv: Kv, e: Expect, name: Name, key: Key, vid: Option<Vid>) {
    exists n :: Updates(kv, e, name, key, vid, n)
  }

  ghost predicate HoldDone(kv: Kv, kv': Kv, e: Expect, name: Name, key: Key, vid: Option<Vid>, on: bool) {
    forall n :: Updates(kv, e, name, key, vid, n) ==>
      var id := ObjectId(name, key, n); kv' == kv.(objects := kv.objects[id := kv.objects[id].(legalHold := on)])
  }

  /** `FindVersion` finds the one version that the request updates. */
  lemma FindMeans(kv: Kv, e: Expect, name: Name, key: Key, vid: Option<Vid>)
    requires VersionsValid(kv)
    ensures var f := FindVersion(kv, e, name, key, vid);
      (f.Committed? ==> Updates(kv, e, name, key, vid, f.value.seqNo) && kv.objects[ObjectId(name, key, f.value.seqNo)] == f.value) &&
      forall n :: Updates(kv, e, name, key, vid, n) ==> f.Committed? && f.value.seqNo == n
  {
    LatestMeans(kv, name, key);
    if vid.Some? { LookupMeans(kv, name, key, vid.value); }
    hide GetLatest, GetVersion;
  }

  lemma RetainMeans(kv: Kv, e: Expect, name: Name, key: Key, vid: Option<Vid>, wanted: Option<Retention>, bypass: bool, now: int)
    requires VersionsValid(kv)
    ensures var r := CommitRetention(kv, e, name, key, vid, wanted, bypass, now);
      (r.Committed? <==> RetainGranted(kv, e, name, key, vid, wanted, bypass, now)) &&
      (r.Committed? ==> RetainDone(kv, r.kv, e, name, key, vid, wanted))
  {
    FindMeans(kv, e, name, key, vid);
    hide VersionsValid, FindVersion, Updates;
  }

  lemma HoldMeans(kv: Kv, e: Expect, name: Name, key: Key, vid: Option<Vid>, on: bool)
    requires VersionsValid(kv)
    ensures var r := CommitHold(kv, e, name, key, vid, on);
      (r.Committed? <==> HoldGranted(kv, e, name, key, vid)) && (r.Committed? ==> HoldDone(kv, r.kv, e, name, key, vid, on))
  {
    FindMeans(kv, e, name, key, vid);
    hide VersionsValid, FindVersion, Updates;
  }

  /** The lock attributes of a put or an upload: taken only in a bucket with object lock and for a
      time still to come; without a retention of its own a version gets the bucket's default. */
  lemma AttrsMean(b: Bucket, a: LockAttrs, now: int)
    ensures var r := ValidateAttrs(b, a, now);
      (r.Attrs? <==> ((a.retention.Some? || a.hold.Some?) ==> b.lock) && (a.retention.Some? ==> now < a.retention.value.until)) &&
      (r.Attrs? ==>
        (r.hold <==> a.hold == Some(true)) && (r.hold || r.retention.Some? ==> b.lock) &&
        (a.retention.Some? ==> r.retention == a.retention) &&
        (a.retention.None? ==> (r.retention.Some? <==> b.lock && b.lockDefault.Some?)) &&
        (a.retention.None? && r.retention.Some? ==>
          r.retention.value.mode == b.lockDefault.value.mode && r.retention.value.until - now == b.lockDefault.value.period))
  {
  }
}
