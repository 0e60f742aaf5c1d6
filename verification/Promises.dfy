/** What the object service promises of its transactions, in terms of the records alone: when a
    request is granted, and what the store then holds (internal/object over internal/meta). */
module Promises {
  import opened Records
  import opened Service
  import Checksum

  // ----- the terms of a request

  /** The bucket is live, and is the one the request was authorised against. */
  predicate Accepts(kv: Kv, e: Expect, name: Name) {
    name in kv.buckets && !kv.buckets[name].deleting &&
    (e.bucketCreated.Some? ==> e.bucketCreated.value == kv.buckets[name].created)
  }

  predicate ListsTag(list: ETags, etag: string) {
    list.any || etag in list.tags
  }

  /** The newest version of the key, if it is no delete marker. */
  ghost predicate IsCurrent(kv: Kv, name: Name, key: Key, n: nat) {
    IsNewest(kv, name, key, n) && !kv.objects[ObjectId(name, key, n)].deleteMarker
  }

  ghost predicate CurrentLists(kv: Kv, name: Name, key: Key, list: ETags) {
    exists n :: IsCurrent(kv, name, key, n) && ListsTag(list, kv.objects[ObjectId(name, key, n)].etag)
  }

  /** If-Match wants a current version with a listed tag, If-None-Match wants none. */
  ghost predicate Satisfied(kv: Kv, name: Name, key: Key, c: Conditions) {
    && (c.ifMatch.Some? ==> CurrentLists(kv, name, key, c.ifMatch.value))
    && (c.ifNoneMatch.Some? ==> !CurrentLists(kv, name, key, c.ifNoneMatch.value))
  }

  predicate Active(o: Object, now: int) {
    o.retention.Some? && now < o.retention.value.until
  }

  /** A version may be removed: no legal hold, and no active retention but governance retention
      that the request bypasses. */
  predicate MayGo(o: Object, bypass: bool, now: int) {
    !o.legalHold && (Active(o, now) ==> o.retention.value.mode == Governance && bypass)
  }

  ghost predicate NullsMayGo(kv: Kv, name: Name, key: Key, bypass: bool, now: int) {
    forall n: nat :: IsNullVersion(kv, name, key, n) ==> MayGo(kv.objects[ObjectId(name, key, n)], bypass, now)
  }

  ghost predicate HasId(kv: Kv, name: Name, key: Key, vid: Vid, n: nat) {
    ObjectId(name, key, n) in kv.objects && kv.objects[ObjectId(name, key, n)].vid == vid
  }

  // ----- a version is written

  function WrittenId(b: Bucket, seqNo: nat, random: nat): Vid {
    match b.versioning
    case Enabled => SeqId(seqNo, random)
    case Suspended => NullId
    case Unversioned => NullId
  }

  /** A version that a write in this bucket takes the place of. */
  predicate GivesWay(kv: Kv, name: Name, key: Key, id: ObjectId) {
    name in kv.buckets && kv.buckets[name].versioning != Versioning.Enabled &&
    id.bucket == name && id.key == key && id in kv.objects && kv.objects[id].vid == NullId
  }

  /** The version stands under its sequence, with the ID that the versioning of its bucket asks
      for; of the other versions only the null version it takes the place of is gone. */
  ghost predicate Wrote(kv: Kv, kv': Kv, name: Name, key: Key, o: Object, random: nat)
    requires name in kv.buckets
  {
    var added, vid := ObjectId(name, key, o.seqNo), WrittenId(kv.buckets[name], o.seqNo, random);
    && added in kv'.objects && kv'.objects[added] == o.(vid := vid)
    && GetVersion(kv', name, key, vid) == Some(o.(vid := vid))
    && ((forall n: nat :: ObjectId(name, key, n) in kv.objects ==> n < o.seqNo) ==> GetLatest(kv', name, key) == Some(o.(vid := vid)))
    && (forall id :: id != added ==>
          (id in kv'.objects <==> id in kv.objects && !GivesWay(kv, name, key, id)) &&
          (id in kv'.objects ==> kv'.objects[id] == kv.objects[id]))
    && VersionsValid(kv') && kv'.buckets == kv.buckets
  }

  ghost predicate HandedBack(kv: Kv, name: Name, key: Key, replaced: Option<Object>) {
    && (replaced.Some? ==> exists id :: GivesWay(kv, name, key, id) && kv.objects[id] == replaced.value)
    && (forall id :: GivesWay(kv, name, key, id) ==> replaced == Some(kv.objects[id]))
  }

  ghost predicate IsFresh(kv: Kv, name: Name, key: Key, seqNo: nat) {
    VersionsValid(kv) && ObjectId(name, key, seqNo) !in kv.objects
  }

  /** What writing a version through `PutObject` means. */
  lemma WriteMeans(kv: Kv, name: Name, key: Key, o: Object, random: nat)
    requires IsFresh(kv, name, key, o.seqNo) && name in kv.buckets
    ensures var v := o.(vid := VersionIdFor(kv.buckets[name], o.seqNo, random));
      Wrote(kv, PutObject(kv, name, key, v), name, key, o, random) && HandedBack(kv, name, key, Replaced(kv, name, key, v)) &&
      PutObject(kv, name, key, v).uploads == kv.uploads && PutObject(kv, name, key, v).parts == kv.parts
  {
    var v := o.(vid := VersionIdFor(kv.buckets[name], o.seqNo, random));
    var kv' := PutObject(kv, name, key, v);
    PutObjectEffect(kv, name, key, v);
    PutObjectKeeps(kv, name, key, v);
    GetVersionIsLookup(kv', name, key, v.vid, v);
    SameRest(kv, name, key, v);
    hide VersionsValid, PutObject, GetVersion, Replaced, GetLatest, NewVersion;
    assert forall id :: IsReplaced(kv, name, key, v, id) <==> GivesWay(kv, name, key, id);
    hide GivesWay, IsReplaced, VersionIdFor;
    if forall n: nat :: ObjectId(name, key, n) in kv.objects ==> n < o.seqNo { NewestIs(kv', name, key, o.seqNo); }
    hide IsNewest;
  }

  lemma SameRest(kv: Kv, name: Name, key: Key, o: Object)
    ensures var kv' := PutObject(kv, name, key, o); kv'.buckets == kv.buckets && kv'.uploads == kv.uploads && kv'.parts == kv.parts
  {
  }

  lemma NewestIs(kv: Kv, name: Name, key: Key, n: nat)
    requires IsNewest(kv, name, key, n)
    ensures GetLatest(kv, name, key) == Some(kv.objects[ObjectId(name, key, n)])
  {
    var o := GetLatest(kv, name, key);
    var m :| IsNewest(kv, name, key, m) && o.value == kv.objects[ObjectId(name, key, m)];
    assert m == n;
  }

  /** The newest version and `GetLatest`. */
  lemma LatestMeans(kv: Kv, name: Name, key: Key)
    ensures forall n :: IsNewest(kv, name, key, n) ==> GetLatest(kv, name, key) == Some(kv.objects[ObjectId(name, key, n)])
    ensures GetLatest(kv, name, key).Some? ==>
      exists n :: IsNewest(kv, name, key, n) && GetLatest(kv, name, key).value == kv.objects[ObjectId(name, key, n)]
  {
    forall n | IsNewest(kv, name, key, n)
      ensures GetLatest(kv, name, key) == Some(kv.objects[ObjectId(name, key, n)])
    {
      NewestIs(kv, name, key, n);
    }
  }

  lemma ConditionsMean(kv: Kv, name: Name, key: Key, c: Conditions)
    ensures CheckWriteConditions(kv, name, key, c).None? <==> Satisfied(kv, name, key, c)
  {
    LatestMeans(kv, name, key);
    hide GetLatest;
    CurrentMeans(kv, name, key);
    hide IsCurrent, IsNewest;
    if c.ifMatch.Some? { CurrentListsMeans(kv, name, key, c.ifMatch.value); }
    if c.ifNoneMatch.Some? { CurrentListsMeans(kv, name, key, c.ifNoneMatch.value); }
    hide CurrentLists, Current;
  }

  lemma CurrentMeans(kv: Kv, name: Name, key: Key)
    ensures forall n :: IsCurrent(kv, name, key, n) ==> Current(kv, name, key) == Some(kv.objects[ObjectId(name, key, n)])
    ensures Current(kv, name, key).Some? ==>
      exists n :: IsCurrent(kv, name, key, n) && Current(kv, name, key).value == kv.objects[ObjectId(name, key, n)]
  {
    LatestMeans(kv, name, key);
    hide GetLatest;
    if Current(kv, name, key).Some? {
      var n :| IsNewest(kv, name, key, n) && GetLatest(kv, name, key).value == kv.objects[ObjectId(name, key, n)];
      assert IsCurrent(kv, name, key, n);
    }
  }

  lemma CurrentListsMeans(kv: Kv, name: Name, key: Key, list: ETags)
    ensures CurrentLists(kv, name, key, list) <==> Current(kv, name, key).Some? && EtagMatches(list, Current(kv, name, key).value.etag)
  {
    CurrentMeans(kv, name, key);
    hide Current, IsCurrent;
  }

  // ----- PutObject

  ghost predicate PutGranted(kv: Kv, e: Expect, name: Name, key: Key, seen: Bucket, c: Conditions, now: int) {
    && Accepts(kv, e, name) && kv.buckets[name].created == seen.created
    && Satisfied(kv, name, key, c)
    && (kv.buckets[name].versioning != Versioning.Enabled ==> NullsMayGo(kv, name, key, false, now))
  }

  ghost predicate PutDone(kv: Kv, kv': Kv, name: Name, key: Key, o: Object, random: nat, replaced: Option<Object>)
    requires name in kv.buckets
  {
    Wrote(kv, kv', name, key, o, random) && HandedBack(kv, name, key, replaced) && kv'.uploads == kv.uploads && kv'.parts == kv.parts
  }

  /** A put succeeds exactly when its bucket, its conditions and the lock of the null version it
      would replace allow it, and then its version is stored. */
  lemma PutMeans(kv: Kv, e: Expect, name: Name, key: Key, seen: Bucket, o: Object, random: nat, c: Conditions, now: int)
    requires IsFresh(kv, name, key, o.seqNo)
    ensures var r := CommitPut(kv, e, name, key, seen, o, random, c, now);
      (r.Committed? <==> PutGranted(kv, e, name, key, seen, c, now)) &&
      (r.Committed? ==> PutDone(kv, r.kv, name, key, o, random, r.value))
  {
    ConditionsMean(kv, name, key, c);
    NullLockMeans(kv, name, key, false, now);
    if name in kv.buckets { WriteMeans(kv, name, key, o, random); }
    hide VersionsValid, Wrote, HandedBack, PutObject, Replaced, CheckWriteConditions, Satisfied, NullsMayGo, GetVersion, Locked;
  }

  lemma NullLockMeans(kv: Kv, name: Name, key: Key, bypass: bool, now: int)
    requires VersionsValid(kv)
    ensures var cur := GetVersion(kv, name, key, NullId);
      NullsMayGo(kv, name, key, bypass, now) <==> !(cur.Some? && Locked(cur.value, bypass, now))
  {
    var cur := GetVersion(kv, name, key, NullId);
    forall n: nat | IsNullVersion(kv, name, key, n)
      ensures cur == Some(kv.objects[ObjectId(name, key, n)])
    {
      GetVersionIsLookup(kv, name, key, NullId, kv.objects[ObjectId(name, key, n)]);
    }
    if cur.Some? {
      GetVersionIsLookup(kv, name, key, NullId, cur.value);
      assert IsNullVersion(kv, name, key, cur.value.seqNo);
    }
    hide VersionsValid, GetVersion;
  }
}
