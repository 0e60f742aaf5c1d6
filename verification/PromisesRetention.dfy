/** What the promises of the transactions mean for a version under active retention, in either mode. */
module PromisesRetention {
  import opened Records
  import opened Service
  import opened Promises
  import opened PromisesDelete
  import opened PromisesMultipart

  /** The version stands unchanged but for its lock, under retention of the same mode for at least
      as long. */
  ghost predicate Upheld(kv: Kv, kv': Kv, id: ObjectId)
    requires id in kv.objects
  {
    id in kv'.objects &&
    var o, o' := kv.objects[id], kv'.objects[id];
    o' == o.(retention := o'.retention, legalHold := o'.legalHold) &&
    (o.retention.Some? ==>
      o'.retention.Some? && o'.retention.value.mode == o.retention.value.mode && o'.retention.value.until >= o.retention.value.until)
  }

  lemma Unmoved(kv: Kv, kv': Kv, id: ObjectId)
    requires id in kv.objects && kv'.objects == kv.objects
    ensures Upheld(kv, kv', id)
  {
  }

  lemma UpheldTwice(kv: Kv, kv': Kv, kv'': Kv, id: ObjectId)
    requires id in kv.objects && Upheld(kv, kv', id) && Upheld(kv', kv'', id)
    ensures Upheld(kv, kv'', id)
  {
  }

  lemma WriteUpholds(kv: Kv, kv': Kv, name: Name, key: Key, o: Object, random: nat, id: ObjectId)
    requires name in kv.buckets && Wrote(kv, kv', name, key, o, random) && ObjectId(name, key, o.seqNo) !in kv.objects
    requires id in kv.objects && !GivesWay(kv, name, key, id)
    ensures Upheld(kv, kv', id)
  {
  }

  lemma PutUpholds(kv: Kv, kv': Kv, e: Expect, name: Name, key: Key, seen: Bucket, o: Object, random: nat, c: Conditions, now: int,
                   replaced: Option<Object>, id: ObjectId)
    requires IsFresh(kv, name, key, o.seqNo) && PutGranted(kv, e, name, key, seen, c, now)
    requires PutDone(kv, kv', name, key, o, random, replaced) && id in kv.objects && Active(kv.objects[id], now)
    ensures Upheld(kv, kv', id)
  {
    hide VersionsValid, Wrote, HandedBack, Satisfied, Upheld;
    assert GivesWay(kv, name, key, id) ==> IsNullVersion(kv, name, key, id.seqNo);
    WriteUpholds(kv, kv', name, key, o, random, id);
  }

  /** An upload may be completed over a null version without a look at its lock: in a bucket with
      object lock there is none to give way. */
  lemma CompleteUpholds(kv: Kv, kv': Kv, name: Name, key: Key, upload: nat, u: Upload, r: CompleteRequest, seqNo: nat, random: nat,
                        left: Leftovers, id: ObjectId)
    requires IsFresh(kv, name, key, seqNo) && Completed(kv, kv', name, key, upload, u, r, seqNo, random, left)
    requires id in kv.objects && (id.bucket in kv.buckets ==> kv.buckets[id.bucket].versioning == Versioning.Enabled)
    ensures Upheld(kv, kv', id)
  {
    hide VersionsValid, Wrote, HandedBack, Upheld, NamesParts, IsSum, UploadClosed;
    var o :| CompleteDone(kv, kv', name, key, upload, u, r, seqNo, random, left, o) && Agrees(u, r, o);
    WriteUpholds(kv, kv', name, key, o, random, id);
  }

  lemma DeleteOneUpholds(kv: Kv, kv': Kv, e: Expect, name: Name, key: Key, q: DeleteRequest, now: int, id: ObjectId)
    requires q.vid.Some? && DeleteOneGranted(kv, e, name, key, q, now) && RemovedId(kv, kv', name, key, q.vid.value)
    requires id in kv.objects && Active(kv.objects[id], now)
    ensures Upheld(kv, kv', id) || (q.bypass && IsVersionOf(id, name, key) && kv.objects[id].retention.value.mode == Governance)
  {
    hide VersionsValid;
    if Carries(kv, name, key, q.vid.value, id) { assert HasId(kv, name, key, q.vid.value, id.seqNo); }
  }

  lemma DeleteCurrentUpholds(kv: Kv, kv': Kv, e: Expect, name: Name, key: Key, q: DeleteRequest, seqNo: nat, random: nat, now: int, id: ObjectId)
    requires IsFresh(kv, name, key, seqNo) && DeleteCurrentGranted(kv, e, name, key, q, now)
    requires name in kv.buckets && DeleteCurrentDone(kv, kv', name, key, seqNo, random) && id in kv.objects && Active(kv.objects[id], now)
    ensures Upheld(kv, kv', id) || (q.bypass && IsVersionOf(id, name, key) && kv.objects[id].retention.value.mode == Governance)
  {
    hide VersionsValid, Wrote, CurrentLists;
    if kv.buckets[name].versioning != Unversioned {
      if GivesWay(kv, name, key, id) {
        assert IsNullVersion(kv, name, key, id.seqNo);
      } else {
        WriteUpholds(kv, kv', name, key, Object(NullId, seqNo, true, 0, "", [], None, None, false), random, id);
      }
    }
    hide IsNewest;
  }

  lemma RetentionUpholds(kv: Kv, kv': Kv, e: Expect, name: Name, key: Key, vid: Option<Vid>, wanted: Option<Retention>, bypass: bool,
                         now: int, id: ObjectId)
    requires RetainGranted(kv, e, name, key, vid, wanted, bypass, now) && RetainDone(kv, kv', e, name, key, vid, wanted)
    requires id in kv.objects && Active(kv.objects[id], now)
    ensures id in kv'.objects
    ensures Upheld(kv, kv', id) || (bypass && IsVersionOf(id, name, key) && kv.objects[id].retention.value.mode == Governance)
  {
    var n :| Updates(kv, e, name, key, vid, n) && RetentionMay(kv.objects[ObjectId(name, key, n)], wanted, bypass, now);
    hide IsNewest;
  }

  lemma HoldUpholds(kv: Kv, kv': Kv, e: Expect, name: Name, key: Key, vid: Option<Vid>, on: bool, id: ObjectId)
    requires HoldGranted(kv, e, name, key, vid) && HoldDone(kv, kv', e, name, key, vid, on) && id in kv.objects
    ensures Upheld(kv, kv', id)
  {
    var n :| Updates(kv, e, name, key, vid, n);
    hide IsNewest;
  }
}
