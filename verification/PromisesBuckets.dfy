/** What the bucket transactions promise, in terms of the records alone (internal/object/service.go
    and the handlers of internal/s3api/bucket.go). */
module PromisesBuckets {
  import opened Records
  import opened Service
  import opened Promises

  /** Only the record of the bucket is changed. */
  ghost predicate OnlyBucket(kv: Kv, kv': Kv, name: Name, b: Bucket) {
    && kv' == kv.(buckets := kv'.buckets) && name in kv'.buckets && kv'.buckets[name] == b
    && forall n :: n != name ==> (n in kv'.buckets <==> n in kv.buckets) && (n in kv'.buckets ==> kv'.buckets[n] == kv.buckets[n])
  }

  /** A bucket is created exactly under a name that no bucket has, not even one being deleted; with
      object lock it is versioned from the start. */
  lemma CreateMeans(kv: Kv, name: Name, created: nat, lock: bool)
    ensures var r := CommitCreateBucket(kv, name, created, lock);
      (r.Committed? <==> name !in kv.buckets) &&
      (r.Committed? ==>
        exists b :: OnlyBucket(kv, r.kv, name, b) && b.created == created && !b.deleting && b.lock == lock && b.lockDefault.None? &&
          b.versioning == if lock then Versioning.Enabled else Unversioned)
  {
    var r := CommitCreateBucket(kv, name, created, lock);
    if r.Committed? { assert OnlyBucket(kv, r.kv, name, r.kv.buckets[name]); }
  }

  /** The bucket is hidden, and none of its uploads and parts is left; every other record stays. */
  ghost predicate Emptied(kv: Kv, kv': Kv, name: Name)
    requires name in kv.buckets
  {
    && OnlyBucket(kv, kv.(buckets := kv'.buckets), name, kv.buckets[name].(deleting := true))
    && (forall id :: id in kv'.objects <==> id in kv.objects && id.bucket != name)
    && (forall id :: id in kv'.objects ==> kv'.objects[id] == kv.objects[id])
    && (forall p :: p in kv'.nulls ==> p in kv.nulls && kv'.nulls[p] == kv.nulls[p])
    && (forall p :: p in kv.nulls && p.bucket != name ==> p in kv'.nulls)
    && (forall u :: u in kv'.uploads <==> u in kv.uploads && u.bucket != name)
    && (forall u :: u in kv'.uploads ==> kv'.uploads[u] == kv.uploads[u])
    && (forall p :: p in kv'.parts <==> p in kv.parts && p.bucket != name)
    && (forall p :: p in kv'.parts ==> kv'.parts[p] == kv.parts[p])
  }

  /** A bucket is deleted exactly when it is live, is the one expected, and holds no version. */
  lemma DeleteMeans(kv: Kv, e: Expect, name: Name)
    ensures var r := CommitDeleteBucket(kv, e, name);
      (r.Committed? <==> Accepts(kv, e, name) && forall id :: id in kv.objects ==> id.bucket != name) &&
      (r.Committed? ==> Emptied(kv, r.kv, name))
  {
  }

  /** With force every version goes too. */
  lemma ForceMeans(kv: Kv, name: Name)
    ensures var r := CommitForceDelete(kv, name);
      (r.Committed? <==> Accepts(kv, Expect(None, None), name)) && (r.Committed? ==> Emptied(kv, r.kv, name))
  {
  }

  /** At the end the record goes, if the bucket is still being deleted; nothing else changes. */
  lemma FinishMeans(kv: Kv, name: Name)
    ensures var kv' := FinishDelete(kv, name);
      kv' == kv.(buckets := kv'.buckets) && (name in kv'.buckets <==> name in kv.buckets && !kv.buckets[name].deleting) &&
      forall n :: (n in kv'.buckets ==> n in kv.buckets && kv'.buckets[n] == kv.buckets[n]) && (n != name && n in kv.buckets ==> n in kv'.buckets)
  {
  }

  /** Versioning is enabled or suspended, but never suspended under object lock. */
  lemma VersioningMeans(kv: Kv, e: Expect, name: Name, v: Versioning)
    requires v != Unversioned
    ensures var r := CommitVersioning(kv, e, name, v);
      (r.Committed? <==> Accepts(kv, e, name) && (kv.buckets[name].lock ==> v == Versioning.Enabled)) &&
      (r.Committed? ==> OnlyBucket(kv, r.kv, name, kv.buckets[name].(versioning := v)))
  {
  }

  /** Object lock is turned on only in a bucket that keeps all versions, and never off. */
  lemma LockMeans(kv: Kv, e: Expect, name: Name, c: Option<LockConfig>)
    ensures var r := CommitLockConfig(kv, e, name, c);
      (r.Committed? <==> Accepts(kv, e, name) && (kv.buckets[name].lock || kv.buckets[name].versioning == Versioning.Enabled)) &&
      (r.Committed? ==> OnlyBucket(kv, r.kv, name, kv.buckets[name].(lock := true, lockDefault := c)))
  {
  }
}
