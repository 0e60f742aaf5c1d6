/** What the other steps of the protocol do: uploads and their parts, and buckets. Together with
    `Governance` every step that commits a transaction is described by what the records say before
    and after it. */
module Deeds {
  import opened Records
  import opened Service
  import opened Protocol
  import opened Promises
  import opened PromisesBuckets
  import opened PromisesMultipart

  /** An upload starts under the next number, if its bucket is the one it was authorised for. */
  lemma UploadStarts(s: State, p: nat)
    requires p in s.procs && s.procs[p].StartingUpload?
    ensures var x, s' := s.procs[p], Do(s, EndUpload(p));
      if Accepts(s.kv, x.e, x.name)
      then s'.kv == s.kv.(uploads := s.kv.uploads[UploadId(x.name, s.next) := x.u]) && s'.next > s.next
      else s'.kv == s.kv
  {
    var x := s.procs[p];
    UploadMeans(s.kv, x.e, x.name, s.next, x.u);
    hide CommitUpload, Accepts;
  }

  /** A part is written as a blob of its own, with the digest its upload asks for. */
  lemma PartIsWritten(s: State, p: nat, content: seq<Byte>, etag: string)
    requires p in s.procs && s.procs[p].PartWriting?
    ensures var x, s' := s.procs[p], Do(s, StorePart(p, content, etag));
      var y := s'.procs[p];
      y.PartStored? && y.name == x.name && y.key == x.key && y.id == x.id && y.u == x.u && y.part.number == x.number &&
      y.part.size == |content| && y.part.etag == etag && y.part.blob == s.next && s'.next > s.next &&
      s'.blobs == s.blobs[Blob(x.name, s.next) := content] && s'.kv == s.kv &&
      y.part.checksum == if x.u.alg.Some? then Some(DigestOf(x.u.alg.value, content)) else None
  {
    hide DigestOf;
  }

  /** A part is recorded if its upload is still open, in the place of the part with its number. */
  lemma PartIsRecorded(s: State, p: nat)
    requires p in s.procs && s.procs[p].PartStored?
    ensures var x, s' := s.procs[p], Do(s, EndPart(p));
      if IsOpen(s.kv, x.name, x.key, x.id)
      then s'.kv == s.kv.(parts := s.kv.parts[PartId(x.name, x.id, x.part.number) := x.part])
      else s'.kv == s.kv
  {
    var x := s.procs[p];
    PartMeans(s.kv, x.name, x.key, x.id, x.part);
    hide CommitPart, IsOpen;
  }

  lemma AbortDoes(s: State, p: nat, e: Expect, name: Name, key: Key, id: nat)
    requires Idle(s, p)
    ensures var s' := Do(s, Abort(p, e, name, key, id));
      if Accepts(s.kv, e, name) && IsOpen(s.kv, name, key, id)
      then UploadClosed(s.kv, s'.kv, name, id) && s'.kv.objects == s.kv.objects && s'.kv.nulls == s.kv.nulls && s'.kv.buckets == s.kv.buckets
      else s'.kv == s.kv
  {
    AbortMeans(s.kv, e, name, key, id);
    hide CommitAbort, Accepts, IsOpen, UploadClosed, PartBlobs;
  }

  // ----- buckets

  lemma BucketCreated(s: State, name: Name, lock: bool)
    requires s.serving
    ensures var s' := Do(s, CreateBucket(name, lock));
      s'.next > s.next &&
      if name in s.kv.buckets then s'.kv == s.kv
      else exists b :: OnlyBucket(s.kv, s'.kv, name, b) && b.created == s.next && !b.deleting && b.lock == lock &&
             (lock ==> b.versioning == Versioning.Enabled)
  {
    CreateMeans(s.kv, name, s.next, lock);
    hide CommitCreateBucket, OnlyBucket;
  }

  lemma VersioningSet(s: State, e: Expect, name: Name, v: Versioning)
    requires s.serving && v != Unversioned
    ensures var s' := Do(s, SetVersioning(e, name, v));
      if Accepts(s.kv, e, name) && (s.kv.buckets[name].lock ==> v == Versioning.Enabled)
      then OnlyBucket(s.kv, s'.kv, name, s.kv.buckets[name].(versioning := v)) else s'.kv == s.kv
  {
    VersioningMeans(s.kv, e, name, v);
    hide CommitVersioning, OnlyBucket;
  }

  lemma LockSet(s: State, e: Expect, name: Name, c: Option<LockConfig>)
    requires s.serving
    ensures var s' := Do(s, SetLock(e, name, c));
      if Accepts(s.kv, e, name) && (s.kv.buckets[name].lock || s.kv.buckets[name].versioning == Versioning.Enabled)
      then OnlyBucket(s.kv, s'.kv, name, s.kv.buckets[name].(lock := true, lockDefault := c)) else s'.kv == s.kv
  {
    LockMeans(s.kv, e, name, c);
    hide CommitLockConfig, OnlyBucket;
  }

  /** The first step of a bucket deletion hides an empty bucket; the files go next, and the record
      last, whether the same request or a restarted server takes those steps. */
  lemma BucketDeleted(s: State, p: nat, e: Expect, name: Name)
    requires Idle(s, p)
    ensures var s' := Do(s, DeleteBucket(p, e, name));
      if Accepts(s.kv, e, name) && forall id :: id in s.kv.objects ==> id.bucket != name
      then Emptied(s.kv, s'.kv, name) && p in s'.procs && s'.procs[p] == Finishing(name) else s'.kv == s.kv
  {
    DeleteMeans(s.kv, e, name);
    hide CommitDeleteBucket, Emptied;
  }

  lemma DeletionFinishes(s: State, p: nat, q: nat)
    requires p in s.procs && s.procs[p].Finishing? && q in s.procs && s.procs[q].FinishingRecord?
    ensures var x, s' := s.procs[p], Do(s, RemoveDir(p));
      s'.kv == s.kv && s'.procs[p] == FinishingRecord(x.name) && forall b :: b in s'.blobs <==> b in s.blobs && b.bucket != x.name
    ensures var x, s' := s.procs[q], Do(s, RemoveRecord(q));
      s'.blobs == s.blobs && (x.name in s'.kv.buckets <==> x.name in s.kv.buckets && !s.kv.buckets[x.name].deleting)
  {
    FinishMeans(s.kv, s.procs[q].name);
    hide FinishDelete;
  }
}
