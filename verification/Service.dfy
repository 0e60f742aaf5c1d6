/** What each transaction of the object service does to the store (internal/object:
    service.go, put.go, delete.go, multipart.go, tagging.go, expect.go), as functions from a
    store to a store or an error. */
module Service {
  import opened Records
  import Checksum

  datatype Error =
    | NoSuchBucket | NoSuchUpload | NoSuchKey | NoSuchVersion | AccessDenied | PreconditionFailed
    | InvalidArgument | InvalidRequest | InvalidRetentionDate | InvalidPart | InvalidPartOrder | EntityTooSmall
    | EntityTooLarge | MalformedXML | MethodNotAllowed | BucketNotEmpty | BucketExists | OperationAborted
    | InvalidBucketState | BadDigest | Changed | InternalError

  /** A transaction commits a new store and a value, or fails and changes nothing. */
  datatype Outcome<+T> = Committed(kv: Kv, value: T) | Failed(error: Error)

  const MIN_PART_SIZE: nat := 5 * 1024 * 1024
  const MAX_OBJECT_SIZE: nat := 5 * 1024 * 1024 * 1024 * 1024
  const MAX_PARTS: nat := 10000

  // ----- expectations (expect.go)

  /** What a request was authorised against. */
  datatype Expect = Expect(bucketCreated: Option<nat>, objectSeq: Option<nat>)

  predicate BucketExpected(e: Expect, b: Bucket) {
    e.bucketCreated.None? || e.bucketCreated.value == b.created
  }

  predicate ObjectExpected(e: Expect, o: Object) {
    e.objectSeq.None? || e.objectSeq.value == o.seqNo
  }

  function GetLiveBucket(kv: Kv, name: Name): Option<Bucket> {
    if name in kv.buckets && !kv.buckets[name].deleting then Some(kv.buckets[name]) else None
  }

  function LiveBucket(kv: Kv, e: Expect, name: Name): Option<Bucket> {
    var b := GetLiveBucket(kv, name);
    if b.Some? && BucketExpected(e, b.value) then b else None
  }

  /** The same incarnation of a bucket: not being deleted, and created at the same time. */
  predicate SameBucket(cur: Bucket, seen: Bucket) {
    !cur.deleting && cur.created == seen.created
  }

  // ----- conditions and locks (service.go)

  /** An ETag list of a conditional header. */
  datatype ETags = ETags(any: bool, tags: set<string>)

  predicate EtagMatches(e: ETags, etag: string) {
    e.any || etag in e.tags
  }

  datatype Conditions = Conditions(ifMatch: Option<ETags>, ifNoneMatch: Option<ETags>)

  /** The current version, unless it is a delete marker. */
  ghost function Current(kv: Kv, name: Name, key: Key): Option<Object> {
    var cur := GetLatest(kv, name, key);
    if cur.Some? && cur.value.deleteMarker then None else cur
  }

  ghost function CheckWriteConditions(kv: Kv, name: Name, key: Key, c: Conditions): Option<Error> {
    var cur := Current(kv, name, key);
    if c.ifNoneMatch.Some? && cur.Some? && EtagMatches(c.ifNoneMatch.value, cur.value.etag) then Some(PreconditionFailed)
    else if c.ifMatch.Some? && cur.None? then Some(NoSuchKey)
    else if c.ifMatch.Some? && !EtagMatches(c.ifMatch.value, cur.value.etag) then Some(PreconditionFailed)
    else None
  }

  /** `checkLocked`: under legal hold, or under retention that the caller cannot bypass. */
  predicate Locked(o: Object, bypassGovernance: bool, now: int) {
    || o.legalHold
    || (o.retention.Some? && now < o.retention.value.until && (o.retention.value.mode == Compliance || !bypassGovernance))
  }

  function VersionIdFor(b: Bucket, seqNo: nat, random: nat): Vid {
    if b.versioning == Enabled then SeqId(seqNo, random) else NullId
  }

  // ----- attributes (put.go, validateAttrs)

  /** The lock attributes a client sends; `hold` is absent unless the header was. */
  datatype LockAttrs = LockAttrs(retention: Option<Retention>, hold: Option<bool>)

  datatype Attrs = Attrs(retention: Option<Retention>, hold: bool) | BadAttrs(error: Error)

  function ValidateAttrs(b: Bucket, a: LockAttrs, now: int): Attrs {
    if (a.retention.Some? || a.hold.Some?) && !b.lock then BadAttrs(InvalidRequest)
    else if a.retention.Some? && a.retention.value.until <= now then BadAttrs(InvalidRetentionDate)
    else
      var retention :=
        if a.retention.None? && b.lock && b.lockDefault.Some?
        then Some(Retention(b.lockDefault.value.mode, now + b.lockDefault.value.period))
        else a.retention;
      Attrs(retention, a.hold == Some(true))
  }

  // ----- PutObject

  /** The write transaction of `PutObject`; the value is the null version it replaced. */
  ghost function CommitPut(kv: Kv, e: Expect, name: Name, key: Key, seen: Bucket, o: Object, random: nat,
                           c: Conditions, now: int): Outcome<Option<Object>>
  {
    if name !in kv.buckets || !SameBucket(kv.buckets[name], seen) || !BucketExpected(e, kv.buckets[name]) then
      Failed(NoSuchBucket)
    else
      var bad := CheckWriteConditions(kv, name, key, c);
      if bad.Some? then Failed(bad.value)
      else
        var v := o.(vid := VersionIdFor(kv.buckets[name], o.seqNo, random));
        var cur := GetVersion(kv, name, key, NullId);
        if v.vid == NullId && cur.Some? && Locked(cur.value, false, now) then Failed(AccessDenied)
        else Committed(PutObject(kv, name, key, v), Replaced(kv, name, key, v))
  }

  // ----- multipart uploads

  function GetUpload(kv: Kv, name: Name, key: Key, id: nat): Option<Upload> {
    if UploadId(name, id) in kv.uploads && kv.uploads[UploadId(name, id)].key == key
    then Some(kv.uploads[UploadId(name, id)]) else None
  }

  ghost function CommitUpload(kv: Kv, e: Expect, name: Name, id: nat, u: Upload): Outcome<()> {
    if LiveBucket(kv, e, name).None? then Failed(NoSuchBucket)
    else Committed(kv.(uploads := kv.uploads[UploadId(name, id) := u]), ())
  }

  /** The write transaction of `UploadPart`; the value is the part it replaced. */
  function CommitPart(kv: Kv, name: Name, key: Key, id: nat, p: Part): Outcome<Option<Part>> {
    if GetUpload(kv, name, key, id).None? then Failed(NoSuchUpload)
    else
      var pid := PartId(name, id, p.number);
      Committed(kv.(parts := kv.parts[pid := p]), if pid in kv.parts then Some(kv.parts[pid]) else None)
  }

  /** One entry of the client's part list. */
  datatype CompletePart = CompletePart(number: int, etag: ETags, star: bool, checksum: Option<seq<Checksum.Byte>>)

  predicate Ascending(list: seq<CompletePart>) {
    forall i, j :: 0 <= i < j < |list| ==> list[i].number < list[j].number
  }

  /** Part numbers ascend from 1; this is what the order check of `assemble` accepts. */
  predicate GoodOrder(list: seq<CompletePart>) {
    Ascending(list) && (list != [] ==> list[0].number > 0)
  }

  /** What the `i`-th entry of the list must satisfy, in the order it is checked. */
  function CheckEntry(u: Upload, stored: map<nat, Part>, list: seq<CompletePart>, i: nat): Option<Error>
    requires i < |list|
  {
    var cp := list[i];
    if cp.number < 0 || cp.number !in stored then Some(InvalidPart)
    else
      var p := stored[cp.number];
      if !EtagMatches(cp.etag, p.etag) || cp.star then Some(InvalidPart)
      else if i < |list| - 1 && p.size < MIN_PART_SIZE then Some(EntityTooSmall)
      else if u.alg.Some? && cp.checksum.Some? && cp.checksum != p.checksum then Some(InvalidPart)
      else None
  }

  /** The first error in the list from entry `i` on. */
  function CheckEntries(u: Upload, stored: map<nat, Part>, list: seq<CompletePart>, i: nat): Option<Error>
    requires i <= |list|
    decreases |list| - i
  {
    if i == |list| then None
    else
      var bad := CheckEntry(u, stored, list, i);
      if bad.Some? then bad else CheckEntries(u, stored, list, i + 1)
  }

  /** The stored parts that the first `n` entries name. */
  function Chosen(stored: map<nat, Part>, list: seq<CompletePart>, n: nat): (parts: seq<Part>)
    requires n <= |list| && forall i :: 0 <= i < n ==> list[i].number >= 0 && list[i].number in stored
    ensures |parts| == n && forall i :: 0 <= i < n ==> parts[i] == stored[list[i].number]
  {
    seq(n, i requires 0 <= i < n => stored[list[i].number])
  }

  function TotalSize(parts: seq<Part>): nat {
    if parts == [] then 0 else TotalSize(parts[..|parts| - 1]) + parts[|parts| - 1].size
  }

  function Sums(parts: seq<Part>): (s: seq<seq<Checksum.Byte>>)
    ensures |s| == |parts|
    ensures forall i :: 0 <= i < |parts| ==> s[i] == if parts[i].checksum.Some? then parts[i].checksum.value else []
  {
    seq(|parts|, i requires 0 <= i < |parts| => if parts[i].checksum.Some? then parts[i].checksum.value else [])
  }

  function Sizes(parts: seq<Part>): (s: seq<int>)
    ensures |s| == |parts| && forall i :: 0 <= i < |parts| ==> s[i] == parts[i].size
  {
    seq(|parts|, i requires 0 <= i < |parts| => parts[i].size)
  }

  /** The checksum of the completed object; none when the upload has no algorithm or the part
      sums cannot be combined. */
  function CompletedChecksum(u: Upload, parts: seq<Part>): Option<ObjectChecksum> {
    if u.alg.None? then None
    else if !u.full then Some(Composite(u.alg.value, Sums(parts)))
    else if Checksum.IsCrc(u.alg.value) && Checksum.Combinable(u.alg.value, Sums(parts), Sizes(parts))
    then Some(FullObject(u.alg.value, Checksum.FullSum(u.alg.value, Sums(parts), Sizes(parts))))
    else None
  }

  /** What the client sends to complete an upload; `size` and `claimed` are optional checks. */
  datatype CompleteRequest = CompleteRequest(list: seq<CompletePart>, size: Option<nat>, claimed: Option<ObjectChecksum>,
                                             etag: string, conditions: Conditions)

  datatype Assembled = Built(o: Object) | Rejected(error: Error)

  /** `assemble`: check the client's list against the stored parts and build the version
      record (its version ID is filled in later). */
  function Assemble(u: Upload, r: CompleteRequest, stored: map<nat, Part>, seqNo: nat): Assembled {
    if !GoodOrder(r.list) then Rejected(InvalidPartOrder)
    else
      var bad := CheckEntries(u, stored, r.list, 0);
      if bad.Some? then Rejected(bad.value)
      else
        CheckedAll(u, stored, r.list, 0);
        var parts := Chosen(stored, r.list, |r.list|);
        var total := TotalSize(parts);
        if r.size.Some? && r.size.value != total then Rejected(InvalidRequest)
        else if total > MAX_OBJECT_SIZE then Rejected(EntityTooLarge)
        else
          var sum := CompletedChecksum(u, parts);
          if u.alg.Some? && sum.None? then Rejected(InternalError)
          else if u.alg.Some? && r.claimed.Some? && r.claimed != sum then Rejected(BadDigest)
          else Built(Object(NullId, seqNo, false, total, r.etag, parts, sum, u.retention, u.legalHold))
  }

  lemma {:induction false} CheckedAll(u: Upload, stored: map<nat, Part>, list: seq<CompletePart>, i: nat)
    requires i <= |list| && CheckEntries(u, stored, list, i).None?
    ensures forall j :: i <= j < |list| ==> list[j].number >= 0 && list[j].number in stored
    decreases |list| - i
  {
    if i < |list| { CheckedAll(u, stored, list, i + 1); }
  }

  /** The parts of an upload by number, as `ListParts` returns them. */
  function StoredParts(kv: Kv, name: Name, id: nat): map<nat, Part> {
    map p | p in PartsOf(kv, name, id) :: p.number := kv.parts[p]
  }

  /** What a completed upload leaves to clean up: the parts it did not use, and the null
      version it replaced. */
  datatype Leftovers = Leftovers(unused: set<PartId>, replaced: Option<Object>)

  ghost function CommitComplete(kv: Kv, e: Expect, name: Name, key: Key, id: nat, u: Upload, seen: Bucket,
                                r: CompleteRequest, seqNo: nat, random: nat): Outcome<Leftovers>
  {
    if name !in kv.buckets || !SameBucket(kv.buckets[name], seen) || !BucketExpected(e, kv.buckets[name]) then
      Failed(NoSuchBucket)
    else if GetUpload(kv, name, key, id).None? then Failed(NoSuchUpload)
    else
      var a := Assemble(u, r, StoredParts(kv, name, id), seqNo);
      if a.Rejected? then Failed(a.error)
      else
        var bad := CheckWriteConditions(kv, name, key, r.conditions);
        if bad.Some? then Failed(bad.value)
        else
          var o := a.o.(vid := VersionIdFor(kv.buckets[name], seqNo, random));
          var without := DeleteUpload(kv, name, id);
          Committed(PutObject(without, name, key, o), Leftovers(Unused(kv, name, id, o.parts), Replaced(without, name, key, o)))
  }

  /** The stored parts whose blob is not among the blobs of `parts`. */
  function Unused(kv: Kv, name: Name, id: nat, parts: seq<Part>): (u: set<PartId>)
    ensures u <= kv.parts.Keys
  {
    set p | p in PartsOf(kv, name, id) && forall q :: q in parts ==> q.blob != kv.parts[p].blob
  }

  /** `AbortUpload`; the value is the set of parts whose blobs are to be deleted. */
  ghost function CommitAbort(kv: Kv, e: Expect, name: Name, key: Key, id: nat): Outcome<set<PartId>> {
    if LiveBucket(kv, e, name).None? then Failed(NoSuchBucket)
    else if GetUpload(kv, name, key, id).None? then Failed(NoSuchUpload)
    else Committed(DeleteUpload(kv, name, id), PartsOf(kv, name, id))
  }

  // ----- DeleteObject

  datatype DeleteRequest = DeleteRequest(vid: Option<Vid>, bypass: bool, ifMatch: Option<ETags>, ifSeq: Option<nat>)

  datatype Deleted = Deleted(removed: Option<Object>, marker: bool, vid: Option<Vid>)

  function DeleteMarker(vid: Vid, seqNo: nat): Object {
    Object(vid, seqNo, true, 0, "", [], None, None, false)
  }

  /** Permanent deletion of one version. */
  ghost function DeleteOneVersion(kv: Kv, e: Expect, name: Name, key: Key, r: DeleteRequest, now: int): Outcome<Deleted>
    requires r.vid.Some?
  {
    var o := GetVersion(kv, name, key, r.vid.value);
    if o.None? then
      if r.vid.value.BadId? then Failed(InvalidArgument) else Committed(kv, Deleted(None, false, None))
    else if r.ifMatch.Some? && !EtagMatches(r.ifMatch.value, o.value.etag) then Failed(PreconditionFailed)
    else if r.ifSeq.Some? && o.value.seqNo != r.ifSeq.value then Failed(PreconditionFailed)
    else if !ObjectExpected(e, o.value) then Failed(Changed)
    else if Locked(o.value, r.bypass, now) then Failed(AccessDenied)
    else Committed(DeleteVersion(kv, name, key, o.value), Deleted(o, o.value.deleteMarker, Some(o.value.vid)))
  }

  /** The three semantics of a delete without a version ID. */
  ghost function DeleteCurrent(kv: Kv, b: Bucket, name: Name, key: Key, r: DeleteRequest, seqNo: nat, random: nat, now: int): Outcome<Deleted> {
    var cur := GetLatest(kv, name, key);
    var bad := CheckDeleteConditions(cur, r);
    if bad.Some? then Failed(bad.value)
    else
      match b.versioning
      case Enabled =>
        var vid := SeqId(seqNo, random);
        Committed(PutObject(kv, name, key, DeleteMarker(vid, seqNo)), Deleted(None, true, Some(vid)))
      case Suspended =>
        var nv := GetVersion(kv, name, key, NullId);
        if nv.Some? && Locked(nv.value, r.bypass, now) then Failed(AccessDenied)
        else Committed(PutObject(kv, name, key, DeleteMarker(NullId, seqNo)), Deleted(nv, true, Some(NullId)))
      case Unversioned =>
        if cur.None? then Committed(kv, Deleted(None, false, None))
        else if Locked(cur.value, r.bypass, now) then Failed(AccessDenied)
        else Committed(DeleteVersion(kv, name, key, cur.value), Deleted(cur, false, None))
  }

  function CheckDeleteConditions(cur: Option<Object>, r: DeleteRequest): Option<Error> {
    if r.ifMatch.Some? && (cur.None? || cur.value.deleteMarker) then Some(NoSuchKey)
    else if r.ifMatch.Some? && !EtagMatches(r.ifMatch.value, cur.value.etag) then Some(PreconditionFailed)
    else if r.ifSeq.Some? && (cur.None? || cur.value.seqNo != r.ifSeq.value) then Some(PreconditionFailed)
    else None
  }

  ghost function CommitDelete(kv: Kv, e: Expect, name: Name, key: Key, r: DeleteRequest, seqNo: nat, random: nat, now: int): Outcome<Deleted> {
    var b := LiveBucket(kv, e, name);
    if b.None? then Failed(NoSuchBucket)
    else if r.vid.Some? then DeleteOneVersion(kv, e, name, key, r, now)
    else DeleteCurrent(kv, b.value, name, key, r, seqNo, random, now)
  }

  // ----- updateVersion (tagging.go)

  /** The version an update addresses; an empty version ID means the newest. */
  ghost function Addressed(kv: Kv, name: Name, key: Key, vid: Option<Vid>): Option<Object> {
    if vid.None? then GetLatest(kv, name, key) else GetVersion(kv, name, key, vid.value)
  }

  /** The checks of `updateVersion`; the value is the version to rewrite. */
  ghost function FindVersion(kv: Kv, e: Expect, name: Name, key: Key, vid: Option<Vid>): Outcome<Object> {
    if LiveBucket(kv, e, name).None? then Failed(NoSuchBucket)
    else
      var o := Addressed(kv, name, key, vid);
      if o.None? then Failed(if vid.None? then NoSuchKey else NoSuchVersion)
      else if !ObjectExpected(e, o.value) then Failed(Changed)
      else if o.value.deleteMarker then Failed(MethodNotAllowed)
      else Committed(kv, o.value)
  }

  function Rewrite(kv: Kv, name: Name, key: Key, o: Object): Kv {
    kv.(objects := kv.objects[ObjectId(name, key, o.seqNo) := o])
  }

  /** Active retention may be shortened, changed or removed only with a bypass, and never in
      compliance mode. */
  predicate RetentionRefused(cur: Option<Retention>, r: Option<Retention>, bypass: bool, now: int) {
    && cur.Some? && now < cur.value.until
    && (r.None? || r.value.until < cur.value.until || r.value.mode != cur.value.mode)
    && (cur.value.mode == Compliance || !bypass)
  }

  ghost function CommitRetention(kv: Kv, e: Expect, name: Name, key: Key, vid: Option<Vid>, r: Option<Retention>, bypass: bool, now: int): Outcome<()> {
    var f := FindVersion(kv, e, name, key, vid);
    if f.Failed? then Failed(f.error)
    else if RetentionRefused(f.value.retention, r, bypass, now) then Failed(AccessDenied)
    else Committed(Rewrite(kv, name, key, f.value.(retention := r)), ())
  }

  ghost function CommitHold(kv: Kv, e: Expect, name: Name, key: Key, vid: Option<Vid>, on: bool): Outcome<()> {
    var f := FindVersion(kv, e, name, key, vid);
    if f.Failed? then Failed(f.error)
    else Committed(Rewrite(kv, name, key, f.value.(legalHold := on)), ())
  }

  // ----- buckets

  ghost function CommitCreateBucket(kv: Kv, name: Name, created: nat, lock: bool): Outcome<()> {
    if name in kv.buckets then Failed(if kv.buckets[name].deleting then OperationAborted else BucketExists)
    else
      var b := Bucket(created, false, if lock then Enabled else Unversioned, lock, None);
      Committed(kv.(buckets := kv.buckets[name := b]), ())
  }

  ghost predicate HasObjects(kv: Kv, name: Name) {
    exists id :: id in kv.objects && id.bucket == name
  }

  function WithoutUploads(kv: Kv, name: Name): Kv {
    kv.(uploads := map u | u in kv.uploads && u.bucket != name :: kv.uploads[u],
        parts := map p | p in kv.parts && p.bucket != name :: kv.parts[p])
  }

  function WithoutObjects(kv: Kv, name: Name): Kv {
    kv.(objects := map o | o in kv.objects && o.bucket != name :: kv.objects[o],
        nulls := map n | n in kv.nulls && n.bucket != name :: kv.nulls[n])
  }

  function MarkDeleting(kv: Kv, name: Name): Kv
    requires name in kv.buckets
  {
    kv.(buckets := kv.buckets[name := kv.buckets[name].(deleting := true)])
  }

  /** The first transaction of `DeleteBucket`: an empty bucket is hidden, its uploads go. */
  ghost function CommitDeleteBucket(kv: Kv, e: Expect, name: Name): Outcome<()> {
    if LiveBucket(kv, e, name).None? then Failed(NoSuchBucket)
    else if HasObjects(kv, name) then Failed(BucketNotEmpty)
    else Committed(MarkDeleting(WithoutUploads(kv, name), name), ())
  }

  /** The first transaction of `DeleteBucketForce`: everything in the bucket goes. */
  ghost function CommitForceDelete(kv: Kv, name: Name): Outcome<()> {
    if GetLiveBucket(kv, name).None? then Failed(NoSuchBucket)
    else Committed(MarkDeleting(WithoutUploads(WithoutObjects(kv, name), name), name), ())
  }

  /** The second transaction of `finishDelete`, after the data directory is gone. */
  function FinishDelete(kv: Kv, name: Name): Kv {
    if name in kv.buckets && kv.buckets[name].deleting then kv.(buckets := kv.buckets - {name}) else kv
  }

  /** The versioning and object-lock handlers of internal/s3api/bucket.go. */
  ghost function CommitVersioning(kv: Kv, e: Expect, name: Name, v: Versioning): Outcome<()>
    requires v != Unversioned
  {
    var b := LiveBucket(kv, e, name);
    if b.None? then Failed(NoSuchBucket)
    else if b.value.lock && v == Suspended then Failed(InvalidBucketState)
    else Committed(kv.(buckets := kv.buckets[name := b.value.(versioning := v)]), ())
  }

  ghost function CommitLockConfig(kv: Kv, e: Expect, name: Name, c: Option<LockConfig>): Outcome<()> {
    var b := LiveBucket(kv, e, name);
    if b.None? then Failed(NoSuchBucket)
    else if !b.value.lock && b.value.versioning != Enabled then Failed(InvalidBucketState)
    else Committed(kv.(buckets := kv.buckets[name := b.value.(lock := true, lockDefault := c)]), ())
  }
}
