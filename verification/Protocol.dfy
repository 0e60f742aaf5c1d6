/** The object store as a state machine: requests interleave between their reads, blob writes,
    transactions and clean-up, and the server may crash at any point (internal/object over
    internal/meta and internal/blob). */
module Protocol {
  import opened Records
  import opened Service
  import Checksum

  type Byte = Checksum.Byte

  /** A blob lies in the data directory of a bucket name. */
  datatype Blob = Blob(bucket: Name, id: nat)

  /** What a request has done so far. */
  datatype Proc =
    | Putting(e: Expect, name: Name, key: Key, seen: Bucket, retention: Option<Retention>, hold: bool, etag: string, c: Conditions,
              alg: Option<Checksum.Alg>)
    | PutStored(e: Expect, name: Name, key: Key, seen: Bucket, o: Object, c: Conditions)
    | StartingUpload(e: Expect, name: Name, seen: Bucket, u: Upload)
    | PartWriting(name: Name, key: Key, id: nat, u: Upload, number: nat)
    | PartStored(name: Name, key: Key, id: nat, u: Upload, part: Part)
    | Completing(e: Expect, name: Name, key: Key, id: nat, u: Upload, seen: Bucket, r: CompleteRequest)
    | Retaining(e: Expect, name: Name, key: Key, seen: Bucket, vid: Option<Vid>, wanted: Option<Retention>, bypass: bool)
    | Holding(e: Expect, name: Name, key: Key, seen: Bucket, vid: Option<Vid>, on: bool)
    | Cleaning(blobs: set<Blob>)
    | Finishing(name: Name)
    | FinishingRecord(name: Name)

  /** `next` is above every identifier, sequence and creation time handed out so far. */
  datatype State = State(kv: Kv, blobs: map<Blob, seq<Byte>>, procs: map<nat, Proc>, serving: bool, next: nat, now: int)

  datatype Step =
    | BeginPut(p: nat, e: Expect, name: Name, key: Key, a: LockAttrs, etag: string, c: Conditions, alg: Option<Checksum.Alg>)
    | StorePut(p: nat, content: seq<Byte>)
    | EndPut(p: nat, random: nat)
    | BeginUpload(p: nat, e: Expect, name: Name, key: Key, a: LockAttrs, alg: Option<Checksum.Alg>, full: bool)
    | EndUpload(p: nat)
    | BeginPart(p: nat, name: Name, key: Key, id: nat, number: nat)
    | StorePart(p: nat, content: seq<Byte>, etag: string)
    | EndPart(p: nat)
    | BeginComplete(p: nat, e: Expect, name: Name, key: Key, id: nat, r: CompleteRequest)
    | EndComplete(p: nat, random: nat)
    | Abort(p: nat, e: Expect, name: Name, key: Key, id: nat)
    | Delete(p: nat, e: Expect, name: Name, key: Key, d: DeleteRequest, random: nat)
    | BeginRetention(p: nat, e: Expect, name: Name, key: Key, vid: Option<Vid>, wanted: Option<Retention>, bypass: bool)
    | EndRetention(p: nat)
    | BeginHold(p: nat, e: Expect, name: Name, key: Key, vid: Option<Vid>, on: bool)
    | EndHold(p: nat)
    | CreateBucket(name: Name, lock: bool)
    | SetVersioning(e: Expect, name: Name, v: Versioning)
    | SetLock(e: Expect, name: Name, lockConfig: Option<LockConfig>)
    | DeleteBucket(p: nat, e: Expect, name: Name)
    | ForceDeleteBucket(p: nat, name: Name)
    | RemoveDir(p: nat)
    | RemoveRecord(p: nat)
    | Clean(p: nat, b: Blob)
    | Drop(p: nat)
    | Crash
    | Recover(p: nat, name: Name)
    | Serve
    | Tick(time: nat)

  /** The digest of a part's bytes. A cryptographic hash is idealised as the message itself. */
  function DigestOf(alg: Checksum.Alg, msg: seq<Byte>): seq<Byte> {
    if Checksum.IsCrc(alg) then Checksum.Digest(alg, msg) else msg
  }

  /** The version that a put makes of the bytes it stored; its version ID is filled in later. */
  function PutVersion(x: Proc, next: nat, content: seq<Byte>): Object
    requires x.Putting?
  {
    var sum := if x.alg.Some? then Some(DigestOf(x.alg.value, content)) else None;
    var checksum := if x.alg.Some? then Some(FullObject(x.alg.value, sum.value)) else None;
    Object(NullId, next + 1, false, |content|, x.etag, [Part(1, next, |content|, x.etag, sum)], checksum, x.retention, x.hold)
  }

  function BlobsOf(name: Name, parts: seq<Part>): set<Blob> {
    set q | q in parts :: Blob(name, q.blob)
  }

  function PartBlobs(kv: Kv, ids: set<PartId>): set<Blob>
    requires ids <= kv.parts.Keys
  {
    set p | p in ids :: Blob(p.bucket, kv.parts[p].blob)
  }

  function ObjectBlobs(name: Name, o: Option<Object>): set<Blob> {
    if o.Some? then BlobsOf(name, o.value.parts) else {}
  }

  // ----- when a step is possible

  predicate Idle(s: State, p: nat) {
    s.serving && p !in s.procs
  }

  /** An expectation was recorded when the request was authorised, before the service read
      the bucket. */
  predicate ReadAfter(e: Expect, seen: Bucket) {
    e.bucketCreated.Some? ==> e.bucketCreated.value <= seen.created
  }

  predicate Readable(s: State, e: Expect, name: Name) {
    GetLiveBucket(s.kv, name).Some? && ReadAfter(e, GetLiveBucket(s.kv, name).value)
  }

  ghost predicate Possible(s: State, st: Step) {
    match st
    case BeginPut(p, e, name, key, a, _, _, _) =>
      Idle(s, p) && Readable(s, e, name) && ValidateAttrs(GetLiveBucket(s.kv, name).value, a, s.now).Attrs?
    case StorePut(p, _) => p in s.procs && s.procs[p].Putting?
    case EndPut(p, _) => p in s.procs && s.procs[p].PutStored?
    case BeginUpload(p, e, name, _, a, alg, full) =>
      Idle(s, p) && Readable(s, e, name) && ValidateAttrs(GetLiveBucket(s.kv, name).value, a, s.now).Attrs? &&
      (alg.Some? && full ==> Checksum.IsCrc(alg.value))
    case EndUpload(p) => p in s.procs && s.procs[p].StartingUpload?
    case BeginPart(p, name, key, id, number) =>
      Idle(s, p) && 1 <= number <= MAX_PARTS && GetLiveBucket(s.kv, name).Some? && GetUpload(s.kv, name, key, id).Some?
    case StorePart(p, _, _) => p in s.procs && s.procs[p].PartWriting?
    case EndPart(p) => p in s.procs && s.procs[p].PartStored?
    case BeginComplete(p, e, name, key, id, r) =>
      Idle(s, p) && r.list != [] && Readable(s, e, name) && GetUpload(s.kv, name, key, id).Some?
    case EndComplete(p, _) => p in s.procs && s.procs[p].Completing?
    case Abort(p, _, _, _, _) => Idle(s, p)
    case Delete(p, _, _, _, _, _) => Idle(s, p)
    case BeginRetention(p, e, name, _, _, _, _) =>
      Idle(s, p) && Readable(s, e, name) && GetLiveBucket(s.kv, name).value.lock
    case EndRetention(p) => p in s.procs && s.procs[p].Retaining?
    case BeginHold(p, e, name, _, _, _) =>
      Idle(s, p) && Readable(s, e, name) && GetLiveBucket(s.kv, name).value.lock
    case EndHold(p) => p in s.procs && s.procs[p].Holding?
    case CreateBucket(_, _) => s.serving
    case SetVersioning(_, _, v) => s.serving && v != Unversioned
    case SetLock(_, _, _) => s.serving
    case DeleteBucket(p, _, _) => Idle(s, p)
    case ForceDeleteBucket(p, _) => Idle(s, p)
    case RemoveDir(p) => p in s.procs && s.procs[p].Finishing?
    case RemoveRecord(p) => p in s.procs && s.procs[p].FinishingRecord?
    case Clean(p, b) => p in s.procs && s.procs[p].Cleaning? && b in s.procs[p].blobs
    case Drop(p) => p in s.procs
    case Crash => true
    case Recover(p, name) => !s.serving && s.procs == map[] && name in s.kv.buckets && s.kv.buckets[name].deleting
    case Serve => !s.serving && s.procs == map[] && forall n :: n in s.kv.buckets ==> !s.kv.buckets[n].deleting
    case Tick(_) => true
  }

  // ----- what a step does

  function Become(s: State, p: nat, proc: Proc): State {
    s.(procs := s.procs[p := proc])
  }

  function Leave(s: State, p: nat): State {
    s.(procs := s.procs - {p})
  }

  ghost function DoEndPut(s: State, p: nat, random: nat): State
    requires p in s.procs && s.procs[p].PutStored?
  {
    var x := s.procs[p];
    var r := CommitPut(s.kv, x.e, x.name, x.key, x.seen, x.o, random, x.c, s.now);
    if r.Failed? then Become(s, p, Cleaning(BlobsOf(x.name, x.o.parts)))
    else Become(s.(kv := r.kv), p, Cleaning(ObjectBlobs(x.name, r.value)))
  }

  ghost function DoEndUpload(s: State, p: nat): State
    requires p in s.procs && s.procs[p].StartingUpload?
  {
    var x := s.procs[p];
    var r := CommitUpload(s.kv, x.e, x.name, s.next, x.u);
    if r.Failed? then Leave(s, p) else Leave(s.(kv := r.kv, next := s.next + 1), p)
  }

  ghost function DoEndPart(s: State, p: nat): State
    requires p in s.procs && s.procs[p].PartStored?
  {
    var x := s.procs[p];
    var r := CommitPart(s.kv, x.name, x.key, x.id, x.part);
    if r.Failed? then Become(s, p, Cleaning({Blob(x.name, x.part.blob)}))
    else Become(s.(kv := r.kv), p, Cleaning(if r.value.Some? then {Blob(x.name, r.value.value.blob)} else {}))
  }

  ghost function DoEndComplete(s: State, p: nat, random: nat): State
    requires p in s.procs && s.procs[p].Completing?
  {
    var x := s.procs[p];
    var r := CommitComplete(s.kv, x.e, x.name, x.key, x.id, x.u, x.seen, x.r, s.next, random);
    if r.Failed? then Leave(s.(next := s.next + 1), p)
    else Become(s.(kv := r.kv, next := s.next + 1), p,
                Cleaning(PartBlobs(s.kv, r.value.unused) + ObjectBlobs(x.name, r.value.replaced)))
  }

  ghost function DoAbort(s: State, p: nat, e: Expect, name: Name, key: Key, id: nat): State {
    var r := CommitAbort(s.kv, e, name, key, id);
    if r.Failed? then s else Become(s.(kv := r.kv), p, Cleaning(PartBlobs(s.kv, r.value)))
  }

  ghost function DoDelete(s: State, p: nat, e: Expect, name: Name, key: Key, r: DeleteRequest, random: nat): State {
    var d := CommitDelete(s.kv, e, name, key, r, s.next, random, s.now);
    if d.Failed? then s.(next := s.next + 1)
    else Become(s.(kv := d.kv, next := s.next + 1), p, Cleaning(ObjectBlobs(name, d.value.removed)))
  }

  ghost function DoCommit<T>(s: State, r: Outcome<T>): State {
    if r.Failed? then s else s.(kv := r.kv)
  }

  ghost function DoDeleteBucket(s: State, p: nat, r: Outcome<()>, name: Name): State {
    if r.Failed? then s else Become(s.(kv := r.kv), p, Finishing(name))
  }

  ghost function Do(s: State, st: Step): State
    requires Possible(s, st)
  {
    match st
    case BeginPut(p, e, name, key, a, etag, c, alg) =>
      var b := GetLiveBucket(s.kv, name).value;
      var at := ValidateAttrs(b, a, s.now);
      Become(s, p, Putting(e, name, key, b, at.retention, at.hold, etag, c, alg))
    case StorePut(p, content) =>
      var x := s.procs[p];
      Become(s.(blobs := s.blobs[Blob(x.name, s.next) := content], next := s.next + 2), p,
             PutStored(x.e, x.name, x.key, x.seen, PutVersion(x, s.next, content), x.c))
    case EndPut(p, random) => DoEndPut(s, p, random)
    case BeginUpload(p, e, name, key, a, alg, full) =>
      var b := GetLiveBucket(s.kv, name).value;
      var at := ValidateAttrs(b, a, s.now);
      Become(s, p, StartingUpload(e, name, b, Upload(key, alg, full, at.retention, at.hold)))
    case EndUpload(p) => DoEndUpload(s, p)
    case BeginPart(p, name, key, id, number) =>
      Become(s, p, PartWriting(name, key, id, GetUpload(s.kv, name, key, id).value, number))
    case StorePart(p, content, etag) =>
      var x := s.procs[p];
      var sum := if x.u.alg.Some? then Some(DigestOf(x.u.alg.value, content)) else None;
      Become(s.(blobs := s.blobs[Blob(x.name, s.next) := content], next := s.next + 1), p,
             PartStored(x.name, x.key, x.id, x.u, Part(x.number, s.next, |content|, etag, sum)))
    case EndPart(p) => DoEndPart(s, p)
    case BeginComplete(p, e, name, key, id, r) =>
      Become(s, p, Completing(e, name, key, id, GetUpload(s.kv, name, key, id).value, GetLiveBucket(s.kv, name).value, r))
    case EndComplete(p, random) => DoEndComplete(s, p, random)
    case Abort(p, e, name, key, id) => DoAbort(s, p, e, name, key, id)
    case Delete(p, e, name, key, r, random) => DoDelete(s, p, e, name, key, r, random)
    case BeginRetention(p, e, name, key, vid, r, bypass) =>
      Become(s, p, Retaining(e, name, key, GetLiveBucket(s.kv, name).value, vid, r, bypass))
    case EndRetention(p) =>
      var x := s.procs[p];
      Leave(DoCommit(s, CommitRetention(s.kv, x.e, x.name, x.key, x.vid, x.wanted, x.bypass, s.now)), p)
    case BeginHold(p, e, name, key, vid, on) =>
      Become(s, p, Holding(e, name, key, GetLiveBucket(s.kv, name).value, vid, on))
    case EndHold(p) =>
      var x := s.procs[p];
      Leave(DoCommit(s, CommitHold(s.kv, x.e, x.name, x.key, x.vid, x.on)), p)
    case CreateBucket(name, lock) => DoCommit(s, CommitCreateBucket(s.kv, name, s.next, lock)).(next := s.next + 1)
    case SetVersioning(e, name, v) => DoCommit(s, CommitVersioning(s.kv, e, name, v))
    case SetLock(e, name, lockConfig) => DoCommit(s, CommitLockConfig(s.kv, e, name, lockConfig))
    case DeleteBucket(p, e, name) => DoDeleteBucket(s, p, CommitDeleteBucket(s.kv, e, name), name)
    case ForceDeleteBucket(p, name) => DoDeleteBucket(s, p, CommitForceDelete(s.kv, name), name)
    case RemoveDir(p) =>
      var name := s.procs[p].name;
      Become(s.(blobs := map b | b in s.blobs && b.bucket != name :: s.blobs[b]), p, FinishingRecord(name))
    case RemoveRecord(p) => Leave(s.(kv := FinishDelete(s.kv, s.procs[p].name)), p)
    case Clean(p, b) => Become(s.(blobs := s.blobs - {b}), p, Cleaning(s.procs[p].blobs - {b}))
    case Drop(p) => Leave(s, p)
    case Crash => s.(procs := map[], serving := false)
    case Recover(p, name) => Become(s, p, Finishing(name))
    case Serve => s.(serving := true)
    case Tick(time) => s.(now := s.now + time)
  }

  const EMPTY := State(Kv(map[], map[], map[], map[], map[]), map[], map[], false, 0, 0)

  /** The states of a run, each reached from the one before by a possible step. */
  ghost predicate IsRun(states: seq<State>, steps: seq<Step>) {
    && |states| == |steps| + 1
    && states[0] == EMPTY
    && forall i :: 0 <= i < |steps| ==> Possible(states[i], steps[i]) && states[i + 1] == Do(states[i], steps[i])
  }
}
