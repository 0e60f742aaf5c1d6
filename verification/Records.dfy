/** The metadata records and the operations on them inside one transaction
    (internal/meta/store.go and internal/meta/types.go). */
module Records {
  import Checksum

  datatype Option<+T> = None | Some(value: T)

  type Name = string
  type Key = string

  /** The version ID "null", one that embeds a sequence, or text that does not parse. */
  datatype Vid = NullId | SeqId(seqNo: nat, random: nat) | BadId

  datatype Versioning = Unversioned | Enabled | Suspended

  datatype Mode = Governance | Compliance

  datatype Retention = Retention(mode: Mode, until: int)

  datatype LockConfig = LockConfig(mode: Mode, period: nat)

  datatype Bucket = Bucket(created: nat, deleting: bool, versioning: Versioning, lock: bool, lockDefault: Option<LockConfig>)

  /** A part references one blob; `checksum` is the raw digest of its bytes, if one was taken. */
  datatype Part = Part(number: nat, blob: nat, size: nat, etag: string, checksum: Option<seq<Checksum.Byte>>)

  /** The checksum of an object: of the whole body, or of the part digests in turn. */
  datatype ObjectChecksum =
    | FullObject(alg: Checksum.Alg, value: seq<Checksum.Byte>)
    | Composite(alg: Checksum.Alg, partSums: seq<seq<Checksum.Byte>>)

  datatype Object = Object(vid: Vid, seqNo: nat, deleteMarker: bool, size: nat, etag: string, parts: seq<Part>,
                           checksum: Option<ObjectChecksum>, retention: Option<Retention>, legalHold: bool)

  /** `alg` is the checksum algorithm the upload was started with, if any; `full` says that
      its checksum is of the whole object. */
  datatype Upload = Upload(key: Key, alg: Option<Checksum.Alg>, full: bool, retention: Option<Retention>, legalHold: bool)

  datatype ObjectId = ObjectId(bucket: Name, key: Key, seqNo: nat)
  datatype NullPtr = NullPtr(bucket: Name, key: Key)
  datatype UploadId = UploadId(bucket: Name, id: nat)
  datatype PartId = PartId(bucket: Name, id: nat, number: nat)

  /** The store: one map per key namespace. */
  datatype Kv = Kv(buckets: map<Name, Bucket>, objects: map<ObjectId, Object>, nulls: map<NullPtr, nat>,
                   uploads: map<UploadId, Upload>, parts: map<PartId, Part>)

  // ----- version lookup

  /** Version `seqNo` of the key exists and is the newest. */
  ghost predicate IsNewest(kv: Kv, bucket: Name, key: Key, seqNo: nat) {
    && ObjectId(bucket, key, seqNo) in kv.objects
    && forall s: nat :: ObjectId(bucket, key, s) in kv.objects ==> s <= seqNo
  }

  function Sequences(kv: Kv, bucket: Name, key: Key): set<nat> {
    set id | id in kv.objects && id.bucket == bucket && id.key == key :: id.seqNo
  }

  lemma MaxExists(s: set<nat>) returns (m: nat)
    requires s != {}
    ensures m in s && forall x :: x in s ==> x <= m
  {
    var x :| x in s;
    if s == {x} {
      m := x;
    } else {
      var n := MaxExists(s - {x});
      m := if n > x then n else x;
      forall y | y in s
        ensures y <= m
      {
        assert y == x || y in s - {x};
      }
    }
  }

  lemma NewestExists(kv: Kv, bucket: Name, key: Key)
    requires Sequences(kv, bucket, key) != {}
    ensures exists n :: IsNewest(kv, bucket, key, n)
  {
    var n := MaxExists(Sequences(kv, bucket, key));
    forall s: nat | ObjectId(bucket, key, s) in kv.objects
      ensures s in Sequences(kv, bucket, key)
    {
      assert ObjectId(bucket, key, s).seqNo == s;
    }
    assert IsNewest(kv, bucket, key, n);
  }

  /** `GetLatest` */
  ghost function GetLatest(kv: Kv, bucket: Name, key: Key): (o: Option<Object>)
    ensures o.Some? ==> exists n :: IsNewest(kv, bucket, key, n) && o.value == kv.objects[ObjectId(bucket, key, n)]
    ensures o.None? ==> forall s: nat :: ObjectId(bucket, key, s) !in kv.objects
  {
    if Sequences(kv, bucket, key) == {} then
      assert forall s: nat :: ObjectId(bucket, key, s) in kv.objects ==> ObjectId(bucket, key, s).seqNo in Sequences(kv, bucket, key);
      None
    else
      NewestExists(kv, bucket, key);
      var n :| IsNewest(kv, bucket, key, n);
      Some(kv.objects[ObjectId(bucket, key, n)])
  }

  /** `GetVersion`: the null version through its pointer, any other by the sequence in its ID. */
  function GetVersion(kv: Kv, bucket: Name, key: Key, vid: Vid): Option<Object> {
    match vid
    case NullId =>
      if NullPtr(bucket, key) in kv.nulls && ObjectId(bucket, key, kv.nulls[NullPtr(bucket, key)]) in kv.objects
      then Some(kv.objects[ObjectId(bucket, key, kv.nulls[NullPtr(bucket, key)])]) else None
    case SeqId(s, _) =>
      if ObjectId(bucket, key, s) in kv.objects && kv.objects[ObjectId(bucket, key, s)].vid == vid
      then Some(kv.objects[ObjectId(bucket, key, s)]) else None
    case BadId => None
  }

  // ----- writes

  /** The null version that `PutObject` replaces. */
  function Replaced(kv: Kv, bucket: Name, key: Key, o: Object): Option<Object> {
    if o.vid == NullId then GetVersion(kv, bucket, key, NullId) else None
  }

  /** `PutObject`: a new null version removes the old one and takes over the pointer. */
  function PutObject(kv: Kv, bucket: Name, key: Key, o: Object): Kv {
    var id, ptr := ObjectId(bucket, key, o.seqNo), NullPtr(bucket, key);
    if o.vid == NullId then
      var objects := if ptr in kv.nulls then kv.objects - {ObjectId(bucket, key, kv.nulls[ptr])} else kv.objects;
      kv.(objects := objects[id := o], nulls := kv.nulls[ptr := o.seqNo])
    else kv.(objects := kv.objects[id := o])
  }

  /** `DeleteVersion`: the null pointer goes with the null version. */
  function DeleteVersion(kv: Kv, bucket: Name, key: Key, o: Object): Kv {
    var nulls := if o.vid == NullId then kv.nulls - {NullPtr(bucket, key)} else kv.nulls;
    kv.(objects := kv.objects - {ObjectId(bucket, key, o.seqNo)}, nulls := nulls)
  }

  function PartsOf(kv: Kv, bucket: Name, id: nat): (ids: set<PartId>)
    ensures ids <= kv.parts.Keys
  {
    set p | p in kv.parts && p.bucket == bucket && p.id == id
  }

  /** `DeleteUpload`: the record and all its parts. */
  function DeleteUpload(kv: Kv, bucket: Name, id: nat): Kv {
    kv.(uploads := kv.uploads - {UploadId(bucket, id)}, parts := kv.parts - PartsOf(kv, bucket, id))
  }

  // ----- the invariant of the version records

  /** Every record stands under its own sequence, and an ID that embeds a sequence embeds
      the record's. */
  ghost predicate WellKeyed(kv: Kv) {
    forall id :: id in kv.objects ==>
      var o := kv.objects[id]; o.seqNo == id.seqNo && (o.vid == NullId || (o.vid.SeqId? && o.vid.seqNo == id.seqNo))
  }

  /** A null pointer names a null version, and every null version is the target of the
      pointer of its key. */
  ghost predicate NullsExact(kv: Kv) {
    && (forall p :: p in kv.nulls ==> PointsToNull(kv, p))
    && (forall id :: id in kv.objects && kv.objects[id].vid == NullId ==> IsPointed(kv, id))
  }

  ghost predicate PointsToNull(kv: Kv, p: NullPtr)
    requires p in kv.nulls
  {
    var id := ObjectId(p.bucket, p.key, kv.nulls[p]);
    id in kv.objects && kv.objects[id].vid == NullId
  }

  ghost predicate IsPointed(kv: Kv, id: ObjectId) {
    var p := NullPtr(id.bucket, id.key);
    p in kv.nulls && kv.nulls[p] == id.seqNo
  }

  ghost predicate VersionsValid(kv: Kv) {
    WellKeyed(kv) && NullsExact(kv)
  }

  ghost predicate IsNullVersion(kv: Kv, bucket: Name, key: Key, s: nat) {
    ObjectId(bucket, key, s) in kv.objects && kv.objects[ObjectId(bucket, key, s)].vid == NullId
  }

  /** The null pointer of a key exists exactly when the key has a null version, and that
      version is unique. */
  lemma NullVersionUnique(kv: Kv, bucket: Name, key: Key)
    requires VersionsValid(kv)
    ensures NullPtr(bucket, key) in kv.nulls <==>
      exists s: nat :: IsNullVersion(kv, bucket, key, s)
    ensures forall s: nat, t: nat ::
      IsNullVersion(kv, bucket, key, s) && IsNullVersion(kv, bucket, key, t) ==> s == t
  {
    var p := NullPtr(bucket, key);
    if p in kv.nulls {
      assert PointsToNull(kv, p);
      assert IsNullVersion(kv, bucket, key, kv.nulls[p]);
    }
    forall s: nat | IsNullVersion(kv, bucket, key, s)
      ensures p in kv.nulls && kv.nulls[p] == s
    {
      assert IsPointed(kv, ObjectId(bucket, key, s));
    }
  }

  /** `GetVersion` finds a version exactly when the key has one with that ID, and no two
      versions of a key share an ID. */
  lemma GetVersionIsLookup(kv: Kv, bucket: Name, key: Key, vid: Vid, o: Object)
    requires VersionsValid(kv)
    ensures GetVersion(kv, bucket, key, vid) == Some(o) <==>
      ObjectId(bucket, key, o.seqNo) in kv.objects && kv.objects[ObjectId(bucket, key, o.seqNo)] == o && o.vid == vid
  {
    var id := ObjectId(bucket, key, o.seqNo);
    if vid == NullId {
      if NullPtr(bucket, key) in kv.nulls { assert PointsToNull(kv, NullPtr(bucket, key)); }
      if id in kv.objects && kv.objects[id].vid == NullId { assert IsPointed(kv, id); }
    }
  }

  /** A write is well-formed: its ID is "null" or embeds its own, new, sequence. */
  predicate NewVersion(kv: Kv, bucket: Name, key: Key, o: Object) {
    && ObjectId(bucket, key, o.seqNo) !in kv.objects
    && (o.vid == NullId || (o.vid.SeqId? && o.vid.seqNo == o.seqNo))
  }

  /** The version `id` is the null version that a write of `o` replaces. */
  predicate IsReplaced(kv: Kv, bucket: Name, key: Key, o: Object, id: ObjectId) {
    o.vid == NullId && id.bucket == bucket && id.key == key && id in kv.objects && kv.objects[id].vid == NullId
  }

  /** A write adds exactly its version and removes exactly the null version it replaces. */
  lemma PutObjectEffect(kv: Kv, bucket: Name, key: Key, o: Object)
    requires VersionsValid(kv) && NewVersion(kv, bucket, key, o)
    ensures var kv', added := PutObject(kv, bucket, key, o), ObjectId(bucket, key, o.seqNo);
      kv'.nulls == (if o.vid == NullId then kv.nulls[NullPtr(bucket, key) := o.seqNo] else kv.nulls) &&
      added in kv'.objects && kv'.objects[added] == o &&
      forall id :: id != added ==>
        (id in kv'.objects <==> id in kv.objects && !IsReplaced(kv, bucket, key, o, id)) &&
        (id in kv'.objects ==> kv'.objects[id] == kv.objects[id])
    ensures forall id :: IsReplaced(kv, bucket, key, o, id) ==> Replaced(kv, bucket, key, o) == Some(kv.objects[id])
    ensures Replaced(kv, bucket, key, o).Some? ==>
      exists id :: IsReplaced(kv, bucket, key, o, id) && kv.objects[id] == Replaced(kv, bucket, key, o).value
  {
    var ptr := NullPtr(bucket, key);
    if ptr in kv.nulls {
      assert PointsToNull(kv, ptr);
      if o.vid == NullId { assert IsReplaced(kv, bucket, key, o, ObjectId(bucket, key, kv.nulls[ptr])); }
    }
    forall id | IsReplaced(kv, bucket, key, o, id)
      ensures ptr in kv.nulls && kv.nulls[ptr] == id.seqNo
    {
      assert IsPointed(kv, id);
    }
  }

  /** Writing a version with a new sequence keeps the invariant. */
  lemma PutObjectKeeps(kv: Kv, bucket: Name, key: Key, o: Object)
    requires VersionsValid(kv) && NewVersion(kv, bucket, key, o)
    ensures VersionsValid(PutObject(kv, bucket, key, o))
  {
    hide PutObject;
    PutObjectEffect(kv, bucket, key, o);
    var kv' := PutObject(kv, bucket, key, o);
    forall p | p in kv'.nulls
      ensures PointsToNull(kv', p)
    {
      if p != NullPtr(bucket, key) || o.vid != NullId { assert PointsToNull(kv, p); }
    }
    forall id | id in kv'.objects && kv'.objects[id].vid == NullId
      ensures IsPointed(kv', id)
    {
      if id != ObjectId(bucket, key, o.seqNo) { assert IsPointed(kv, id); }
    }
  }

  lemma DeleteVersionKeeps(kv: Kv, bucket: Name, key: Key, o: Object)
    requires VersionsValid(kv)
    requires ObjectId(bucket, key, o.seqNo) in kv.objects && kv.objects[ObjectId(bucket, key, o.seqNo)] == o
    ensures VersionsValid(DeleteVersion(kv, bucket, key, o))
  {
    var kv' := DeleteVersion(kv, bucket, key, o);
    forall p | p in kv'.nulls
      ensures PointsToNull(kv', p)
    {
      assert PointsToNull(kv, p);
    }
    forall id | id in kv'.objects && kv'.objects[id].vid == NullId
      ensures IsPointed(kv', id)
    {
      assert IsPointed(kv, id);
      if o.vid == NullId { assert IsPointed(kv, ObjectId(bucket, key, o.seqNo)); }
    }
  }

  /** Rewriting a version in place under the same ID keeps the invariant. */
  lemma RewriteKeeps(kv: Kv, id: ObjectId, o: Object)
    requires VersionsValid(kv) && id in kv.objects && o.vid == kv.objects[id].vid && o.seqNo == id.seqNo
    ensures VersionsValid(kv.(objects := kv.objects[id := o]))
  {
    var kv' := kv.(objects := kv.objects[id := o]);
    forall p | p in kv'.nulls
      ensures PointsToNull(kv', p)
    {
      assert PointsToNull(kv, p);
    }
    forall i | i in kv'.objects && kv'.objects[i].vid == NullId
      ensures IsPointed(kv', i)
    {
      assert IsPointed(kv, i);
    }
  }
}
