/** The promises of the transactions in every state of a run, and what rests on them: a version
    under active retention, in either mode, is only ever removed by a delete that bypasses
    governance. */
module Governance {
  import opened Records
  import opened Service
  import opened Protocol
  import opened Safety
  import opened SafetyKv
  import opened SafetyBlobs
  import opened SafetyPut
  import opened SafetyRuns
  import opened Promises
  import opened PromisesDelete
  import opened PromisesMultipart
  import opened PromisesRetention
  import Worm
  import Checksum

  // ----- what the steps do

  lemma DrawnIsFresh(s: State, p: nat)
    requires Inv(s) && p in s.procs && s.procs[p].PutStored?
    ensures IsFresh(s.kv, s.procs[p].name, s.procs[p].key, s.procs[p].o.seqNo)
  {
    KvOfInv(s);
    PartsOfInv(s.kv, s.blobs, s.next);
    ProcOf(s, p);
    hide Inv, KvInv, VersionsValid, Unique, Homes, Data, Content, Named;
  }

  lemma NextIsFresh(s: State, name: Name, key: Key)
    requires Inv(s)
    ensures IsFresh(s.kv, name, key, s.next) && VersionsValid(s.kv)
  {
    KvOfInv(s);
    PartsOfInv(s.kv, s.blobs, s.next);
    hide Inv, KvInv, VersionsValid, Unique, Homes, Data, Content;
  }

  /** What a step that commits a transaction does to the records. */
  lemma CommitsAre(s: State, st: Step)
    requires Possible(s, st)
    ensures st.EndPut? ==>
      var x := s.procs[st.p];
      var r := CommitPut(s.kv, x.e, x.name, x.key, x.seen, x.o, st.random, x.c, s.now);
      Do(s, st).kv == if r.Committed? then r.kv else s.kv
    ensures st.EndComplete? ==>
      var x := s.procs[st.p];
      var r := CommitComplete(s.kv, x.e, x.name, x.key, x.id, x.u, x.seen, x.r, s.next, st.random);
      Do(s, st).kv == if r.Committed? then r.kv else s.kv
    ensures st.Delete? ==>
      var r := CommitDelete(s.kv, st.e, st.name, st.key, st.d, s.next, st.random, s.now);
      Do(s, st).kv == if r.Committed? then r.kv else s.kv
    ensures st.EndRetention? ==>
      var x := s.procs[st.p];
      var r := CommitRetention(s.kv, x.e, x.name, x.key, x.vid, x.wanted, x.bypass, s.now);
      Do(s, st).kv == if r.Committed? then r.kv else s.kv
    ensures st.EndHold? ==>
      var x := s.procs[st.p];
      var r := CommitHold(s.kv, x.e, x.name, x.key, x.vid, x.on);
      Do(s, st).kv == if r.Committed? then r.kv else s.kv
  {
    hide CommitPut, CommitComplete, CommitDelete, CommitRetention, CommitHold, BlobsOf, ObjectBlobs, PartBlobs;
  }

  /** The last step of a put: when it is granted its version is stored, otherwise nothing is. */
  lemma PutDoes(s: State, p: nat, random: nat)
    requires Inv(s) && p in s.procs && s.procs[p].PutStored?
    ensures var x, s' := s.procs[p], Do(s, EndPut(p, random));
      if PutGranted(s.kv, x.e, x.name, x.key, x.seen, x.c, s.now)
      then exists replaced :: PutDone(s.kv, s'.kv, x.name, x.key, x.o, random, replaced)
      else s'.kv == s.kv
  {
    hide Inv, Do, IsFresh, CommitPut, PutGranted, PutDone;
    var x := s.procs[p];
    DrawnIsFresh(s, p);
    CommitsAre(s, EndPut(p, random));
    PutMeans(s.kv, x.e, x.name, x.key, x.seen, x.o, random, x.c, s.now);
  }

  /** The last step of a completed upload, likewise. */
  lemma CompleteDoes(s: State, p: nat, random: nat)
    requires Inv(s) && p in s.procs && s.procs[p].Completing?
    ensures var x, s' := s.procs[p], Do(s, EndComplete(p, random));
      if CompleteGranted(s.kv, x.e, x.name, x.key, x.id, x.u, x.seen, x.r)
      then exists left :: Completed(s.kv, s'.kv, x.name, x.key, x.id, x.u, x.r, s.next, random, left)
      else s'.kv == s.kv
  {
    hide Inv, Do, IsFresh, VersionsValid, CommitComplete, CompleteGranted, Completed;
    var x := s.procs[p];
    NextIsFresh(s, x.name, x.key);
    CommitsAre(s, EndComplete(p, random));
    CompleteMeans(s.kv, x.e, x.name, x.key, x.id, x.u, x.seen, x.r, s.next, random);
  }

  lemma DeleteDoes(s: State, p: nat, e: Expect, name: Name, key: Key, q: DeleteRequest, random: nat)
    requires Inv(s) && Idle(s, p)
    ensures var s' := Do(s, Delete(p, e, name, key, q, random));
      if q.vid.Some? then
        if DeleteOneGranted(s.kv, e, name, key, q, s.now) then RemovedId(s.kv, s'.kv, name, key, q.vid.value) else s'.kv == s.kv
      else
        if DeleteCurrentGranted(s.kv, e, name, key, q, s.now)
        then name in s.kv.buckets && DeleteCurrentDone(s.kv, s'.kv, name, key, s.next, random) else s'.kv == s.kv
  {
    hide Inv, Do, IsFresh, VersionsValid, CommitDelete, DeleteOneGranted, RemovedId, DeleteCurrentGranted, DeleteCurrentDone, TellsRemoved;
    NextIsFresh(s, name, key);
    CommitsAre(s, Delete(p, e, name, key, q, random));
    if q.vid.Some? {
      DeleteOneMeans(s.kv, e, name, key, q, s.next, random, s.now);
    } else {
      DeleteCurrentMeans(s.kv, e, name, key, q, s.next, random, s.now);
      CurrentGrantedHas(s.kv, e, name, key, q, s.now);
    }
  }

  lemma CurrentGrantedHas(kv: Kv, e: Expect, name: Name, key: Key, q: DeleteRequest, now: int)
    ensures DeleteCurrentGranted(kv, e, name, key, q, now) ==> name in kv.buckets
  {
  }

  lemma RetentionDoes(s: State, p: nat)
    requires Inv(s) && p in s.procs && s.procs[p].Retaining?
    ensures var x, s' := s.procs[p], Do(s, EndRetention(p));
      if RetainGranted(s.kv, x.e, x.name, x.key, x.vid, x.wanted, x.bypass, s.now)
      then RetainDone(s.kv, s'.kv, x.e, x.name, x.key, x.vid, x.wanted)
      else s'.kv == s.kv
  {
    hide Inv, Do, IsFresh, VersionsValid, CommitRetention, RetainGranted, RetainDone;
    var x := s.procs[p];
    NextIsFresh(s, x.name, x.key);
    CommitsAre(s, EndRetention(p));
    RetainMeans(s.kv, x.e, x.name, x.key, x.vid, x.wanted, x.bypass, s.now);
  }

  lemma HoldDoes(s: State, p: nat)
    requires Inv(s) && p in s.procs && s.procs[p].Holding?
    ensures var x, s' := s.procs[p], Do(s, EndHold(p));
      if HoldGranted(s.kv, x.e, x.name, x.key, x.vid)
      then HoldDone(s.kv, s'.kv, x.e, x.name, x.key, x.vid, x.on)
      else s'.kv == s.kv
  {
    hide Inv, Do, IsFresh, VersionsValid, CommitHold, HoldGranted, HoldDone;
    var x := s.procs[p];
    NextIsFresh(s, x.name, x.key);
    CommitsAre(s, EndHold(p));
    HoldMeans(s.kv, x.e, x.name, x.key, x.vid, x.on);
  }

  /** Without retention of its own a version gets the default of a bucket under object lock. */
  predicate IsDefault(b: Bucket, now: int, r: Option<Retention>) {
    (r.Some? <==> b.lock && b.lockDefault.Some?) &&
    (r.Some? ==> r.value.mode == b.lockDefault.value.mode && r.value.until - now == b.lockDefault.value.period)
  }

  /** The lock attributes of a put travel with it from its first step to its last. */
  lemma AttrsTravel(s: State, p: nat, e: Expect, name: Name, key: Key, a: LockAttrs, etag: string, c: Conditions,
                    alg: Option<Checksum.Alg>, t: State, content: seq<Byte>)
    ensures var st := BeginPut(p, e, name, key, a, etag, c, alg);
      Possible(s, st) ==>
        var b := s.kv.buckets[name];
        var x := Do(s, st).procs[p];
        x.Putting? && x.e == e && x.name == name && x.key == key && x.c == c && x.etag == etag && x.seen == b &&
        (a.retention.Some? ==> b.lock && s.now < a.retention.value.until && x.retention == a.retention) && (x.hold <==> a.hold == Some(true)) &&
        (a.retention.None? ==> IsDefault(b, s.now, x.retention))
    ensures p in t.procs && t.procs[p].Putting? ==>
      var x, y := t.procs[p], Do(t, StorePut(p, content)).procs[p];
      y.PutStored? && y.e == x.e && y.name == x.name && y.key == x.key && y.c == x.c && y.seen == x.seen && y.o.retention == x.retention &&
      y.o.legalHold == x.hold && y.o.etag == x.etag && y.o.size == |content| && !y.o.deleteMarker && y.o.seqNo >= t.next &&
      |y.o.parts| == 1 && Do(t, StorePut(p, content)).blobs[Blob(x.name, y.o.parts[0].blob)] == content
  {
    if name in s.kv.buckets { AttrsMean(s.kv.buckets[name], a, s.now); }
    hide DigestOf, ValidateAttrs;
  }

  /** Those of a multipart upload stand in its record, and `CompleteDoes` gives them to the object. */
  lemma UploadAttrsTravel(s: State, p: nat, e: Expect, name: Name, key: Key, a: LockAttrs, alg: Option<Checksum.Alg>, full: bool)
    ensures var st := BeginUpload(p, e, name, key, a, alg, full);
      Possible(s, st) ==>
        var b := s.kv.buckets[name];
        var x := Do(s, st).procs[p];
        x.StartingUpload? && x.e == e && x.name == name && x.seen == b && x.u.key == key && x.u.alg == alg && x.u.full == full &&
        (a.retention.Some? ==> b.lock && s.now < a.retention.value.until && x.u.retention == a.retention) &&
        (a.retention.None? ==> IsDefault(b, s.now, x.u.retention)) && (x.u.legalHold <==> a.hold == Some(true))
  {
    if name in s.kv.buckets { AttrsMean(s.kv.buckets[name], a, s.now); }
    hide DigestOf, ValidateAttrs;
  }

  /** What a client asks of retention and legal hold is what its last step finds. */
  lemma RequestsTravel(s: State, p: nat, e: Expect, name: Name, key: Key, vid: Option<Vid>, wanted: Option<Retention>, bypass: bool, on: bool)
    ensures var st := BeginRetention(p, e, name, key, vid, wanted, bypass);
      Possible(s, st) ==>
        var x := Do(s, st).procs[p];
        x.Retaining? && x.e == e && x.name == name && x.key == key && x.vid == vid && x.wanted == wanted && x.bypass == bypass &&
        s.kv.buckets[name].lock
    ensures var st := BeginHold(p, e, name, key, vid, on);
      Possible(s, st) ==>
        var x := Do(s, st).procs[p];
        x.Holding? && x.e == e && x.name == name && x.key == key && x.vid == vid && x.on == on && s.kv.buckets[name].lock
  {
    hide DigestOf, ValidateAttrs;
  }

  /** A part upload and a completion work on the upload as it is stored. */
  lemma PartsTravel(s: State, p: nat, e: Expect, name: Name, key: Key, id: nat, number: nat, r: CompleteRequest)
    ensures var st := BeginPart(p, name, key, id, number);
      Possible(s, st) ==>
        var x := Do(s, st).procs[p];
        x.PartWriting? && x.name == name && x.key == key && x.id == id && x.number == number && 1 <= number <= MAX_PARTS &&
        IsOpen(s.kv, name, key, id) && x.u == s.kv.uploads[UploadId(name, id)]
    ensures var st := BeginComplete(p, e, name, key, id, r);
      Possible(s, st) ==>
        var x := Do(s, st).procs[p];
        x.Completing? && x.e == e && x.name == name && x.key == key && x.id == id && x.r == r && r.list != [] &&
        IsOpen(s.kv, name, key, id) && x.u == s.kv.uploads[UploadId(name, id)] && name in s.kv.buckets && x.seen == s.kv.buckets[name]
  {
    hide DigestOf, ValidateAttrs;
  }

  // ----- retention in either mode

  /** The steps that touch version records. */
  predicate Touches(st: Step) {
    st.EndPut? || st.EndComplete? || st.Delete? || st.EndRetention? || st.EndHold? || st.ForceDeleteBucket?
  }

  lemma OthersLeaveObjects(s: State, st: Step)
    requires Possible(s, st) && !Touches(st)
    ensures Do(s, st).kv.objects == s.kv.objects
  {
    if st.EndUpload? || st.EndPart? || st.Abort? {
      UploadsLeaveObjects(s, st);
    } else if st.CreateBucket? || st.SetVersioning? || st.SetLock? || st.DeleteBucket? || st.RemoveRecord? {
      BucketsLeaveObjects(s, st);
    } else {
      RestLeavesKv(s, st);
    }
    hide Possible, Do;
  }

  lemma UploadsLeaveObjects(s: State, st: Step)
    requires Possible(s, st) && (st.EndUpload? || st.EndPart? || st.Abort?)
    ensures Do(s, st).kv.objects == s.kv.objects
  {
    hide GetUpload, LiveBucket, PartsOf, PartBlobs;
  }

  lemma BucketsLeaveObjects(s: State, st: Step)
    requires Possible(s, st) && (st.CreateBucket? || st.SetVersioning? || st.SetLock? || st.DeleteBucket? || st.RemoveRecord?)
    ensures Do(s, st).kv.objects == s.kv.objects
  {
    hide LiveBucket, HasObjects;
  }

  /** The steps that commit a transaction. */
  predicate Commits(st: Step) {
    Touches(st) || st.EndUpload? || st.EndPart? || st.Abort? || st.CreateBucket? || st.SetVersioning? || st.SetLock? || st.DeleteBucket? ||
    st.RemoveRecord?
  }

  lemma RestLeavesKv(s: State, st: Step)
    requires Possible(s, st) && !Commits(st)
    ensures Do(s, st).kv == s.kv
  {
    hide DigestOf, PutVersion, ValidateAttrs, GetUpload, GetLiveBucket, Readable;
  }

  /** The step addresses the version and bypasses governance. */
  ghost predicate Bypasses(s: State, st: Step, id: ObjectId) {
    match st
    case Delete(_, _, name, key, q, _) => q.bypass && IsVersionOf(id, name, key)
    case EndRetention(p) =>
      p in s.procs && s.procs[p].Retaining? && s.procs[p].bypass && IsVersionOf(id, s.procs[p].name, s.procs[p].key)
    case _ => false
  }

  predicate IsGoverned(o: Object) {
    o.retention.Some? && o.retention.value.mode == Governance
  }

  /** Every step leaves a version under active retention as it is, or with longer retention, unless
      the retention is governance and that very step addresses the version and bypasses it. It is
      removed by no step but such a delete. */
  lemma StepUpholds(s: State, st: Step, id: ObjectId)
    requires Inv(s) && Worm.LockInv(s) && Possible(s, st) && !st.ForceDeleteBucket?
    requires id in s.kv.objects && Active(s.kv.objects[id], s.now)
    ensures Upheld(s.kv, Do(s, st).kv, id) || (Bypasses(s, st, id) && IsGoverned(s.kv.objects[id]))
    ensures id !in Do(s, st).kv.objects ==> st.Delete?
  {
    hide Inv, Do, Upheld, Active, IsVersionOf, Possible, Worm.LockInv;
    Ready(s, st);
    if st.EndPut? {
      PutStepUpholds(s, st.p, st.random, id);
    } else if st.EndComplete? {
      CompleteStepUpholds(s, st.p, st.random, id);
    } else if st.Delete? {
      DeleteStepUpholds(s, st.p, st.e, st.name, st.key, st.d, st.random, id);
    } else if st.EndRetention? {
      RetentionStepUpholds(s, st.p, id);
    } else if st.EndHold? {
      HoldStepUpholds(s, st.p, id);
    } else {
      OthersLeaveObjects(s, st);
      Unmoved(s.kv, Do(s, st).kv, id);
      UpheldStands(s.kv, Do(s, st).kv, id);
    }
  }

  lemma Ready(s: State, st: Step)
    requires Possible(s, st)
    ensures st.EndPut? ==> st.p in s.procs && s.procs[st.p].PutStored?
    ensures st.EndComplete? ==> st.p in s.procs && s.procs[st.p].Completing?
    ensures st.Delete? ==> Idle(s, st.p)
    ensures st.EndRetention? ==> st.p in s.procs && s.procs[st.p].Retaining?
    ensures st.EndHold? ==> st.p in s.procs && s.procs[st.p].Holding?
  {
  }

  lemma UpheldStands(kv: Kv, kv': Kv, id: ObjectId)
    requires id in kv.objects
    ensures Upheld(kv, kv', id) ==> id in kv'.objects
  {
  }

  lemma PutGrantedHas(kv: Kv, e: Expect, name: Name, key: Key, seen: Bucket, c: Conditions, now: int)
    ensures PutGranted(kv, e, name, key, seen, c, now) ==> name in kv.buckets
  {
  }

  lemma PutStepUpholds(s: State, p: nat, random: nat, id: ObjectId)
    requires Inv(s) && p in s.procs && s.procs[p].PutStored? && id in s.kv.objects && Active(s.kv.objects[id], s.now)
    ensures Upheld(s.kv, Do(s, EndPut(p, random)).kv, id) && id in Do(s, EndPut(p, random)).kv.objects
  {
    hide Inv, Do, Upheld, Active, IsFresh, PutGranted, PutDone;
    var x, kv' := s.procs[p], Do(s, EndPut(p, random)).kv;
    PutDoes(s, p, random);
    DrawnIsFresh(s, p);
    if PutGranted(s.kv, x.e, x.name, x.key, x.seen, x.c, s.now) {
      PutGrantedHas(s.kv, x.e, x.name, x.key, x.seen, x.c, s.now);
      var replaced :| PutDone(s.kv, kv', x.name, x.key, x.o, random, replaced);
      PutUpholds(s.kv, kv', x.e, x.name, x.key, x.seen, x.o, random, x.c, s.now, replaced, id);
    } else {
      Unmoved(s.kv, kv', id);
    }
    UpheldStands(s.kv, kv', id);
  }

  lemma CompleteStepUpholds(s: State, p: nat, random: nat, id: ObjectId)
    requires Inv(s) && Worm.LockInv(s) && p in s.procs && s.procs[p].Completing? && id in s.kv.objects && Active(s.kv.objects[id], s.now)
    ensures Upheld(s.kv, Do(s, EndComplete(p, random)).kv, id) && id in Do(s, EndComplete(p, random)).kv.objects
  {
    hide Inv, Do, Upheld, IsFresh, VersionsValid, CompleteGranted, Completed;
    var x, kv' := s.procs[p], Do(s, EndComplete(p, random)).kv;
    CompleteDoes(s, p, random);
    NextIsFresh(s, x.name, x.key);
    if CompleteGranted(s.kv, x.e, x.name, x.key, x.id, x.u, x.seen, x.r) {
      var left :| Completed(s.kv, kv', x.name, x.key, x.id, x.u, x.r, s.next, random, left);
      RetainedIsKept(s, id);
      CompleteUpholds(s.kv, kv', x.name, x.key, x.id, x.u, x.r, s.next, random, left, id);
    } else {
      Unmoved(s.kv, kv', id);
    }
    UpheldStands(s.kv, kv', id);
  }

  lemma RetainedIsKept(s: State, id: ObjectId)
    requires Inv(s) && Worm.LockInv(s) && id in s.kv.objects && Active(s.kv.objects[id], s.now)
    ensures id.bucket in s.kv.buckets ==> s.kv.buckets[id.bucket].versioning == Versioning.Enabled
  {
    Worm.Facts(s);
    hide Inv, Worm.LockInv, VersionsValid, Homes, Numbered, Worm.ProtectionFounded;
    assert Worm.Protects(s.kv.objects[id].retention, s.kv.objects[id].legalHold);
  }

  lemma DeleteStepUpholds(s: State, p: nat, e: Expect, name: Name, key: Key, q: DeleteRequest, random: nat, id: ObjectId)
    requires Inv(s) && Idle(s, p) && id in s.kv.objects && Active(s.kv.objects[id], s.now)
    ensures var s' := Do(s, Delete(p, e, name, key, q, random));
      Upheld(s.kv, s'.kv, id) || (q.bypass && IsVersionOf(id, name, key) && IsGoverned(s.kv.objects[id]))
  {
    hide Inv, Do, Upheld, IsFresh, VersionsValid, DeleteOneGranted, RemovedId, DeleteCurrentGranted, DeleteCurrentDone, IsVersionOf;
    var kv' := Do(s, Delete(p, e, name, key, q, random)).kv;
    DeleteDoes(s, p, e, name, key, q, random);
    NextIsFresh(s, name, key);
    if q.vid.Some? && DeleteOneGranted(s.kv, e, name, key, q, s.now) {
      DeleteOneUpholds(s.kv, kv', e, name, key, q, s.now, id);
    } else if q.vid.None? && DeleteCurrentGranted(s.kv, e, name, key, q, s.now) {
      DeleteCurrentUpholds(s.kv, kv', e, name, key, q, s.next, random, s.now, id);
    } else {
      Unmoved(s.kv, kv', id);
    }
  }

  lemma RetentionStepUpholds(s: State, p: nat, id: ObjectId)
    requires Inv(s) && p in s.procs && s.procs[p].Retaining? && id in s.kv.objects && Active(s.kv.objects[id], s.now)
    ensures var x, s' := s.procs[p], Do(s, EndRetention(p));
      id in s'.kv.objects &&
      (Upheld(s.kv, s'.kv, id) || (x.bypass && IsVersionOf(id, x.name, x.key) && IsGoverned(s.kv.objects[id])))
  {
    hide Inv, Do, Upheld, RetainGranted, RetainDone, IsVersionOf;
    var x, kv' := s.procs[p], Do(s, EndRetention(p)).kv;
    RetentionDoes(s, p);
    if RetainGranted(s.kv, x.e, x.name, x.key, x.vid, x.wanted, x.bypass, s.now) {
      RetentionUpholds(s.kv, kv', x.e, x.name, x.key, x.vid, x.wanted, x.bypass, s.now, id);
    } else {
      Unmoved(s.kv, kv', id);
    }
  }

  lemma HoldStepUpholds(s: State, p: nat, id: ObjectId)
    requires Inv(s) && p in s.procs && s.procs[p].Holding? && id in s.kv.objects
    ensures Upheld(s.kv, Do(s, EndHold(p)).kv, id) && id in Do(s, EndHold(p)).kv.objects
  {
    hide Inv, Do, Upheld, HoldGranted, HoldDone;
    var x, kv' := s.procs[p], Do(s, EndHold(p)).kv;
    HoldDoes(s, p);
    if HoldGranted(s.kv, x.e, x.name, x.key, x.vid) {
      HoldUpholds(s.kv, kv', x.e, x.name, x.key, x.vid, x.on, id);
    } else {
      Unmoved(s.kv, kv', id);
    }
    UpheldStands(s.kv, kv', id);
  }

  // ----- over whole runs

  /** From step `i` up to state `j` no step addressed the version and bypassed governance. */
  ghost predicate Unbypassed(states: seq<State>, steps: seq<Step>, i: nat, j: nat, id: ObjectId)
    requires |states| == |steps| + 1 && j <= |steps|
  {
    forall k :: i <= k < j ==> !Bypasses(states[k], steps[k], id)
  }

  /** A version under retention until T stands, and its retain-until never decreases, at all times
      before T: always in compliance mode, and in governance mode unless it is bypassed. */
  lemma {:induction false} RetentionHolds(states: seq<State>, steps: seq<Step>, i: nat, j: nat, id: ObjectId)
    requires Worm.CarefulRun(states, steps) && |states| == |steps| + 1 && i <= j <= |steps|
    requires id in states[i].kv.objects && Active(states[i].kv.objects[id], states[j].now)
    requires IsGoverned(states[i].kv.objects[id]) ==> Unbypassed(states, steps, i, j, id)
    ensures Upheld(states[i].kv, states[j].kv, id)
    decreases j
  {
    hide Worm.CarefulRun, Inv, Worm.LockInv, Possible, Do, Upheld, Bypasses;
    if i == j {
      Unmoved(states[i].kv, states[j].kv, id);
    } else {
      var k := j - 1;
      OneStep(states, steps, k);
      assert Active(states[i].kv.objects[id], states[k].now);
      RetentionHolds(states, steps, i, k, id);
      StillActive(states[i].kv, states[k].kv, id, states[k].now);
      StepUpholds(states[k], steps[k], id);
      UpheldTwice(states[i].kv, states[k].kv, states[j].kv, id);
    }
  }

  lemma StillActive(kv: Kv, kv': Kv, id: ObjectId, now: int)
    requires id in kv.objects && Upheld(kv, kv', id) && Active(kv.objects[id], now)
    ensures id in kv'.objects && Active(kv'.objects[id], now) && (IsGoverned(kv'.objects[id]) <==> IsGoverned(kv.objects[id]))
  {
  }

  lemma OneStep(states: seq<State>, steps: seq<Step>, k: nat)
    requires Worm.CarefulRun(states, steps) && |states| == |steps| + 1 && k < |steps|
    ensures Inv(states[k]) && Worm.LockInv(states[k]) && Possible(states[k], steps[k]) && !steps[k].ForceDeleteBucket?
    ensures states[k + 1] == Do(states[k], steps[k]) && states[k].now <= states[k + 1].now
  {
    Worm.LockRun(states, steps, k);
    hide Inv, Worm.LockInv, Possible, Do;
    ClockMoves(states[k], steps[k]);
  }

  lemma ClockMoves(s: State, st: Step)
    requires Possible(s, st)
    ensures s.now <= Do(s, st).now
  {
    hide DigestOf, PutVersion, ValidateAttrs, GetUpload, Readable, CommitPut, CommitComplete, CommitDelete, CommitRetention, CommitHold,
      CommitUpload, CommitPart, CommitAbort, CommitCreateBucket, CommitVersioning, CommitLockConfig, CommitDeleteBucket, CommitForceDelete,
      FinishDelete, BlobsOf, PartBlobs, ObjectBlobs;
  }
}
