/** The transactions that write a version: a put, a delete marker, a completed upload. */
module SafetyPut {
  import opened Records
  import opened Service
  import opened Protocol
  import opened Safety
  import opened SafetyKv
  import opened SafetyBlobs
  import Checksum

  // ----- what any such transaction leaves to clean up

  /** `p` turns into the clean-up of blobs that were named and are named no more. */
  lemma TurnsToCleaning(s: State, s': State, own: Own, p: nat, doomed: set<Blob>)
    requires Inv(s) && KvInv(s'.kv, s'.blobs, s'.next) && Evolves(s, s', own)
    requires s'.procs == s.procs[p := Cleaning(doomed)]
    requires own.claim.Some? ==> own.claim == Claim(Before(s, p))
    requires own.drawn.Some? ==> own.drawn == Drawn(Before(s, p))
    requires own.gone.None? && own.doomed == {}
    requires forall b :: b in doomed ==> !Named(s'.kv, b) && (Named(s.kv, b) || Claim(Before(s, p)) == Some(b))
    ensures Inv(s')
  {
    forall b | b in doomed
      ensures b.id < s'.next
    {
      if Named(s.kv, b) { NamedLives(s, b); } else { ProcOf(s, p); NextGrows(s, s', own); }
    }
    NextGrows(s, s', own);
    assert Passes(s.kv, s.next, Before(s, p), own, Cleaning(doomed)) by { hide ProcsInv, KvInv, Evolves, Before; }
    assert ProcOk(s'.kv, s'.blobs, s'.next, Cleaning(doomed)) by { hide ProcsInv, KvInv, Evolves, Before, Named; }
    hide KvInv, ProcsInv, Evolves, ProcOk, Passes, Before, Named;
    Moves(s, s', own, p, Cleaning(doomed));
  }

  lemma Becomes(s: State, p: nat, x: Proc)
    ensures var s' := Become(s, p, x);
      s'.kv == s.kv && s'.blobs == s.blobs && s'.next == s.next && s'.procs == s.procs[p := x]
  {
  }

  lemma NextGrows(s: State, s': State, own: Own)
    requires Evolves(s, s', own)
    ensures s.next <= s'.next
  {
    hide Named, Continues;
  }

  /** A failed write cleans up the blob it wrote. */
  lemma Discards(s: State, p: nat, b: Blob)
    requires Inv(s) && p in s.procs && Claim(s.procs[p]) == Some(b)
    ensures Inv(Become(s, p, Cleaning({b})))
  {
    ProcOf(s, p);
    Still(s, Become(s, p, Cleaning({b})));
    hide KvInv, ProcsInv, Evolves, Named;
    TurnsToCleaning(s, Become(s, p, Cleaning({b})), NOTHING, p, {b});
  }

  // ----- what a write of a version changes for the others

  /** The write of version `o`, whose blobs are new to the records of `kv`. */
  lemma PutEvolves(s: State, s': State, own: Own, name: Name, key: Key, o: Object)
    requires VersionsValid(s.kv) && NewVersion(s.kv, name, key, o) && NewParts(s.kv, s.blobs, name, o.parts)
    requires s'.kv == PutObject(s.kv, name, key, o) && s'.blobs == s.blobs && s.next <= s'.next
    requires Some(o.seqNo) == own.drawn || o.seqNo >= s.next
    requires own.gone.None? && forall b :: b in BlobsOf(name, o.parts) ==> own.claim == Some(b)
    ensures Evolves(s, s', own)
  {
    forall b | Named(s'.kv, b)
      ensures Named(s.kv, b) || Some(b) == own.claim
    {
      PutNamed(s.kv, s.blobs, name, key, o, b);
    }
    PutObjectEffect(s.kv, name, key, o);
    hide Named, BlobsOf, NewParts, VersionsValid;
  }

  /** The replaced null version's blobs were named and are not any more. */
  lemma ReplacedReleased(kv: Kv, blobs: map<Blob, seq<Byte>>, name: Name, key: Key, o: Object)
    requires VersionsValid(kv) && Unique(kv) && NewVersion(kv, name, key, o) && NewParts(kv, blobs, name, o.parts)
    ensures forall b :: b in ObjectBlobs(name, Replaced(kv, name, key, o)) ==>
      !Named(PutObject(kv, name, key, o), b) && Named(kv, b)
  {
    hide ObjectBlobs, Replaced, PutObject, Named, VersionsValid, Unique, NewVersion, NewParts;
    forall b | b in ObjectBlobs(name, Replaced(kv, name, key, o))
      ensures !Named(PutObject(kv, name, key, o), b) && Named(kv, b)
    {
      PutReleases(kv, blobs, name, key, o, b);
    }
  }

  lemma PartsOfInv(kv: Kv, blobs: map<Blob, seq<Byte>>, next: nat)
    requires KvInv(kv, blobs, next)
    ensures VersionsValid(kv) && Unique(kv) && Homes(kv) && Numbered(kv, blobs, next) && Data(kv, blobs) && Content(kv, blobs)
  {
    hide VersionsValid, Unique, Homes, Numbered, Data, Content;
  }

  // ----- PutObject

  /** The version of a put is ready to be written while its bucket lives. */
  lemma PutReady(s: State, p: nat, o: Object)
    requires Inv(s) && p in s.procs && s.procs[p].PutStored? && Incarnation(s.kv, s.procs[p].name, s.procs[p].seen)
    requires o == s.procs[p].o.(vid := o.vid) && (o.vid == NullId || (o.vid.SeqId? && o.vid.seqNo == o.seqNo))
    ensures NewVersion(s.kv, s.procs[p].name, s.procs[p].key, o) && o.seqNo < s.next
    ensures NewParts(s.kv, s.blobs, s.procs[p].name, o.parts) && BodyOk(s.blobs, s.procs[p].name, o)
    ensures Claim(s.procs[p]).Some? && BlobsOf(s.procs[p].name, o.parts) == {Claim(s.procs[p]).value}
  {
    ProcOf(s, p);
    hide KvInv, ProcsInv, Named, Body;
    assert o.parts == [o.parts[0]];
    assert o.parts[..0] == [];
    assert TotalSize([]) == 0;
  }

  lemma PutLands(s: State, p: nat, o: Object)
    requires Inv(s) && p in s.procs && s.procs[p].PutStored? && Incarnation(s.kv, s.procs[p].name, s.procs[p].seen)
    requires o == s.procs[p].o.(vid := o.vid) && (o.vid == NullId || (o.vid.SeqId? && o.vid.seqNo == o.seqNo))
    ensures var x := s.procs[p];
      Inv(Become(s.(kv := PutObject(s.kv, x.name, x.key, o)), p, Cleaning(ObjectBlobs(x.name, Replaced(s.kv, x.name, x.key, o)))))
  {
    hide *;
    var x := s.procs[p];
    var doomed := ObjectBlobs(x.name, Replaced(s.kv, x.name, x.key, o));
    var s1 := s.(kv := PutObject(s.kv, x.name, x.key, o));
    var s' := Become(s1, p, Cleaning(doomed));
    var own := Own(Claim(x), Drawn(x), {}, None);
    PutReady(s, p, o);
    KvOfInv(s);
    PartsOfInv(s.kv, s.blobs, s.next);
    Becomes(s1, p, Cleaning(doomed));
    BeforeIs(s, p, o);
    PutKeeps(s.kv, s.blobs, s.next, x.name, x.key, o);
    PutEvolves(s, s', own, x.name, x.key, o);
    ReplacedReleased(s.kv, s.blobs, x.name, x.key, o);
    TurnsToCleaning(s, s', own, p, doomed);
  }

  lemma BeforeIs(s: State, p: nat, o: Object)
    requires p in s.procs && s.procs[p].PutStored? && Incarnation(s.kv, s.procs[p].name, s.procs[p].seen)
    requires o == s.procs[p].o.(vid := o.vid)
    ensures Before(s, p) == s.procs[p] && LiveName(s.kv, s.procs[p].name) && Drawn(s.procs[p]) == Some(o.seqNo)
  {
  }

  lemma EndsPut(s: State, p: nat, random: nat)
    requires Inv(s) && p in s.procs && s.procs[p].PutStored?
    ensures Inv(DoEndPut(s, p, random))
  {
    var x := s.procs[p];
    var r := CommitPut(s.kv, x.e, x.name, x.key, x.seen, x.o, random, x.c, s.now);
    hide Inv, PutObject, Replaced, GetVersion, CheckWriteConditions;
    if r.Failed? {
      ClaimOfPut(s, p);
      Discards(s, p, Claim(x).value);
    } else {
      PutLands(s, p, x.o.(vid := VersionIdFor(s.kv.buckets[x.name], x.o.seqNo, random)));
    }
  }

  lemma ClaimOfPut(s: State, p: nat)
    requires Inv(s) && p in s.procs && s.procs[p].PutStored?
    ensures Claim(s.procs[p]).Some? && BlobsOf(s.procs[p].name, s.procs[p].o.parts) == {Claim(s.procs[p]).value}
  {
    ProcOf(s, p);
    hide KvInv, ProcsInv, Named;
    assert s.procs[p].o.parts == [s.procs[p].o.parts[0]];
  }

  // ----- a delete marker

  /** A version without parts under a new sequence is ready to be written. */
  lemma MarkerReady(kv: Kv, blobs: map<Blob, seq<Byte>>, next: nat, name: Name, key: Key, vid: Vid)
    requires Numbered(kv, blobs, next) && (vid == NullId || (vid.SeqId? && vid.seqNo == next))
    ensures var o := DeleteMarker(vid, next);
      NewVersion(kv, name, key, o) && NewParts(kv, blobs, name, o.parts) && BodyOk(blobs, name, o) && BlobsOf(name, o.parts) == {}
  {
  }

  lemma MarkerLands(s: State, p: nat, name: Name, key: Key, vid: Vid)
    requires Inv(s) && LiveName(s.kv, name) && p !in s.procs && (vid == NullId || (vid.SeqId? && vid.seqNo == s.next))
    ensures var o := DeleteMarker(vid, s.next);
      Inv(Become(s.(kv := PutObject(s.kv, name, key, o), next := s.next + 1), p,
                 Cleaning(ObjectBlobs(name, Replaced(s.kv, name, key, o)))))
  {
    hide *;
    var o := DeleteMarker(vid, s.next);
    var doomed := ObjectBlobs(name, Replaced(s.kv, name, key, o));
    var s1 := s.(kv := PutObject(s.kv, name, key, o), next := s.next + 1);
    var s' := Become(s1, p, Cleaning(doomed));
    KvOfInv(s);
    PartsOfInv(s.kv, s.blobs, s.next);
    NumbersGrow(s.kv, s.blobs, s.next, s.next + 1);
    MarkerReady(s.kv, s.blobs, s.next, name, key, vid);
    MarkerSeq(vid, s.next);
    Becomes(s1, p, Cleaning(doomed));
    NothingOwned(NEWCOMER);
    PutKeeps(s.kv, s.blobs, s.next + 1, name, key, o);
    PutEvolves(s, s', NOTHING, name, key, o);
    ReplacedReleased(s.kv, s.blobs, name, key, o);
    TurnsToCleaning(s, s', NOTHING, p, doomed);
  }

  lemma MarkerSeq(vid: Vid, seqNo: nat)
    ensures DeleteMarker(vid, seqNo).seqNo == seqNo
  {
  }

  // ----- a completed upload

  /** The parts a completed version takes over from its upload. */
  ghost predicate Taken(kv: Kv, name: Name, id: nat, list: seq<CompletePart>, parts: seq<Part>) {
    && |parts| == |list|
    && forall i :: 0 <= i < |list| ==> IsTaken(kv, name, id, list[i].number, parts[i])
  }

  ghost predicate IsTaken(kv: Kv, name: Name, id: nat, number: int, part: Part) {
    number >= 0 && PartId(name, id, number) in kv.parts && kv.parts[PartId(name, id, number)] == part
  }

  /** `assemble` takes exactly the stored parts that the client's list names. */
  lemma AssembleTakes(kv: Kv, name: Name, id: nat, u: Upload, r: CompleteRequest, seqNo: nat)
    requires Assemble(u, r, StoredParts(kv, name, id), seqNo).Built?
    ensures var o := Assemble(u, r, StoredParts(kv, name, id), seqNo).o;
      Taken(kv, name, id, r.list, o.parts) && Ascending(r.list) && o.size == TotalSize(o.parts) &&
      o.checksum == CompletedChecksum(u, o.parts) && o.seqNo == seqNo && o.retention == u.retention && o.legalHold == u.legalHold
  {
    var stored := StoredParts(kv, name, id);
    assert CheckEntries(u, stored, r.list, 0).None?;
    CheckedAll(u, stored, r.list, 0);
    hide Ascending, CompletedChecksum, TotalSize, StoredParts;
    forall i | 0 <= i < |r.list|
      ensures IsTaken(kv, name, id, r.list[i].number, stored[r.list[i].number])
    {
      StoredIs(kv, name, id, r.list[i].number);
    }
  }

  lemma StoredIs(kv: Kv, name: Name, id: nat, number: int)
    requires number >= 0 && number in StoredParts(kv, name, id)
    ensures IsTaken(kv, name, id, number, StoredParts(kv, name, id)[number])
  {
  }

  /** The taken parts exist, differ from one another, and are named by no other record. */
  lemma TakenNew(kv: Kv, blobs: map<Blob, seq<Byte>>, name: Name, id: nat, list: seq<CompletePart>, parts: seq<Part>)
    requires Unique(kv) && Data(kv, blobs) && Taken(kv, name, id, list, parts) && Ascending(list)
    ensures NewParts(DeleteUpload(kv, name, id), blobs, name, parts)
    ensures forall b :: b in BlobsOf(name, parts) ==> Named(kv, b)
  {
    hide Unique, Data, Named, DeleteUpload;
    forall i | 0 <= i < |parts|
      ensures var b := Blob(name, parts[i].blob);
        Holds(blobs, b, parts[i]) && Named(kv, b) && !Named(DeleteUpload(kv, name, id), b)
    {
      assert IsTaken(kv, name, id, list[i].number, parts[i]);
      NamedThere(kv, blobs, PartRef(PartId(name, id, list[i].number)));
      UploadReleases(kv, name, id, PartId(name, id, list[i].number));
    }
    forall i, j | 0 <= i < j < |parts|
      ensures parts[i].blob != parts[j].blob
    {
      assert IsTaken(kv, name, id, list[i].number, parts[i]) && IsTaken(kv, name, id, list[j].number, parts[j]);
      Differ(kv, PartId(name, id, list[i].number), PartId(name, id, list[j].number));
    }
  }

  lemma Differ(kv: Kv, p: PartId, q: PartId)
    requires Unique(kv) && p in kv.parts && q in kv.parts && p != q && p.bucket == q.bucket
    ensures kv.parts[p].blob != kv.parts[q].blob
  {
    assert BlobAt(kv, PartRef(p)).Some? && BlobAt(kv, PartRef(q)).Some?;
  }

  /** The combined checksum of the taken parts is the checksum of the body they make. */
  lemma TakenSum(kv: Kv, blobs: map<Blob, seq<Byte>>, name: Name, id: nat, list: seq<CompletePart>, parts: seq<Part>)
    requires Data(kv, blobs) && Content(kv, blobs) && Taken(kv, name, id, list, parts) && UploadId(name, id) in kv.uploads
    ensures var c, u := CompletedChecksum(kv.uploads[UploadId(name, id)], parts), kv.uploads[UploadId(name, id)];
      c.Some? && c.value.FullObject? ==>
        c.value.alg == u.alg.value && Checksum.IsCrc(c.value.alg) && c.value.value == Checksum.Digest(c.value.alg, Body(blobs, name, parts))
  {
    var u := kv.uploads[UploadId(name, id)];
    var c := CompletedChecksum(u, parts);
    if c.Some? && c.value.FullObject? {
      var alg := u.alg.value;
      forall i | 0 <= i < |parts|
        ensures var content := Contents(blobs, name, parts)[i];
          parts[i].checksum == Some(Checksum.Digest(alg, content)) && |content| == parts[i].size
      {
        assert IsTaken(kv, name, id, list[i].number, parts[i]);
        TakenPart(kv, blobs, PartId(name, id, list[i].number));
      }
      hide Data, Content, Taken, UploadOk;
      Checksum.DescribedCrc(alg, Contents(blobs, name, parts), Sums(parts), Sizes(parts));
    }
  }

  lemma TakenPart(kv: Kv, blobs: map<Blob, seq<Byte>>, pid: PartId)
    requires Data(kv, blobs) && Content(kv, blobs) && pid in kv.parts && UploadId(pid.bucket, pid.id) in kv.uploads
    ensures var b, u := Blob(pid.bucket, kv.parts[pid].blob), kv.uploads[UploadId(pid.bucket, pid.id)];
      Holds(blobs, b, kv.parts[pid]) && SumOk(blobs, b, u, kv.parts[pid])
  {
    assert BlobAt(kv, PartRef(pid)).Some?;
    hide BodyOk, UploadOk, SumOk;
  }

  /** Everything the completed upload cleans up was named and is not any more. */
  lemma CompleteReleases(kv: Kv, blobs: map<Blob, seq<Byte>>, name: Name, key: Key, id: nat, o: Object, b: Blob)
    requires var kv1 := DeleteUpload(kv, name, id);
      VersionsValid(kv1) && Unique(kv1) && Unique(kv) && Within(kv1, kv) && NewVersion(kv1, name, key, o) && NewParts(kv1, blobs, name, o.parts)
    requires b in PartBlobs(kv, Unused(kv, name, id, o.parts)) + ObjectBlobs(name, Replaced(DeleteUpload(kv, name, id), name, key, o))
    ensures !Named(PutObject(DeleteUpload(kv, name, id), name, key, o), b) && Named(kv, b)
  {
    var kv1 := DeleteUpload(kv, name, id);
    WithinNames(kv1, kv);
    if b in PartBlobs(kv, Unused(kv, name, id, o.parts)) {
      var p :| p in Unused(kv, name, id, o.parts) && b == Blob(p.bucket, kv.parts[p].blob);
      assert b !in BlobsOf(name, o.parts);
      hide Named, DeleteUpload, PutObject, VersionsValid, Unique, NewVersion, NewParts, Within;
      UploadReleases(kv, name, id, p);
      if Named(PutObject(kv1, name, key, o), b) { PutNamed(kv1, blobs, name, key, o, b); }
    } else {
      hide Named, DeleteUpload, PutObject, VersionsValid, Unique, NewVersion, NewParts, Within;
      ReplacedReleased(kv1, blobs, name, key, o);
    }
  }

  /** The completed version `o` of request `x` is ready to be written once its upload is gone. */
  ghost predicate CompleteReady(s: State, x: Proc, o: Object)
    requires x.Completing?
  {
    var kv1 := DeleteUpload(s.kv, x.name, x.id);
    && KvInv(kv1, s.blobs, s.next + 1) && Within(kv1, s.kv) && NewVersion(kv1, x.name, x.key, o)
    && NewParts(kv1, s.blobs, x.name, o.parts) && BodyOk(s.blobs, x.name, o)
    && (forall b :: b in BlobsOf(x.name, o.parts) ==> Named(s.kv, b))
    && o.seqNo == s.next && LiveName(kv1, x.name)
  }

  lemma IsCompleteReady(s: State, p: nat, o: Object, list: seq<CompletePart>)
    requires Inv(s) && p in s.procs && s.procs[p].Completing? && Incarnation(s.kv, s.procs[p].name, s.procs[p].seen)
    requires UploadId(s.procs[p].name, s.procs[p].id) in s.kv.uploads
    requires Taken(s.kv, s.procs[p].name, s.procs[p].id, list, o.parts) && Ascending(list)
    requires o.size == TotalSize(o.parts) && o.checksum == CompletedChecksum(s.procs[p].u, o.parts) && o.seqNo == s.next
    requires o.vid == NullId || (o.vid.SeqId? && o.vid.seqNo == o.seqNo)
    ensures CompleteReady(s, s.procs[p], o)
  {
    var x := s.procs[p];
    var kv1 := DeleteUpload(s.kv, x.name, x.id);
    ProcOf(s, p);
    assert x.u == s.kv.uploads[UploadId(x.name, x.id)] by { hide Named, KvInv, ProcsInv; }
    KvOfInv(s);
    hide Inv, ProcOk;
    PartsOfInv(s.kv, s.blobs, s.next);
    hide VersionsValid, Unique, Homes, Data, Content, KvInv, Named, Taken, Ascending, NewParts, TotalSize,
      CompletedChecksum, Body, Within, PartsOf, DeleteUpload, BodyOk;
    UploadGone(s.kv, s.blobs, s.next, x.name, x.id);
    NumbersGrow(kv1, s.blobs, s.next, s.next + 1);
    TakenNew(s.kv, s.blobs, x.name, x.id, list, o.parts);
    TakenSum(s.kv, s.blobs, x.name, x.id, list, o.parts);
    FreshVersion(kv1, s.kv, s.blobs, s.next, x.name, x.key, o);
    hide Numbered, NewVersion;
  }

  lemma FreshVersion(kv1: Kv, kv: Kv, blobs: map<Blob, seq<Byte>>, next: nat, name: Name, key: Key, o: Object)
    requires Numbered(kv, blobs, next) && Within(kv1, kv) && o.seqNo == next
    requires o.vid == NullId || (o.vid.SeqId? && o.vid.seqNo == o.seqNo)
    ensures NewVersion(kv1, name, key, o)
  {
  }

  lemma CompleteEvolves(s: State, s': State, x: Proc, o: Object)
    requires x.Completing? && CompleteReady(s, x, o)
    requires s'.kv == PutObject(DeleteUpload(s.kv, x.name, x.id), x.name, x.key, o) && s'.blobs == s.blobs && s'.next == s.next + 1
    ensures Evolves(s, s', NOTHING)
  {
    var kv1 := DeleteUpload(s.kv, x.name, x.id);
    ReadyFacts(s, x, o);
    hide CompleteReady, KvInv, Named, BodyOk, DeleteUpload, PutObject, NewParts, NewVersion, LiveName, BlobsOf;
    PartsOfInv(kv1, s.blobs, s.next + 1);
    hide Unique, Homes, Data, Content, Numbered, VersionsValid, Evolves;
    forall b | Named(s'.kv, b)
      ensures Named(s.kv, b)
    {
      PutNamed(kv1, s.blobs, x.name, x.key, o, b);
      WithinNames(kv1, s.kv);
    }
    PutOverDelete(s.kv, x.name, x.id, x.key, o);
    Recorded(s, s');
  }

  /** The records after a completed upload. */
  lemma PutOverDelete(kv: Kv, name: Name, id: nat, key: Key, o: Object)
    requires VersionsValid(DeleteUpload(kv, name, id)) && NewVersion(DeleteUpload(kv, name, id), name, key, o)
    ensures var kv' := PutObject(DeleteUpload(kv, name, id), name, key, o);
      kv'.buckets == kv.buckets && (forall i :: i in kv'.objects ==> i in kv.objects || i.seqNo == o.seqNo) &&
      forall u :: u in kv'.uploads ==> u in kv.uploads && kv'.uploads[u] == kv.uploads[u]
  {
    PutObjectEffect(DeleteUpload(kv, name, id), name, key, o);
    hide VersionsValid, NewVersion;
  }

  lemma Recorded(s: State, s': State)
    requires s'.kv.buckets == s.kv.buckets && s'.blobs == s.blobs && s.next <= s'.next
    requires forall b :: Named(s'.kv, b) ==> Named(s.kv, b)
    requires forall i :: i in s'.kv.objects ==> i in s.kv.objects || i.seqNo >= s.next
    requires forall u :: u in s'.kv.uploads ==> u in s.kv.uploads && s'.kv.uploads[u] == s.kv.uploads[u]
    ensures Evolves(s, s', NOTHING)
  {
    hide Named;
  }

  lemma ReadyFacts(s: State, x: Proc, o: Object)
    requires x.Completing? && CompleteReady(s, x, o)
    ensures var kv1 := DeleteUpload(s.kv, x.name, x.id);
      KvInv(kv1, s.blobs, s.next + 1) && Within(kv1, s.kv) && NewVersion(kv1, x.name, x.key, o) &&
      NewParts(kv1, s.blobs, x.name, o.parts) && BodyOk(s.blobs, x.name, o) && o.seqNo == s.next && LiveName(kv1, x.name)
    ensures forall b :: b in BlobsOf(x.name, o.parts) ==> Named(s.kv, b)
  {
    hide KvInv, Within, NewVersion, NewParts, BodyOk, Named, LiveName, DeleteUpload;
  }

  lemma KvOfInv(s: State)
    requires Inv(s)
    ensures KvInv(s.kv, s.blobs, s.next)
  {
    hide KvInv, ProcsInv;
  }

  lemma NothingOwned(y: Proc)
    ensures NOTHING.claim.None? && NOTHING.drawn.None? && NOTHING.gone.None? && NOTHING.doomed == {}
  {
  }

  lemma CompleteLands(s: State, p: nat, o: Object)
    requires Inv(s) && p in s.procs && s.procs[p].Completing? && CompleteReady(s, s.procs[p], o)
    ensures var x := s.procs[p];
      var kv1 := DeleteUpload(s.kv, x.name, x.id);
      Inv(Become(s.(kv := PutObject(kv1, x.name, x.key, o), next := s.next + 1), p,
        Cleaning(PartBlobs(s.kv, Unused(s.kv, x.name, x.id, o.parts)) + ObjectBlobs(x.name, Replaced(kv1, x.name, x.key, o)))))
  {
    hide *;
    var x := s.procs[p];
    var kv1 := DeleteUpload(s.kv, x.name, x.id);
    var doomed := PartBlobs(s.kv, Unused(s.kv, x.name, x.id, o.parts)) + ObjectBlobs(x.name, Replaced(kv1, x.name, x.key, o));
    var s1 := s.(kv := PutObject(kv1, x.name, x.key, o), next := s.next + 1);
    var s' := Become(s1, p, Cleaning(doomed));
    Becomes(s1, p, Cleaning(doomed));
    ReadyFacts(s, x, o);
    KvOfInv(s);
    PartsOfInv(s.kv, s.blobs, s.next);
    PartsOfInv(kv1, s.blobs, s.next + 1);
    CompleteEvolves(s, s', x, o);
    PutKeeps(kv1, s.blobs, s.next + 1, x.name, x.key, o);
    forall b | b in doomed
      ensures !Named(s'.kv, b) && Named(s.kv, b)
    {
      CompleteReleases(s.kv, s.blobs, x.name, x.key, x.id, o, b);
    }
    NothingOwned(x);
    TurnsToCleaning(s, s', NOTHING, p, doomed);
  }

  /** What a completed upload commits. */
  lemma WhenComplete(kv: Kv, e: Expect, name: Name, key: Key, id: nat, u: Upload, seen: Bucket, r: CompleteRequest, seqNo: nat,
                     random: nat) returns (o: Object)
    requires CommitComplete(kv, e, name, key, id, u, seen, r, seqNo, random).Committed?
    ensures Incarnation(kv, name, seen) && UploadId(name, id) in kv.uploads
    ensures Taken(kv, name, id, r.list, o.parts) && Ascending(r.list)
    ensures o.size == TotalSize(o.parts) && o.checksum == CompletedChecksum(u, o.parts) && o.seqNo == seqNo
    ensures o.vid == NullId || (o.vid.SeqId? && o.vid.seqNo == o.seqNo)
    ensures o.vid == NullId ==> kv.buckets[name].versioning != Versioning.Enabled
    ensures o.retention == u.retention && o.legalHold == u.legalHold
    ensures CommitComplete(kv, e, name, key, id, u, seen, r, seqNo, random) ==
      Committed(PutObject(DeleteUpload(kv, name, id), name, key, o),
                Leftovers(Unused(kv, name, id, o.parts), Replaced(DeleteUpload(kv, name, id), name, key, o)))
  {
    hide PutObject, DeleteUpload, Replaced, CheckWriteConditions, Assemble, StoredParts, Unused, Taken, Ascending, TotalSize,
      CompletedChecksum, BucketExpected;
    var a := Assemble(u, r, StoredParts(kv, name, id), seqNo);
    AssembleTakes(kv, name, id, u, r, seqNo);
    o := a.o.(vid := VersionIdFor(kv.buckets[name], seqNo, random));
  }

  lemma EndsComplete(s: State, p: nat, random: nat)
    requires Inv(s) && p in s.procs && s.procs[p].Completing?
    ensures Inv(DoEndComplete(s, p, random))
  {
    var x := s.procs[p];
    hide Inv, CommitComplete, PutObject, DeleteUpload, Replaced, Unused, PartBlobs, ObjectBlobs, CompleteReady, Taken, Ascending,
      TotalSize, CompletedChecksum, Incarnation;
    if CommitComplete(s.kv, x.e, x.name, x.key, x.id, x.u, x.seen, x.r, s.next, random).Failed? {
      assert DoEndComplete(s, p, random) == Leave(s.(next := s.next + 1), p);
      Quits(s, Leave(s.(next := s.next + 1), p));
    } else {
      EndsCompleteWell(s, p, random);
    }
  }

  lemma CompleteIs(s: State, p: nat, random: nat, o: Object)
    requires p in s.procs && s.procs[p].Completing?
    requires var x := s.procs[p];
      CommitComplete(s.kv, x.e, x.name, x.key, x.id, x.u, x.seen, x.r, s.next, random) ==
      Committed(PutObject(DeleteUpload(s.kv, x.name, x.id), x.name, x.key, o),
                Leftovers(Unused(s.kv, x.name, x.id, o.parts), Replaced(DeleteUpload(s.kv, x.name, x.id), x.name, x.key, o)))
    ensures var x := s.procs[p];
      var kv1 := DeleteUpload(s.kv, x.name, x.id);
      DoEndComplete(s, p, random) == Become(s.(kv := PutObject(kv1, x.name, x.key, o), next := s.next + 1), p,
        Cleaning(PartBlobs(s.kv, Unused(s.kv, x.name, x.id, o.parts)) + ObjectBlobs(x.name, Replaced(kv1, x.name, x.key, o))))
  {
    hide CommitComplete, PutObject, DeleteUpload, Replaced, PartBlobs, ObjectBlobs;
  }

  lemma EndsCompleteWell(s: State, p: nat, random: nat)
    requires Inv(s) && p in s.procs && s.procs[p].Completing?
    requires var x := s.procs[p];
      CommitComplete(s.kv, x.e, x.name, x.key, x.id, x.u, x.seen, x.r, s.next, random).Committed?
    ensures Inv(DoEndComplete(s, p, random))
  {
    var x := s.procs[p];
    hide *;
    var o := WhenComplete(s.kv, x.e, x.name, x.key, x.id, x.u, x.seen, x.r, s.next, random);
    IsCompleteReady(s, p, o, x.r.list);
    CompleteLands(s, p, o);
    CompleteIs(s, p, random, o);
  }
}
