/** What multipart uploads promise, in terms of the records alone (internal/object/multipart.go). */
module PromisesMultipart {
  import opened Records
  import opened Service
  import opened Promises
  import Checksum

  predicate IsOpen(kv: Kv, name: Name, key: Key, id: nat) {
    UploadId(name, id) in kv.uploads && kv.uploads[UploadId(name, id)].key == key
  }

  // ----- starting, filling and aborting an upload

  /** An upload starts exactly in the bucket it was authorised for, and adds only its record. */
  lemma UploadMeans(kv: Kv, e: Expect, name: Name, id: nat, u: Upload)
    ensures var r := CommitUpload(kv, e, name, id, u);
      (r.Committed? <==> Accepts(kv, e, name)) &&
      (r.Committed? ==> r.kv == kv.(uploads := kv.uploads[UploadId(name, id) := u]))
  {
  }

  /** A part is stored exactly when its upload is open; it takes the place of the part with its
      number, which is handed back. */
  lemma PartMeans(kv: Kv, name: Name, key: Key, id: nat, p: Part)
    ensures var r, pid := CommitPart(kv, name, key, id, p), PartId(name, id, p.number);
      (r.Committed? <==> IsOpen(kv, name, key, id)) &&
      (r.Committed? ==>
        r.kv == kv.(parts := kv.parts[pid := p]) && (r.value.Some? <==> pid in kv.parts) &&
        (r.value.Some? ==> r.value.value == kv.parts[pid]))
  {
  }

  /** The upload and exactly its own parts are gone. */
  ghost predicate UploadClosed(kv: Kv, kv': Kv, name: Name, id: nat) {
    && (forall u :: u in kv'.uploads <==> u in kv.uploads && u != UploadId(name, id))
    && (forall u :: u in kv'.uploads ==> kv'.uploads[u] == kv.uploads[u])
    && (forall p :: p in kv'.parts <==> p in kv.parts && !(p.bucket == name && p.id == id))
    && (forall p :: p in kv'.parts ==> kv'.parts[p] == kv.parts[p])
  }

  lemma AbortMeans(kv: Kv, e: Expect, name: Name, key: Key, id: nat)
    ensures var r := CommitAbort(kv, e, name, key, id);
      (r.Committed? <==> Accepts(kv, e, name) && IsOpen(kv, name, key, id)) &&
      (r.Committed? ==>
        UploadClosed(kv, r.kv, name, id) && r.kv.objects == kv.objects && r.kv.nulls == kv.nulls && r.kv.buckets == kv.buckets &&
        forall p :: p in r.value <==> p in kv.parts && p.bucket == name && p.id == id)
  {
  }

  // ----- completing an upload

  /** Entry `i` of the client's list names a stored part with the tag the client gives; every part
      but the last has the minimum size, and a checksum the client gives is the part's. */
  ghost predicate EntryGood(kv: Kv, name: Name, id: nat, u: Upload, list: seq<CompletePart>, i: nat)
    requires i < |list|
  {
    var cp := list[i];
    cp.number >= 1 && PartId(name, id, cp.number) in kv.parts &&
    var p := kv.parts[PartId(name, id, cp.number)];
    ListsTag(cp.etag, p.etag) && !cp.star && (i + 1 < |list| ==> p.size >= 5 * 1024 * 1024) &&
    (u.alg.Some? && cp.checksum.Some? ==> p.checksum == cp.checksum)
  }

  ghost predicate ListGood(kv: Kv, name: Name, id: nat, u: Upload, list: seq<CompletePart>) {
    && (forall i, j :: 0 <= i < j < |list| ==> list[i].number < list[j].number)
    && (forall i :: 0 <= i < |list| ==> EntryGood(kv, name, id, u, list, i))
  }

  /** The stored parts that the list names, in its order. */
  ghost predicate NamesParts(kv: Kv, name: Name, id: nat, list: seq<CompletePart>, parts: seq<Part>) {
    |parts| == |list| && forall i :: 0 <= i < |list| ==>
      list[i].number >= 1 && PartId(name, id, list[i].number) in kv.parts && parts[i] == kv.parts[PartId(name, id, list[i].number)]
  }

  /** The checksum of the upload's kind: of the digests of the parts in turn, or of the whole object. */
  ghost predicate IsSum(u: Upload, parts: seq<Part>, sum: Option<ObjectChecksum>) {
    if u.alg.None? then sum.None?
    else
      sum.Some? && sum.value.alg == u.alg.value && (sum.value.FullObject? <==> u.full) &&
      if u.full then
        Checksum.IsCrc(u.alg.value) && Checksum.Combinable(u.alg.value, Sums(parts), Sizes(parts)) &&
        sum.value.value == Checksum.FullSum(u.alg.value, Sums(parts), Sizes(parts))
      else
        |sum.value.partSums| == |parts| &&
        forall i :: 0 <= i < |parts| ==> sum.value.partSums[i] == if parts[i].checksum.Some? then parts[i].checksum.value else []
  }

  /** What the list makes is within bounds and as the client claims. */
  ghost predicate TotalGood(u: Upload, r: CompleteRequest, parts: seq<Part>) {
    && (r.size.Some? ==> r.size.value == TotalSize(parts)) && TotalSize(parts) <= 5 * 1024 * 1024 * 1024 * 1024
    && (u.alg.Some? && u.full ==> Checksum.IsCrc(u.alg.value) && Checksum.Combinable(u.alg.value, Sums(parts), Sizes(parts)))
    && (u.alg.Some? && r.claimed.Some? ==> r.claimed == CompletedChecksum(u, parts))
  }

  ghost predicate CompleteGranted(kv: Kv, e: Expect, name: Name, key: Key, id: nat, u: Upload, seen: Bucket, r: CompleteRequest) {
    && Accepts(kv, e, name) && kv.buckets[name].created == seen.created && IsOpen(kv, name, key, id)
    && ListGood(kv, name, id, u, r.list) && Satisfied(kv, name, key, r.conditions)
    && exists parts :: NamesParts(kv, name, id, r.list, parts) && TotalGood(u, r, parts)
  }

  /** The object of the listed parts. */
  predicate Assembles(u: Upload, r: CompleteRequest, seqNo: nat, o: Object) {
    o.seqNo == seqNo && !o.deleteMarker && o.etag == r.etag && o.retention == u.retention && o.legalHold == u.legalHold
  }

  /** The version of the listed parts stands, the upload is closed, and what it did not use or
      what it replaced is handed back to be cleaned up. */
  ghost predicate CompleteDone(kv: Kv, kv': Kv, name: Name, key: Key, id: nat, u: Upload, r: CompleteRequest, seqNo: nat, random: nat,
                               left: Leftovers, o: Object)
    requires name in kv.buckets
  {
    && Assembles(u, r, seqNo, o) && NamesParts(kv, name, id, r.list, o.parts) && o.size == TotalSize(o.parts) && IsSum(u, o.parts, o.checksum)
    && Wrote(kv, kv', name, key, o, random) && UploadClosed(kv, kv', name, id) && HandedBack(kv, name, key, left.replaced)
    && (forall p :: p in left.unused <==>
          p in kv.parts && p.bucket == name && p.id == id && forall q :: q in o.parts ==> q.blob != kv.parts[p].blob)
  }

  /** What was claimed is what is stored. */
  predicate Agrees(u: Upload, r: CompleteRequest, o: Object) {
    (r.size.Some? ==> o.size == r.size.value) && (u.alg.Some? && r.claimed.Some? ==> o.checksum == r.claimed)
  }

  /** Some object of the listed parts was stored as claimed. */
  ghost predicate Completed(kv: Kv, kv': Kv, name: Name, key: Key, id: nat, u: Upload, r: CompleteRequest, seqNo: nat, random: nat,
                            left: Leftovers)
  {
    name in kv.buckets && exists o :: CompleteDone(kv, kv', name, key, id, u, r, seqNo, random, left, o) && Agrees(u, r, o)
  }

  /** Completing an upload succeeds exactly when the bucket, the upload, every entry of the list,
      the totals and the conditions are right, and stores the object of the listed parts. */
  lemma CompleteMeans(kv: Kv, e: Expect, name: Name, key: Key, id: nat, u: Upload, seen: Bucket, r: CompleteRequest, seqNo: nat, random: nat)
    requires IsFresh(kv, name, key, seqNo)
    ensures var d := CommitComplete(kv, e, name, key, id, u, seen, r, seqNo, random);
      (d.Committed? <==> CompleteGranted(kv, e, name, key, id, u, seen, r)) &&
      (d.Committed? ==> Completed(kv, d.kv, name, key, id, u, r, seqNo, random, d.value))
  {
    hide IsFresh, Assemble, ListGood, NamesParts, TotalGood, Wrote, UploadClosed, HandedBack, CheckWriteConditions, Satisfied, Replaced,
      PutObject, DeleteUpload, VersionIdFor, Unused, IsSum;
    var a := Assemble(u, r, StoredParts(kv, name, id), seqNo);
    AssembleMeans(kv, name, id, u, r, seqNo);
    ConditionsMean(kv, name, key, r.conditions);
    var d := CommitComplete(kv, e, name, key, id, u, seen, r, seqNo, random);
    if d.Committed? { CompleteStores(kv, name, key, id, u, r, seqNo, random, a.o); }
  }

  lemma CompleteStores(kv: Kv, name: Name, key: Key, id: nat, u: Upload, r: CompleteRequest, seqNo: nat, random: nat, built: Object)
    requires IsFresh(kv, name, key, seqNo) && name in kv.buckets && Assembles(u, r, seqNo, built)
    requires NamesParts(kv, name, id, r.list, built.parts) && built.size == TotalSize(built.parts) && IsSum(u, built.parts, built.checksum)
    ensures var o := built.(vid := VersionIdFor(kv.buckets[name], seqNo, random));
      var without := DeleteUpload(kv, name, id);
      CompleteDone(kv, PutObject(without, name, key, o), name, key, id, u, r, seqNo, random,
                   Leftovers(Unused(kv, name, id, o.parts), Replaced(without, name, key, o)), built)
  {
    var without := DeleteUpload(kv, name, id);
    var o := built.(vid := VersionIdFor(kv.buckets[name], seqNo, random));
    Closing(kv, name, key, id, PutObject(without, name, key, o), built, random, Replaced(without, name, key, o));
    hide IsFresh, Wrote, HandedBack, NamesParts, IsSum;
    WriteMeans(without, name, key, built, random);
    hide PutObject, Replaced, VersionIdFor, DeleteUpload, UploadClosed, WrittenId;
  }

  /** Closing the upload leaves the versions alone, so that a write after it is a write before it. */
  lemma Closing(kv: Kv, name: Name, key: Key, id: nat, kv': Kv, o: Object, random: nat, replaced: Option<Object>)
    requires name in kv.buckets
    ensures var without := DeleteUpload(kv, name, id);
      without.buckets == kv.buckets && (IsFresh(kv, name, key, o.seqNo) ==> IsFresh(without, name, key, o.seqNo)) &&
      (Wrote(without, kv', name, key, o, random) ==> Wrote(kv, kv', name, key, o, random)) &&
      (HandedBack(without, name, key, replaced) ==> HandedBack(kv, name, key, replaced)) &&
      (kv'.uploads == without.uploads && kv'.parts == without.parts ==> UploadClosed(kv, kv', name, id))
  {
    var without := DeleteUpload(kv, name, id);
    assert without.objects == kv.objects && without.nulls == kv.nulls && without.buckets == kv.buckets;
    assert forall i :: GivesWay(without, name, key, i) <==> GivesWay(kv, name, key, i);
    hide GivesWay, WrittenId, GetVersion, GetLatest;
  }

  /** `assemble` builds an object exactly from a good list with good totals. */
  lemma AssembleMeans(kv: Kv, name: Name, id: nat, u: Upload, r: CompleteRequest, seqNo: nat)
    ensures var a := Assemble(u, r, StoredParts(kv, name, id), seqNo);
      (a.Built? <==> ListGood(kv, name, id, u, r.list) && exists parts :: NamesParts(kv, name, id, r.list, parts) && TotalGood(u, r, parts)) &&
      (a.Built? ==>
        Assembles(u, r, seqNo, a.o) && NamesParts(kv, name, id, r.list, a.o.parts) && a.o.size == TotalSize(a.o.parts) &&
        IsSum(u, a.o.parts, a.o.checksum) && Agrees(u, r, a.o))
  {
    var stored := StoredParts(kv, name, id);
    hide StoredParts, TotalSize, Checksum.Combinable, Checksum.FullSum, Sums, Sizes, CompletedChecksum, IsSum, NamesParts, Chosen, CheckEntries,
      GoodOrder, ListGood;
    ListMeans(kv, name, id, u, r.list);
    if GoodOrder(r.list) && CheckEntries(u, stored, r.list, 0).None? {
      CheckedAll(u, stored, r.list, 0);
      var parts := Chosen(stored, r.list, |r.list|);
      ChosenNamed(kv, name, id, u, r.list);
      SumMeans(u, parts);
    }
  }

  /** The stored parts that a good list names are those, and no others. */
  lemma ChosenNamed(kv: Kv, name: Name, id: nat, u: Upload, list: seq<CompletePart>)
    requires ListGood(kv, name, id, u, list)
    requires forall i :: 0 <= i < |list| ==> list[i].number >= 0 && list[i].number in StoredParts(kv, name, id)
    ensures var parts := Chosen(StoredParts(kv, name, id), list, |list|);
      NamesParts(kv, name, id, list, parts) && forall other :: NamesParts(kv, name, id, list, other) ==> other == parts
  {
    StoredMeans(kv, name, id);
    hide StoredParts;
    var parts := Chosen(StoredParts(kv, name, id), list, |list|);
    forall i | 0 <= i < |list|
      ensures list[i].number >= 1 && PartId(name, id, list[i].number) in kv.parts && parts[i] == kv.parts[PartId(name, id, list[i].number)]
    {
      assert EntryGood(kv, name, id, u, list, i);
    }
    forall other | NamesParts(kv, name, id, list, other)
      ensures other == parts
    {
      assert forall i :: 0 <= i < |list| ==> other[i] == parts[i];
    }
  }

  lemma StoredMeans(kv: Kv, name: Name, id: nat)
    ensures forall n: nat :: n in StoredParts(kv, name, id) <==> PartId(name, id, n) in kv.parts
    ensures forall n: nat :: PartId(name, id, n) in kv.parts ==> StoredParts(kv, name, id)[n] == kv.parts[PartId(name, id, n)]
  {
    forall n: nat | PartId(name, id, n) in kv.parts
      ensures n in StoredParts(kv, name, id)
    {
      assert PartId(name, id, n) in PartsOf(kv, name, id);
      assert PartId(name, id, n).number == n;
    }
  }

  lemma ListMeans(kv: Kv, name: Name, id: nat, u: Upload, list: seq<CompletePart>)
    ensures ListGood(kv, name, id, u, list) <==> GoodOrder(list) && CheckEntries(u, StoredParts(kv, name, id), list, 0).None?
  {
    hide StoredParts, CheckEntries, EntryGood;
    if GoodOrder(list) {
      assert forall i :: 0 <= i < |list| ==> list[i].number >= 1;
      EntriesMean(kv, name, id, u, list, 0);
    }
    if list != [] && ListGood(kv, name, id, u, list) { NumberGood(kv, name, id, u, list, 0); }
  }

  lemma NumberGood(kv: Kv, name: Name, id: nat, u: Upload, list: seq<CompletePart>, i: nat)
    requires i < |list| && EntryGood(kv, name, id, u, list, i)
    ensures list[i].number >= 1
  {
  }

  lemma {:induction false} EntriesMean(kv: Kv, name: Name, id: nat, u: Upload, list: seq<CompletePart>, i: nat)
    requires i <= |list| && forall j :: 0 <= j < |list| ==> list[j].number >= 1
    ensures CheckEntries(u, StoredParts(kv, name, id), list, i).None? <==>
      forall j :: i <= j < |list| ==> EntryGood(kv, name, id, u, list, j)
    decreases |list| - i
  {
    hide EntryGood, CheckEntry, StoredParts;
    if i < |list| {
      EntryMeans(kv, name, id, u, list, i);
      EntriesMean(kv, name, id, u, list, i + 1);
    }
  }

  lemma EntryMeans(kv: Kv, name: Name, id: nat, u: Upload, list: seq<CompletePart>, i: nat)
    requires i < |list| && list[i].number >= 1
    ensures CheckEntry(u, StoredParts(kv, name, id), list, i).None? <==> EntryGood(kv, name, id, u, list, i)
  {
    StoredMeans(kv, name, id);
    hide StoredParts;
  }

  lemma SumMeans(u: Upload, parts: seq<Part>)
    ensures u.alg.Some? && CompletedChecksum(u, parts).None? <==>
      u.alg.Some? && u.full && !(Checksum.IsCrc(u.alg.value) && Checksum.Combinable(u.alg.value, Sums(parts), Sizes(parts)))
    ensures u.alg.None? || CompletedChecksum(u, parts).Some? ==> IsSum(u, parts, CompletedChecksum(u, parts))
  {
    hide Checksum.Combinable, Checksum.FullSum;
  }
}
