/** Steps that leave the records alone and change the requests or the blobs. */
module SafetyBlobs {
  import opened Records
  import opened Service
  import opened Protocol
  import opened Safety
  import opened SafetyKv

  /** A request that holds nothing the others could touch. */
  predicate Plain(x: Proc) {
    Claim(x).None? && Drawn(x).None? && Removes(x).None? && Doomed(x) == {}
  }

  lemma Still(s: State, s': State)
    requires s'.kv == s.kv && s'.blobs == s.blobs && s.next <= s'.next
    ensures Evolves(s, s', NOTHING)
  {
    hide Named;
  }

  /** A request starts or moves on without touching anything. */
  lemma Joins(s: State, p: nat, x: Proc)
    requires Inv(s) && Plain(x) && ProcOk(s.kv, s.blobs, s.next, x)
    ensures Inv(Become(s, p, x))
  {
    Still(s, Become(s, p, x));
    PlainPasses(s.kv, s.next, Before(s, p), x);
    hide ProcOk, Evolves, KvInv, ProcsInv, Passes, Plain;
    Moves(s, Become(s, p, x), NOTHING, p, x);
  }

  lemma PlainPasses(kv: Kv, next: nat, y: Proc, x: Proc)
    requires Plain(x)
    ensures Passes(kv, next, y, NOTHING, x)
  {
  }

  /** Requests end, or the server stops or starts, or time passes, or an identifier is drawn
      and not used. */
  lemma Quits(s: State, s': State)
    requires Inv(s) && s'.kv == s.kv && s'.blobs == s.blobs && s.next <= s'.next
    requires forall p :: p in s'.procs ==> p in s.procs && s'.procs[p] == s.procs[p]
    ensures Inv(s')
  {
    Still(s, s');
    NumbersGrow(s.kv, s.blobs, s.next, s'.next);
    hide ProcsInv, KvInv, Evolves;
    MovesOut(s, s');
  }

  // ----- the blobs under the records

  /** The named blobs are untouched. */
  ghost predicate Underlies(kv: Kv, blobs: map<Blob, seq<Byte>>, blobs': map<Blob, seq<Byte>>) {
    forall b :: Named(kv, b) && b in blobs ==> b in blobs' && blobs'[b] == blobs[b]
  }

  lemma NamedThere(kv: Kv, blobs: map<Blob, seq<Byte>>, r: Ref)
    requires Data(kv, blobs) && BlobAt(kv, r).Some?
    ensures Named(kv, BlobAt(kv, r).value) && Holds(blobs, BlobAt(kv, r).value, PartAt(kv, r).value)
  {
  }

  /** A version's body does not change. */
  lemma BodyStays(kv: Kv, blobs: map<Blob, seq<Byte>>, blobs': map<Blob, seq<Byte>>, id: ObjectId)
    requires Data(kv, blobs) && Underlies(kv, blobs, blobs') && id in kv.objects
    ensures Contents(blobs', id.bucket, kv.objects[id].parts) == Contents(blobs, id.bucket, kv.objects[id].parts)
  {
    var parts := kv.objects[id].parts;
    hide Data, Underlies, Named;
    forall i | 0 <= i < |parts|
      ensures Blob(id.bucket, parts[i].blob) in blobs && Blob(id.bucket, parts[i].blob) in blobs' &&
        blobs'[Blob(id.bucket, parts[i].blob)] == blobs[Blob(id.bucket, parts[i].blob)]
    {
      RefStays(kv, blobs, blobs', ObjRef(id, i));
    }
  }

  lemma RefStays(kv: Kv, blobs: map<Blob, seq<Byte>>, blobs': map<Blob, seq<Byte>>, r: Ref)
    requires Data(kv, blobs) && Underlies(kv, blobs, blobs') && BlobAt(kv, r).Some?
    ensures var b := BlobAt(kv, r).value; b in blobs && b in blobs' && blobs'[b] == blobs[b]
    ensures Holds(blobs', BlobAt(kv, r).value, PartAt(kv, r).value)
  {
    NamedThere(kv, blobs, r);
  }

  lemma ContentStays(kv: Kv, blobs: map<Blob, seq<Byte>>, blobs': map<Blob, seq<Byte>>)
    requires Data(kv, blobs) && Content(kv, blobs) && Underlies(kv, blobs, blobs')
    ensures Content(kv, blobs')
  {
    hide Data, Underlies, UploadOk;
    forall id | id in kv.objects
      ensures BodyOk(blobs', id.bucket, kv.objects[id])
    {
      BodyStays(kv, blobs, blobs', id);
    }
    forall p | p in kv.parts && UploadId(p.bucket, p.id) in kv.uploads
      ensures SumOk(blobs', Blob(p.bucket, kv.parts[p].blob), kv.uploads[UploadId(p.bucket, p.id)], kv.parts[p])
    {
      RefStays(kv, blobs, blobs', PartRef(p));
    }
  }

  lemma BlobsKeep(kv: Kv, blobs: map<Blob, seq<Byte>>, blobs': map<Blob, seq<Byte>>, next: nat, next': nat)
    requires KvInv(kv, blobs, next) && next <= next' && Underlies(kv, blobs, blobs')
    requires forall b :: b in blobs' ==> b.id < next'
    ensures KvInv(kv, blobs', next')
  {
    ContentStays(kv, blobs, blobs');
    hide Content, Unique, VersionsValid, Homes, Underlies;
    forall r | BlobAt(kv, r).Some?
      ensures Holds(blobs', BlobAt(kv, r).value, PartAt(kv, r).value)
    {
      RefStays(kv, blobs, blobs', r);
    }
  }

  /** A named blob exists, and lies in a live bucket. */
  lemma NamedLives(s: State, b: Blob)
    requires Inv(s) && Named(s.kv, b)
    ensures b in s.blobs && b.id < s.next && LiveName(s.kv, b.bucket)
  {
    var r :| BlobAt(s.kv, r) == Some(b);
    NamedThere(s.kv, s.blobs, r);
    if r.PartRef? { UploadHome(s.kv, UploadId(r.pid.bucket, r.pid.id)); }
  }

  // ----- writing a blob

  /** A blob under a new identifier is new to every record. */
  lemma FreshBlob(s: State, b: Blob, content: seq<Byte>, next: nat)
    requires Inv(s) && b.id >= s.next && next > b.id
    ensures !Named(s.kv, b) && KvInv(s.kv, s.blobs[b := content], next)
    ensures b !in s.blobs
  {
    if Named(s.kv, b) { NamedLives(s, b); }
    BlobsKeep(s.kv, s.blobs, s.blobs[b := content], s.next, next);
  }

  /** The request `p` writes a blob and claims it. */
  lemma Stores(s: State, p: nat, b: Blob, content: seq<Byte>, next: nat, x: Proc)
    requires Inv(s) && p in s.procs && b.id >= s.next && next > b.id
    requires Claim(x) == Some(b) && Removes(x).None? && Doomed(x) == {}
    requires Drawn(x).Some? ==> Drawn(x).value >= s.next
    requires ProcOk(s.kv, s.blobs[b := content], next, x)
    ensures Inv(Become(s.(blobs := s.blobs[b := content], next := next), p, x))
  {
    FreshBlob(s, b, content, next);
    var s' := Become(s.(blobs := s.blobs[b := content], next := next), p, x);
    Added(s, s');
    assert Passes(s.kv, s.next, Before(s, p), NOTHING, x) by { hide ProcsInv, KvInv, Evolves, ProcOk; }
    hide KvInv, ProcsInv, Evolves, ProcOk, Passes, Before, Claim, Drawn;
    Moves(s, s', NOTHING, p, x);
  }

  lemma Added(s: State, s': State)
    requires s'.kv == s.kv && s.next <= s'.next && forall b :: b in s.blobs ==> b in s'.blobs && s'.blobs[b] == s.blobs[b]
    ensures Evolves(s, s', NOTHING)
  {
    hide Named;
  }

  // ----- removing blobs

  /** The blobs that a request deletes, or that a bucket loses with its directory, go. */
  lemma Removed(s: State, s': State, own: Own)
    requires s'.kv == s.kv && s'.next == s.next
    requires own.claim.None? && own.drawn.None?
    requires forall b :: b in s.blobs && b !in own.doomed && Some(b.bucket) != own.gone ==> b in s'.blobs && s'.blobs[b] == s.blobs[b]
    requires own.gone.Some? ==> own.gone.value in s.kv.buckets && s.kv.buckets[own.gone.value].deleting
    ensures Evolves(s, s', own)
  {
    hide Named;
  }

  /** What the request `p` holds, while the invariant holds. */
  lemma ProcOf(s: State, p: nat)
    requires Inv(s) && p in s.procs
    ensures ProcOk(s.kv, s.blobs, s.next, s.procs[p])
  {
    hide KvInv, ProcOk, Apart;
  }

  /** The request `p` deletes a blob that no record names. */
  lemma Cleans(s: State, p: nat, b: Blob)
    requires Inv(s) && p in s.procs && s.procs[p].Cleaning? && b in s.procs[p].blobs
    ensures Inv(Become(s.(blobs := s.blobs - {b}), p, Cleaning(s.procs[p].blobs - {b})))
  {
    var x := Cleaning(s.procs[p].blobs - {b});
    var s', own := Become(s.(blobs := s.blobs - {b}), p, x), Own(None, None, {b}, None);
    ProcOf(s, p);
    hide ProcsInv;
    BlobsKeep(s.kv, s.blobs, s.blobs - {b}, s.next, s.next);
    hide KvInv, Named;
    Removed(s, s', own);
    hide Evolves;
    Moves(s, s', own, p, x);
  }

  /** The directory of a bucket being deleted holds no named blob. */
  lemma RemovesDir(s: State, p: nat)
    requires Inv(s) && p in s.procs && s.procs[p].Finishing?
    ensures Inv(Become(s.(blobs := map b | b in s.blobs && b.bucket != s.procs[p].name :: s.blobs[b]), p,
                       FinishingRecord(s.procs[p].name)))
  {
    var name := s.procs[p].name;
    var blobs' := map b | b in s.blobs && b.bucket != name :: s.blobs[b];
    var s', own := Become(s.(blobs := blobs'), p, FinishingRecord(name)), Own(None, None, {}, Some(name));
    ProcOf(s, p);
    OutOfDir(s, name, blobs');
    hide ProcsInv, KvInv, Named;
    Removed(s, s', own);
    hide Evolves;
    Moves(s, s', own, p, FinishingRecord(name));
  }

  lemma OutOfDir(s: State, name: Name, blobs': map<Blob, seq<Byte>>)
    requires Inv(s) && name in s.kv.buckets && s.kv.buckets[name].deleting
    requires blobs' == map b | b in s.blobs && b.bucket != name :: s.blobs[b]
    ensures KvInv(s.kv, blobs', s.next)
  {
    hide ProcsInv;
    forall b | Named(s.kv, b)
      ensures b.bucket != name
    {
      NamedLives(s, b);
    }
    BlobsKeep(s.kv, s.blobs, blobs', s.next, s.next);
  }
}
