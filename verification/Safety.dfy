/** No record ever loses its data: the invariant of the object-store state machine. */
module Safety {
  import opened Records
  import opened Service
  import opened Protocol
  import Checksum

  // ----- which record names which blob

  /** A place in the store that names a blob. */
  datatype Ref = ObjRef(id: ObjectId, n: nat) | PartRef(pid: PartId)

  ghost function PartAt(kv: Kv, r: Ref): Option<Part> {
    match r
    case ObjRef(id, n) =>
      if id in kv.objects && n < |kv.objects[id].parts| then Some(kv.objects[id].parts[n]) else None
    case PartRef(pid) => if pid in kv.parts then Some(kv.parts[pid]) else None
  }

  function Home(r: Ref): Name {
    match r
    case ObjRef(id, _) => id.bucket
    case PartRef(pid) => pid.bucket
  }

  ghost function BlobAt(kv: Kv, r: Ref): Option<Blob> {
    var p := PartAt(kv, r);
    if p.Some? then Some(Blob(Home(r), p.value.blob)) else None
  }

  ghost predicate Named(kv: Kv, b: Blob) {
    exists r :: BlobAt(kv, r) == Some(b)
  }

  // ----- the invariant of the store

  /** Every blob is named by at most one place. */
  ghost predicate Unique(kv: Kv) {
    forall r1, r2 :: BlobAt(kv, r1).Some? && BlobAt(kv, r1) == BlobAt(kv, r2) ==> r1 == r2
  }

  predicate LiveName(kv: Kv, n: Name) {
    n in kv.buckets && !kv.buckets[n].deleting
  }

  /** Records lie in live buckets, and parts belong to uploads. */
  ghost predicate Homes(kv: Kv) {
    && (forall id :: id in kv.objects ==> LiveName(kv, id.bucket))
    && (forall u :: u in kv.uploads ==> LiveName(kv, u.bucket))
    && (forall p :: p in kv.parts ==> UploadId(p.bucket, p.id) in kv.uploads)
  }

  ghost predicate Numbered(kv: Kv, blobs: map<Blob, seq<Byte>>, next: nat) {
    && (forall n :: n in kv.buckets ==> kv.buckets[n].created < next)
    && (forall id :: id in kv.objects ==> id.seqNo < next)
    && (forall u :: u in kv.uploads ==> u.id < next)
    && (forall b :: b in blobs ==> b.id < next)
  }

  /** Every named blob exists and has the recorded length. */
  ghost predicate Data(kv: Kv, blobs: map<Blob, seq<Byte>>) {
    forall r :: BlobAt(kv, r).Some? ==> Holds(blobs, BlobAt(kv, r).value, PartAt(kv, r).value)
  }

  predicate Holds(blobs: map<Blob, seq<Byte>>, b: Blob, p: Part) {
    b in blobs && |blobs[b]| == p.size
  }

  /** The bytes of each part. */
  function Contents(blobs: map<Blob, seq<Byte>>, name: Name, parts: seq<Part>): (c: seq<seq<Byte>>)
    ensures |c| == |parts|
  {
    seq(|parts|, i requires 0 <= i < |parts| =>
      if Blob(name, parts[i].blob) in blobs then blobs[Blob(name, parts[i].blob)] else [])
  }

  /** The body a reader of the version sees: its parts one after the other. */
  function Body(blobs: map<Blob, seq<Byte>>, name: Name, parts: seq<Part>): seq<Byte> {
    Checksum.Concat(Contents(blobs, name, parts))
  }

  /** A version records the size of its body, and a full-object checksum is the checksum of
      that body. */
  predicate BodyOk(blobs: map<Blob, seq<Byte>>, name: Name, o: Object) {
    && o.size == TotalSize(o.parts)
    && (o.checksum.Some? && o.checksum.value.FullObject? ==>
          o.checksum.value.value == DigestOf(o.checksum.value.alg, Body(blobs, name, o.parts)))
  }

  predicate SumOk(blobs: map<Blob, seq<Byte>>, b: Blob, u: Upload, p: Part) {
    u.alg.Some? ==> b in blobs && p.checksum == Some(DigestOf(u.alg.value, blobs[b]))
  }

  predicate UploadOk(u: Upload) {
    u.alg.Some? && u.full ==> Checksum.IsCrc(u.alg.value)
  }

  ghost predicate Content(kv: Kv, blobs: map<Blob, seq<Byte>>) {
    && (forall id :: id in kv.objects ==> BodyOk(blobs, id.bucket, kv.objects[id]))
    && (forall u :: u in kv.uploads ==> UploadOk(kv.uploads[u]))
    && (forall p :: p in kv.parts && UploadId(p.bucket, p.id) in kv.uploads ==>
          kv.parts[p].number == p.number && SumOk(blobs, Blob(p.bucket, kv.parts[p].blob), kv.uploads[UploadId(p.bucket, p.id)], kv.parts[p]))
  }

  ghost predicate KvInv(kv: Kv, blobs: map<Blob, seq<Byte>>, next: nat) {
    VersionsValid(kv) && Unique(kv) && Homes(kv) && Numbered(kv, blobs, next) && Data(kv, blobs) && Content(kv, blobs)
  }

  // ----- the invariant of the requests

  /** The blob a request has written and not yet recorded. */
  function Claim(x: Proc): Option<Blob> {
    match x
    case PutStored(_, name, _, _, o, _) => if |o.parts| == 1 then Some(Blob(name, o.parts[0].blob)) else None
    case PartStored(name, _, _, _, part) => Some(Blob(name, part.blob))
    case _ => None
  }

  /** The sequence a request has drawn and not yet recorded. */
  function Drawn(x: Proc): Option<nat> {
    if x.PutStored? then Some(x.o.seqNo) else None
  }

  function Doomed(x: Proc): set<Blob> {
    if x.Cleaning? then x.blobs else {}
  }

  function Removes(x: Proc): Option<Name> {
    match x
    case Finishing(n) => Some(n)
    case FinishingRecord(n) => Some(n)
    case _ => None
  }

  predicate Incarnation(kv: Kv, name: Name, seen: Bucket) {
    name in kv.buckets && SameBucket(kv.buckets[name], seen)
  }

  predicate SameUpload(kv: Kv, name: Name, id: nat, u: Upload) {
    UploadId(name, id) in kv.uploads ==> kv.uploads[UploadId(name, id)] == u
  }

  /** An in-flight blob is not named by a record yet, and it survives while the bucket
      incarnation (or the upload) it was written for is still live. */
  ghost predicate ProcOk(kv: Kv, blobs: map<Blob, seq<Byte>>, next: nat, x: Proc) {
    && (Claim(x).Some? ==> Claim(x).value.id < next && !Named(kv, Claim(x).value))
    && (Drawn(x).Some? ==> Drawn(x).value < next && forall id :: id in kv.objects ==> id.seqNo != Drawn(x).value)
    && (forall b :: b in Doomed(x) ==> b.id < next && !Named(kv, b))
    && (Removes(x).Some? ==> Removes(x).value in kv.buckets && kv.buckets[Removes(x).value].deleting)
    && match x
       case Putting(_, _, _, seen, _, _, _, _, _) => seen.created < next
       case PutStored(_, name, _, seen, o, _) =>
         seen.created < next && |o.parts| == 1 && o.size == o.parts[0].size &&
         (Incarnation(kv, name, seen) ==> Holds(blobs, Blob(name, o.parts[0].blob), o.parts[0]) && BodyOk(blobs, name, o))
       case StartingUpload(_, _, seen, u) => seen.created < next && UploadOk(u)
       case PartWriting(name, _, id, u, _) => id < next && SameUpload(kv, name, id, u)
       case PartStored(name, _, id, u, part) =>
         id < next && SameUpload(kv, name, id, u) &&
         (UploadId(name, id) in kv.uploads ==> Holds(blobs, Blob(name, part.blob), part) && SumOk(blobs, Blob(name, part.blob), u, part))
       case Completing(_, name, _, id, u, seen, _) => seen.created < next && id < next && SameUpload(kv, name, id, u)
       case Retaining(_, _, _, seen, _, _, _) => seen.created < next
       case Holding(_, _, _, seen, _, _) => seen.created < next
       case _ => true
  }

  /** Two requests do not share a blob, a sequence or a bucket removal. */
  predicate Apart(x: Proc, y: Proc) {
    && (Claim(x).Some? ==> Claim(x) != Claim(y) && Claim(x).value !in Doomed(y))
    && (Drawn(x).Some? ==> Drawn(x) != Drawn(y))
    && (Removes(x).Some? ==> Removes(x) != Removes(y))
  }

  ghost predicate ProcsInv(s: State) {
    && (forall p :: p in s.procs ==> ProcOk(s.kv, s.blobs, s.next, s.procs[p]))
    && (forall p, q :: p in s.procs && q in s.procs && p != q ==> Apart(s.procs[p], s.procs[q]))
  }

  ghost predicate Inv(s: State) {
    KvInv(s.kv, s.blobs, s.next) && ProcsInv(s)
  }

  // ----- what may change around a request

  /** Everything one step may change in the world of the other requests: it records the blob
      `claim` and the sequence `drawn`, deletes the blobs `doomed`, and removes the directory
      or the record of the bucket `gone`. */
  datatype Own = Own(claim: Option<Blob>, drawn: Option<nat>, doomed: set<Blob>, gone: Option<Name>)

  ghost predicate Evolves(s: State, s': State, own: Own) {
    && s.next <= s'.next
    && (forall b :: Named(s'.kv, b) ==> Named(s.kv, b) || Some(b) == own.claim)
    && (forall id :: id in s'.kv.objects ==> id in s.kv.objects || Some(id.seqNo) == own.drawn || id.seqNo >= s.next)
    && (forall n :: n in s'.kv.buckets ==> Continues(s.kv, s'.kv, s.next, n))
    && (forall n :: n in s.kv.buckets && s.kv.buckets[n].deleting && Some(n) != own.gone ==>
          n in s'.kv.buckets && s'.kv.buckets[n].deleting)
    && (forall u :: u in s'.kv.uploads && u.id < s.next ==> u in s.kv.uploads && s'.kv.uploads[u] == s.kv.uploads[u])
    && (forall b :: b in s.blobs && b !in own.doomed && Some(b.bucket) != own.gone ==>
          b in s'.blobs && s'.blobs[b] == s.blobs[b])
    && (own.gone.Some? ==> own.gone.value in s.kv.buckets && s.kv.buckets[own.gone.value].deleting)
  }

  /** A bucket is the one it was, or a new one. */
  predicate Continues(kv: Kv, kv': Kv, next: nat, n: Name)
    requires n in kv'.buckets
  {
    || kv'.buckets[n].created >= next
    || (n in kv.buckets && kv'.buckets[n].created == kv.buckets[n].created && (kv.buckets[n].deleting ==> kv'.buckets[n].deleting))
  }

  /** A request that does not share what a step changes is undisturbed by it. */
  lemma Undisturbed(s: State, s': State, own: Own, x: Proc)
    requires Homes(s.kv) && Evolves(s, s', own) && ProcOk(s.kv, s.blobs, s.next, x)
    requires Claim(x).Some? ==> Claim(x) != own.claim && Claim(x).value !in own.doomed
    requires Drawn(x).Some? ==> Drawn(x) != own.drawn
    requires Removes(x).Some? ==> Removes(x) != own.gone
    requires own.claim.Some? ==> own.claim.value !in Doomed(x)
    ensures ProcOk(s'.kv, s'.blobs, s'.next, x)
  {
    match x
    case PutStored(_, name, _, seen, o, _) =>
      hide Named, Homes, SameUpload, SumOk;
      if Incarnation(s'.kv, name, seen) {
        assert Continues(s.kv, s'.kv, s.next, name);
        assert Incarnation(s.kv, name, seen);
      }
    case PartStored(name, _, id, u, part) =>
      hide Named, Homes, Continues, Incarnation;
      if UploadId(name, id) in s'.kv.uploads {
        UploadHome(s.kv, UploadId(name, id));
      }
    case _ =>
      hide Named, Homes, Continues, Incarnation;
  }

  lemma UploadHome(kv: Kv, u: UploadId)
    requires Homes(kv) && u in kv.uploads
    ensures LiveName(kv, u.bucket)
  {
  }

  predicate Spares(own: Own, x: Proc) {
    && (Claim(x).Some? ==> Claim(x) != own.claim && Claim(x).value !in own.doomed)
    && (Drawn(x).Some? ==> Drawn(x) != own.drawn)
    && (Removes(x).Some? ==> Removes(x) != own.gone)
    && (own.claim.Some? ==> own.claim.value !in Doomed(x))
  }

  const NOTHING := Own(None, None, {}, None)

  /** What a request holds before its first step. */
  const NEWCOMER := Cleaning({})

  function Before(s: State, p: nat): Proc {
    if p in s.procs then s.procs[p] else NEWCOMER
  }

  /** The request `y` uses up only what is its own, and becomes `x`, which holds only what `y`
      held, what is new, and blobs that were named. */
  ghost predicate Passes(kv: Kv, next: nat, y: Proc, own: Own, x: Proc) {
    && (own.claim.Some? ==> own.claim == Claim(y))
    && (own.drawn.Some? ==> own.drawn == Drawn(y))
    && (own.gone.Some? ==> own.gone == Removes(y))
    && own.doomed <= Doomed(y)
    && (Claim(x).Some? ==> Claim(x).value.id >= next)
    && (Drawn(x).Some? ==> Drawn(x).value >= next)
    && (Removes(x).Some? ==> Removes(x) == Removes(y) || !(Removes(x).value in kv.buckets && kv.buckets[Removes(x).value].deleting))
    && (forall b :: b in Doomed(x) ==> Named(kv, b) || b in Doomed(y) || Claim(y) == Some(b))
  }

  lemma Neighbours(kv: Kv, blobs: map<Blob, seq<Byte>>, next: nat, y: Proc, own: Own, x: Proc, q: Proc)
    requires Passes(kv, next, y, own, x) && ProcOk(kv, blobs, next, q) && Apart(q, y) && Apart(y, q)
    ensures Spares(own, q) && Apart(x, q) && Apart(q, x)
  {
    HeldBy(kv, blobs, next, q);
    hide ProcOk;
    OwnSpares(kv, next, y, own, x, q);
    NewApart(kv, next, y, own, x, q);
    hide Named, Passes, Apart, Spares, Claim, Drawn, Removes, Doomed;
  }

  lemma OwnSpares(kv: Kv, next: nat, y: Proc, own: Own, x: Proc, q: Proc)
    requires Passes(kv, next, y, own, x) && Apart(q, y) && Apart(y, q)
    ensures Spares(own, q)
  {
    hide Named, Claim, Drawn, Removes, Doomed;
  }

  lemma NewApart(kv: Kv, next: nat, y: Proc, own: Own, x: Proc, q: Proc)
    requires Passes(kv, next, y, own, x) && Apart(q, y) && Apart(y, q)
    requires Claim(q).Some? ==> Claim(q).value.id < next && !Named(kv, Claim(q).value)
    requires Drawn(q).Some? ==> Drawn(q).value < next
    requires forall b :: b in Doomed(q) ==> b.id < next
    requires Removes(q).Some? ==> Removes(q).value in kv.buckets && kv.buckets[Removes(q).value].deleting
    ensures Apart(x, q) && Apart(q, x)
  {
    hide Named, Claim, Drawn, Removes, Doomed;
  }

  /** What a request holds, in terms that do not depend on the kind of request. */
  lemma HeldBy(kv: Kv, blobs: map<Blob, seq<Byte>>, next: nat, q: Proc)
    requires ProcOk(kv, blobs, next, q)
    ensures Claim(q).Some? ==> Claim(q).value.id < next && !Named(kv, Claim(q).value)
    ensures Drawn(q).Some? ==> Drawn(q).value < next
    ensures forall b :: b in Doomed(q) ==> b.id < next && !Named(kv, b)
    ensures Removes(q).Some? ==> Removes(q).value in kv.buckets && kv.buckets[Removes(q).value].deleting
  {
    hide Named;
  }

  lemma AtPeace(s: State, p: nat, q: nat)
    requires ProcsInv(s) && q in s.procs && q != p
    ensures ProcOk(s.kv, s.blobs, s.next, s.procs[q]) && Apart(s.procs[q], Before(s, p)) && Apart(Before(s, p), s.procs[q])
  {
    hide ProcOk;
  }

  lemma HomesOfInv(kv: Kv, blobs: map<Blob, seq<Byte>>, next: nat)
    requires KvInv(kv, blobs, next)
    ensures Homes(kv)
  {
  }

  /** A step of request `p` that keeps the store's invariant and respects what the others
      hold keeps the whole invariant. */
  lemma Moves(s: State, s': State, own: Own, p: nat, x: Proc)
    requires Inv(s) && KvInv(s'.kv, s'.blobs, s'.next) && Evolves(s, s', own)
    requires s'.procs == s.procs[p := x]
    requires Passes(s.kv, s.next, Before(s, p), own, x) && ProcOk(s'.kv, s'.blobs, s'.next, x)
    ensures Inv(s')
  {
    HomesOfInv(s.kv, s.blobs, s.next);
    hide ProcOk, Evolves, KvInv, Apart, Passes, Spares, Before, Homes;
    forall q | q in s.procs && q != p
      ensures ProcOk(s'.kv, s'.blobs, s'.next, s.procs[q]) && Apart(x, s.procs[q]) && Apart(s.procs[q], x)
    {
      AtPeace(s, p, q);
      Neighbours(s.kv, s.blobs, s.next, Before(s, p), own, x, s.procs[q]);
      SparedUndisturbed(s, s', own, s.procs[q]);
    }
    Others(s, p);
  }

  lemma SparedUndisturbed(s: State, s': State, own: Own, x: Proc)
    requires Homes(s.kv) && Evolves(s, s', own) && ProcOk(s.kv, s.blobs, s.next, x) && Spares(own, x)
    ensures ProcOk(s'.kv, s'.blobs, s'.next, x)
  {
    hide Homes, Evolves, ProcOk;
    Undisturbed(s, s', own, x);
  }

  lemma Others(s: State, p: nat)
    requires Inv(s)
    ensures forall q, r :: q in s.procs && r in s.procs && q != p && r != p && q != r ==> Apart(s.procs[q], s.procs[r])
  {
    hide KvInv, ProcOk, Apart;
  }

  /** A step of no request, or of one that ends. */
  lemma MovesOut(s: State, s': State)
    requires Inv(s) && KvInv(s'.kv, s'.blobs, s'.next) && Evolves(s, s', NOTHING)
    requires forall q :: q in s'.procs ==> q in s.procs && s'.procs[q] == s.procs[q]
    ensures Inv(s')
  {
    HomesOfInv(s.kv, s.blobs, s.next);
    hide ProcOk, Evolves, KvInv, Apart, Homes;
    forall q | q in s'.procs
      ensures ProcOk(s'.kv, s'.blobs, s'.next, s.procs[q])
    {
      SparedUndisturbed(s, s', NOTHING, s.procs[q]);
    }
  }
}
