/** Reading an object: range resolution and the reader that strings the parts together
    (internal/object/get.go). */
module Reader {
  import opened Records
  import opened Protocol
  import Safety
  import Service

  // ----- ranges

  /** The range of a request as the header parser leaves it: a negative `first` asks for the
      last bytes, a negative `last` for everything from `first` on. */
  datatype Range = Range(first: int, last: int)

  datatype Resolved = Served(first: int, last: int) | InvalidRange | InvalidPart

  /** How `GetObject` turns the requested range into first and last byte positions. */
  function Resolve(r: Range, size: nat): Resolved {
    if r.first < 0 then
      var n := if -r.first > size then size else -r.first;
      Served(size - n, size - 1)
    else
      var last := if r.last < 0 || r.last >= size then size - 1 else r.last;
      if r.first >= size || r.first > last then InvalidRange else Served(r.first, last)
  }

  /** A byte-range-spec of section 14.1.2 of RFC 9110: a first and an optional last position,
      or a suffix length. */
  datatype Spec = Positions(first: nat, last: Option<nat>) | Suffix(length: nat)

  predicate WellFormed(s: Spec) {
    match s
    case Positions(first, last) => last.Some? ==> first <= last.value
    case Suffix(n) => n > 0
  }

  /** Byte `k` of a representation of `size` bytes is selected by the spec. */
  predicate Selects(s: Spec, size: nat, k: nat) {
    k < size &&
    match s
    case Positions(first, last) => first <= k && (last.Some? ==> k <= last.value)
    case Suffix(n) => k >= size - n
  }

  function Parsed(s: Spec): Range {
    match s
    case Positions(first, last) => Range(first, if last.Some? then last.value else -1)
    case Suffix(n) => Range(-(n as int), -1)
  }

  /** The served bytes are those the spec selects, and the range is refused when it selects none. */
  ghost predicate Conforms(s: Spec, size: nat) {
    match Resolve(Parsed(s), size)
    case Served(first, last) => (exists k: nat :: Selects(s, size, k)) && forall k: nat :: Selects(s, size, k) <==> first <= k <= last
    case _ => forall k: nat :: !Selects(s, size, k)
  }

  /** Resolution follows the RFC exactly when the object is not empty or the range is not a
      suffix; a suffix of an empty object is served as an empty body. */
  lemma ResolvesAsRfc(s: Spec, size: nat)
    requires WellFormed(s)
    ensures Conforms(s, size) <==> size > 0 || s.Positions?
  {
    match s
    case Positions(first, last) =>
      if Resolve(Parsed(s), size).Served? { assert Selects(s, size, first); }
    case Suffix(n) =>
      if size > 0 { assert Selects(s, size, size - 1); }
  }

  /** How `GetObject` resolves a positive part number. */
  function PartRange(parts: seq<Part>, number: nat): Resolved
    requires number > 0
  {
    if number > |parts| then InvalidPart
    else
      var off := Service.TotalSize(parts[..number - 1]);
      Served(off, off + parts[number - 1].size - 1)
  }

  // ----- the bytes of an object

  /** The bytes of a part; those of a missing blob are of no interest. */
  function PartBytes(blobs: map<Blob, seq<Byte>>, name: Name, p: Part): (b: seq<Byte>) {
    if Blob(name, p.blob) in blobs then blobs[Blob(name, p.blob)] else seq(p.size, _ => 0)
  }

  function AllBytes(blobs: map<Blob, seq<Byte>>, name: Name, parts: seq<Part>): seq<Byte> {
    if parts == [] then [] else AllBytes(blobs, name, parts[..|parts| - 1]) + PartBytes(blobs, name, parts[|parts| - 1])
  }

  /** Every blob that is there has the recorded length. */
  ghost predicate Sized(blobs: map<Blob, seq<Byte>>, name: Name, parts: seq<Part>) {
    forall p :: p in parts && Blob(name, p.blob) in blobs ==> |blobs[Blob(name, p.blob)]| == p.size
  }

  lemma {:induction false} AllBytesAt(blobs: map<Blob, seq<Byte>>, name: Name, parts: seq<Part>, i: nat)
    requires Sized(blobs, name, parts) && i < |parts|
    ensures var before := AllBytes(blobs, name, parts[..i]);
      |before| == Service.TotalSize(parts[..i]) && |PartBytes(blobs, name, parts[i])| == parts[i].size &&
      before + PartBytes(blobs, name, parts[i]) <= AllBytes(blobs, name, parts)
    decreases |parts|
  {
    var init := parts[..|parts| - 1];
    if i < |parts| - 1 {
      AllBytesAt(blobs, name, init, i);
      assert init[..i] == parts[..i];
    } else if i > 0 {
      AllBytesAt(blobs, name, init, i - 1);
      assert init[..i - 1] == parts[..i - 1] && parts[..i][..i - 1] == parts[..i - 1];
    }
  }

  lemma {:induction false} AllBytesLength(blobs: map<Blob, seq<Byte>>, name: Name, parts: seq<Part>)
    requires Sized(blobs, name, parts)
    ensures |AllBytes(blobs, name, parts)| == Service.TotalSize(parts)
    decreases |parts|
  {
    if parts != [] { AllBytesLength(blobs, name, parts[..|parts| - 1]); }
  }

  /** When no blob is missing, these are the bytes of the body. */
  lemma {:induction false} AllBytesIsBody(blobs: map<Blob, seq<Byte>>, name: Name, parts: seq<Part>)
    requires forall i :: 0 <= i < |parts| ==> Safety.Holds(blobs, Blob(name, parts[i].blob), parts[i])
    ensures Sized(blobs, name, parts) && AllBytes(blobs, name, parts) == Safety.Body(blobs, name, parts)
    decreases |parts|
  {
    if parts != [] {
      var init := parts[..|parts| - 1];
      AllBytesIsBody(blobs, name, init);
      assert Safety.Contents(blobs, name, parts)[..|parts| - 1] == Safety.Contents(blobs, name, init);
    }
  }

  ghost predicate Missing(blobs: map<Blob, seq<Byte>>, name: Name, parts: seq<Part>) {
    exists p :: p in parts && Blob(name, p.blob) !in blobs
  }

  /** A stretch of part `i` is a stretch of the object. */
  lemma StretchOfPart(blobs: map<Blob, seq<Byte>>, name: Name, parts: seq<Part>, i: nat, start: nat, length: nat)
    requires Sized(blobs, name, parts) && i < |parts| && start + length <= parts[i].size
    ensures |PartBytes(blobs, name, parts[i])| == parts[i].size
    ensures var offset := Service.TotalSize(parts[..i]) + start;
      offset + length <= |AllBytes(blobs, name, parts)| &&
      AllBytes(blobs, name, parts)[offset..offset + length] == PartBytes(blobs, name, parts[i])[start..start + length]
  {
    AllBytesAt(blobs, name, parts, i);
    Inside(AllBytes(blobs, name, parts), AllBytes(blobs, name, parts[..i]), PartBytes(blobs, name, parts[i]), start, length);
  }

  /** What is served for a part number is exactly that part, and nothing for a number past the last. */
  lemma PartRangeIsPart(blobs: map<Blob, seq<Byte>>, name: Name, parts: seq<Part>, number: nat)
    requires Sized(blobs, name, parts) && number > 0
    ensures match PartRange(parts, number)
      case Served(first, last) =>
        number <= |parts| && 0 <= first <= last + 1 <= |AllBytes(blobs, name, parts)| &&
        AllBytes(blobs, name, parts)[first..last + 1] == PartBytes(blobs, name, parts[number - 1])
      case _ => number > |parts|
  {
    if number <= |parts| { StretchOfPart(blobs, name, parts, number - 1, 0, parts[number - 1].size); }
  }

  lemma Inside(all: seq<Byte>, before: seq<Byte>, content: seq<Byte>, start: nat, length: nat)
    requires before + content <= all && start + length <= |content|
    ensures all[|before| + start..|before| + start + length] == content[start..start + length]
  {
    assert all[..|before| + |content|] == before + content;
  }

  /** After `n` bytes, what is left of a stream is still the next stretch. */
  lemma Advance(all: seq<Byte>, content: seq<Byte>, offset: nat, pos: nat, n: nat)
    requires pos + n <= |content| && offset + (|content| - pos) <= |all|
    requires content[pos..] == all[offset..offset + (|content| - pos)]
    ensures content[pos..pos + n] == all[offset..offset + n]
    ensures content[pos + n..] == all[offset + n..offset + (|content| - pos)]
  {
    assert content[pos..pos + n] == content[pos..][..n];
    assert content[pos + n..] == content[pos..][n..];
  }

  // ----- the reader

  /** An open stretch of a blob. A read may return less than it was asked for, and may report
      the end together with the last bytes or after them. */
  class Stream {
    const content: seq<Byte>
    var pos: nat

    predicate Valid()
      reads this
    {
      pos <= |content|
    }

    constructor (content: seq<Byte>)
      ensures Valid() && pos == 0 && this.content == content
    {
      this.content := content;
      pos := 0;
    }

    method Read(want: nat) returns (data: seq<Byte>, eof: bool)
      requires Valid()
      modifies this
      ensures Valid() && old(pos) <= pos && data == content[old(pos)..pos] && |data| <= want
      ensures eof ==> pos == |content|
      ensures want > 0 ==> eof || data != []
    {
      var left := |content| - pos;
      var n: nat :| n <= want && n <= left && (want > 0 && left > 0 ==> n > 0);
      data := content[pos..pos + n];
      pos := pos + n;
      if pos == |content| {
        eof := *;
        if n == 0 { eof := true; }
      } else {
        eof := false;
      }
    }
  }

  datatype Status = More | EndOfFile | Failure

  class PartsReader {
    const blobs: map<Blob, seq<Byte>>
    const name: Name
    const parts: seq<Part>
    var offset: nat
    var remain: nat
    var cur: Stream?
    var failed: bool

    ghost function All(): seq<Byte> {
      AllBytes(blobs, name, parts)
    }

    /** What is left of the open stream is the next bytes of the object, up to the end of the
        part or of the range. */
    ghost predicate Valid()
      reads this, cur
    {
      && Sized(blobs, name, parts)
      && offset + remain <= |All()|
      && (cur != null ==>
            cur.Valid() && |cur.content| - cur.pos <= remain &&
            cur.content[cur.pos..] == All()[offset..offset + (|cur.content| - cur.pos)])
    }

    /** The reader over `length` bytes from `offset`. */
    constructor (blobs: map<Blob, seq<Byte>>, name: Name, parts: seq<Part>, offset: nat, length: nat)
      requires Sized(blobs, name, parts) && offset + length <= Service.TotalSize(parts)
      ensures Valid() && this.offset == offset && remain == length && cur == null && !failed
      ensures this.blobs == blobs && this.name == name && this.parts == parts
    {
      this.blobs, this.name, this.parts := blobs, name, parts;
      this.offset, remain, cur, failed := offset, length, null, false;
      AllBytesLength(blobs, name, parts);
    }

    /** Open the part at the current offset; fails only when its blob is missing. */
    method OpenNext() returns (ok: bool)
      requires Valid() && cur == null && remain > 0
      modifies this`cur
      ensures ok ==> Valid() && cur != null && fresh(cur) && cur.pos == 0 && cur.content != []
      ensures !ok ==> Valid() && cur == null && Missing(blobs, name, parts)
    {
      var base, i := 0, 0;
      AllBytesLength(blobs, name, parts);
      assert parts[..|parts|] == parts;
      while i < |parts|
        invariant 0 <= i <= |parts|
        invariant base == Service.TotalSize(parts[..i]) && base <= offset
      {
        var part := parts[i];
        if offset < base + part.size {
          var start := offset - base;
          var length := if part.size - start > remain then remain else part.size - start;
          StretchOfPart(blobs, name, parts, i, start, length);
          if Blob(name, part.blob) !in blobs {
            assert part in parts;
            return false;
          }
          cur := new Stream(blobs[Blob(name, part.blob)][start..start + length]);
          assert cur.content[cur.pos..] == cur.content;
          return true;
        }
        base := base + part.size;
        assert parts[..i + 1][..i] == parts[..i];
        i := i + 1;
      }
      assert false;
    }

    /** Take bytes from the open stream, which is closed at its end. */
    method Take(length: nat) returns (data: seq<Byte>, eof: bool)
      requires Valid() && cur != null && remain > 0
      modifies this, cur
      ensures Valid() && failed == old(failed) && (cur == old(cur) || cur == null)
      ensures offset == old(offset) + |data| && remain == old(remain) - |data| && |data| <= length
      ensures data == All()[old(offset)..offset]
      ensures eof <==> cur == null
      ensures length > 0 ==> eof || data != []
      ensures eof && data == [] ==> old(cur.pos) == |old(cur).content|
    {
      hide AllBytes, Sized;
      var want := if length > remain then remain else length;
      ghost var pos, content := cur.pos, cur.content;
      assert content[pos..] == All()[offset..offset + (|content| - pos)];
      data, eof := cur.Read(want);
      Advance(All(), content, offset, pos, |data|);
      offset, remain := offset + |data|, remain - |data|;
      if eof { cur := null; }
    }

    /** One read: the next bytes in order, at most as many as fit the buffer, and at least one
        unless the buffer is empty; the end of the file exactly when nothing is left. */
    method Read(length: nat) returns (data: seq<Byte>, status: Status)
      requires Valid() && !failed
      modifies this, cur
      ensures status != Failure ==> Valid() && !failed
      ensures offset == old(offset) + |data| && remain == old(remain) - |data| && |data| <= length
      ensures data == All()[old(offset)..offset]
      ensures status == EndOfFile <==> old(remain) == 0
      ensures status == More && length > 0 ==> data != []
      ensures status == Failure ==> Missing(blobs, name, parts)
      ensures cur == old(cur) || cur == null || fresh(cur)
    {
      while true
        invariant Valid() && !failed && offset == old(offset) && remain == old(remain)
        invariant cur == old(cur) || cur == null || fresh(cur)
        decreases cur != null && cur.pos == |cur.content|
      {
        if remain == 0 { return [], EndOfFile; }
        if cur == null {
          var ok := OpenNext();
          if !ok {
            failed := true;
            return [], Failure;
          }
        }
        var n, eof := Take(length);
        if eof && n == [] { continue; }
        return n, More;
      }
    }
  }

  /** A caller that reads until the end, with whatever buffers, gets exactly the bytes of the
      range, and gets there. */
  method Drain(r: PartsReader) returns (data: seq<Byte>, ok: bool)
    requires r.Valid() && !r.failed
    modifies r, r.cur
    ensures ok ==> data == r.All()[old(r.offset)..old(r.offset) + old(r.remain)]
    ensures !ok ==> data <= r.All()[old(r.offset)..old(r.offset) + old(r.remain)]
    ensures !Missing(r.blobs, r.name, r.parts) ==> ok
  {
    data, ok := [], true;
    var status := More;
    while status == More
      invariant status != Failure ==> r.Valid() && !r.failed
      invariant r.offset == old(r.offset) + |data| && r.remain == old(r.remain) - |data|
      invariant data == r.All()[old(r.offset)..r.offset]
      invariant status == EndOfFile ==> r.remain == 0
      invariant status == Failure ==> Missing(r.blobs, r.name, r.parts)
      invariant r.cur == old(r.cur) || r.cur == null || fresh(r.cur)
      decreases status == More, r.remain
    {
      var length: nat :| length > 0;
      var chunk;
      chunk, status := r.Read(length);
      data := data + chunk;
    }
    ok := status == EndOfFile;
  }
}
