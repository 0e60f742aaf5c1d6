/** Full-object CRCs of multipart uploads, computed from the CRCs and lengths of the
    parts alone (internal/checksum/checksum.go). */
module Checksum {
  import opened Gf2

  type Byte = x: int | 0 <= x < 256

  /** The canonical algorithm names; `Unknown` is what an unsupported name normalises to. */
  datatype Alg = CRC32 | CRC32C | SHA1 | SHA256 | CRC64NVME | Unknown

  datatype Result<T> = Ok(value: T) | ErrUnknownAlgorithm

  predicate IsCrc(alg: Alg) {
    alg.CRC32? || alg.CRC32C? || alg.CRC64NVME?
  }

  // ----- machine words and bytes

  /** The low `width` bits of `v`. */
  function ToBits(v: nat, width: nat): (w: Word)
    ensures |w| == width
  {
    if width == 0 then [] else [v % 2 == 1] + ToBits(v / 2, width - 1)
  }

  function FromBits(w: Word): nat {
    if w == [] then 0 else (if w[0] then 1 else 0) + 2 * FromBits(w[1..])
  }

  function ByteOf(w: Word): Byte
    requires |w| == 8
  {
    FromBitsBound(w[7..]); FromBitsBound(w[6..]); FromBitsBound(w[5..]); FromBitsBound(w[4..]);
    FromBitsBound(w);
    assert Pow2(8) == 256 by { assert Pow2(4) == 16; }
    FromBits(w)
  }

  function Pow2(n: nat): nat {
    if n == 0 then 1 else 2 * Pow2(n - 1)
  }

  lemma FromBitsBound(w: Word)
    ensures FromBits(w) < Pow2(|w|)
  {
    if w != [] { FromBitsBound(w[1..]); }
  }

  lemma {:induction false} BitsRoundTrip(w: Word)
    ensures ToBits(FromBits(w), |w|) == w
  {
    if w != [] {
      BitsRoundTrip(w[1..]);
      assert FromBits(w) / 2 == FromBits(w[1..]);
      assert [w[0]] + w[1..] == w;
    }
  }

  /** `binary.BigEndian.PutUint32` and `PutUint64`. */
  function PutBigEndian(w: Word): (p: seq<Byte>)
    requires |w| % 8 == 0
    ensures |p| == |w| / 8
  {
    if w == [] then [] else PutBigEndian(w[8..]) + [ByteOf(w[..8])]
  }

  /** `binary.BigEndian.Uint32` and `Uint64` on exactly the bytes they read. */
  function BigEndian(p: seq<Byte>): (w: Word)
    ensures |w| == 8 * |p|
  {
    if p == [] then [] else ToBits(p[|p| - 1], 8) + BigEndian(p[..|p| - 1])
  }

  /** The first of the `n` bytes holds the highest bits. */
  lemma {:induction false} HighestFirst(w: Word, n: nat, i: nat)
    requires |w| == 8 * n && i < n
    ensures PutBigEndian(w)[i] == FromBits(w[8 * (n - i - 1)..8 * (n - i)])
    decreases n
  {
    var rest, p := w[8..], PutBigEndian(w);
    assert p == PutBigEndian(rest) + [ByteOf(w[..8])];
    if i < n - 1 {
      HighestFirst(rest, n - 1, i);
      assert rest[8 * (n - i - 2)..8 * (n - i - 1)] == w[8 * (n - i - 1)..8 * (n - i)];
    } else {
      assert w[0..8] == w[..8];
    }
    hide PutBigEndian, FromBits;
  }

  lemma {:induction false} BigEndianRoundTrip(w: Word)
    requires |w| % 8 == 0
    ensures BigEndian(PutBigEndian(w)) == w
    decreases |w|
  {
    if w != [] {
      BigEndianRoundTrip(w[8..]);
      BitsRoundTrip(w[..8]);
      var p := PutBigEndian(w);
      assert p[..|p| - 1] == PutBigEndian(w[8..]);
      assert w[..8] + w[8..] == w;
    }
  }

  // ----- the CRCs

  function Width(alg: Alg): nat
    requires IsCrc(alg)
  {
    if alg.CRC64NVME? then 64 else 32
  }

  /** The reflected generator polynomials. */
  const IEEE: nat := 0xEDB88320
  const CASTAGNOLI: nat := 0x82F63B78
  const NVME: nat := 0x9A6C9329AC4BC9B5

  function Poly(alg: Alg): (p: Word)
    requires IsCrc(alg)
    ensures |p| == Width(alg)
  {
    match alg
    case CRC32 => ToBits(IEEE, 32)
    case CRC32C => ToBits(CASTAGNOLI, 32)
    case CRC64NVME => ToBits(NVME, 64)
  }

  /** The bit of a reflected word that stands for the power `k`: the highest power comes first. */
  function Term(k: nat, width: nat): nat
    requires k < width
  {
    Pow2(width - 1 - k)
  }

  /** The generator of CRC-32 (section 8 of RFC 1952), term by term below the leading one. */
  lemma IeeeGenerator()
    ensures FromBits(Poly(CRC32)) ==
        Term(26, 32) + Term(23, 32) + Term(22, 32) + Term(16, 32) + Term(12, 32) + Term(11, 32) + Term(10, 32) +
        Term(8, 32) + Term(7, 32) + Term(5, 32) + Term(4, 32) + Term(2, 32) + Term(1, 32) + Term(0, 32)
  {
    Powers();
    FromToBits(IEEE, 32);
    hide Pow2, FromBits, ToBits;
  }

  /** The generator of CRC-32C (section 12.1 of RFC 3720). */
  lemma CastagnoliGenerator()
    ensures FromBits(Poly(CRC32C)) ==
        Term(28, 32) + Term(27, 32) + Term(26, 32) + Term(25, 32) + Term(23, 32) + Term(22, 32) + Term(20, 32) +
        Term(19, 32) + Term(18, 32) + Term(14, 32) + Term(13, 32) + Term(11, 32) + Term(10, 32) + Term(9, 32) +
        Term(8, 32) + Term(6, 32) + Term(0, 32)
  {
    Powers();
    FromToBits(CASTAGNOLI, 32);
    hide Pow2, FromBits, ToBits;
  }

  /** The generator of CRC-64/NVME. */
  lemma NvmeGenerator()
    ensures FromBits(Poly(CRC64NVME)) ==
        Term(63, 64) + Term(61, 64) + Term(59, 64) + Term(58, 64) + Term(56, 64) + Term(55, 64) + Term(52, 64) +
        Term(49, 64) + Term(48, 64) + Term(47, 64) + Term(46, 64) + Term(44, 64) + Term(41, 64) + Term(37, 64) +
        Term(36, 64) + Term(34, 64) + Term(32, 64) + Term(31, 64) + Term(28, 64) + Term(26, 64) + Term(23, 64) +
        Term(22, 64) + Term(19, 64) + Term(16, 64) + Term(13, 64) + Term(12, 64) + Term(10, 64) + Term(9, 64) +
        Term(6, 64) + Term(4, 64) + Term(3, 64) + Term(0, 64)
  {
    Powers();
    FromToBits(NVME, 64);
    hide Pow2, FromBits, ToBits;
  }

  lemma Powers()
    ensures Pow2(0) == 1
    ensures Pow2(1) == 0x2
    ensures Pow2(2) == 0x4
    ensures Pow2(3) == 0x8
    ensures Pow2(4) == 0x10
    ensures Pow2(5) == 0x20
    ensures Pow2(6) == 0x40
    ensures Pow2(7) == 0x80
    ensures Pow2(8) == 0x100
    ensures Pow2(9) == 0x200
    ensures Pow2(10) == 0x400
    ensures Pow2(11) == 0x800
    ensures Pow2(12) == 0x1000
    ensures Pow2(13) == 0x2000
    ensures Pow2(14) == 0x4000
    ensures Pow2(15) == 0x8000
    ensures Pow2(16) == 0x10000
    ensures Pow2(17) == 0x20000
    ensures Pow2(18) == 0x40000
    ensures Pow2(19) == 0x80000
    ensures Pow2(20) == 0x100000
    ensures Pow2(21) == 0x200000
    ensures Pow2(22) == 0x400000
    ensures Pow2(23) == 0x800000
    ensures Pow2(24) == 0x1000000
    ensures Pow2(25) == 0x2000000
    ensures Pow2(26) == 0x4000000
    ensures Pow2(27) == 0x8000000
    ensures Pow2(28) == 0x10000000
    ensures Pow2(29) == 0x20000000
    ensures Pow2(30) == 0x40000000
    ensures Pow2(31) == 0x80000000
    ensures Pow2(32) == 0x100000000
    ensures Pow2(33) == 0x200000000
    ensures Pow2(34) == 0x400000000
    ensures Pow2(35) == 0x800000000
    ensures Pow2(36) == 0x1000000000
    ensures Pow2(37) == 0x2000000000
    ensures Pow2(38) == 0x4000000000
    ensures Pow2(39) == 0x8000000000
    ensures Pow2(40) == 0x10000000000
    ensures Pow2(41) == 0x20000000000
    ensures Pow2(42) == 0x40000000000
    ensures Pow2(43) == 0x80000000000
    ensures Pow2(44) == 0x100000000000
    ensures Pow2(45) == 0x200000000000
    ensures Pow2(46) == 0x400000000000
    ensures Pow2(47) == 0x800000000000
    ensures Pow2(48) == 0x1000000000000
    ensures Pow2(49) == 0x2000000000000
    ensures Pow2(50) == 0x4000000000000
    ensures Pow2(51) == 0x8000000000000
    ensures Pow2(52) == 0x10000000000000
    ensures Pow2(53) == 0x20000000000000
    ensures Pow2(54) == 0x40000000000000
    ensures Pow2(55) == 0x80000000000000
    ensures Pow2(56) == 0x100000000000000
    ensures Pow2(57) == 0x200000000000000
    ensures Pow2(58) == 0x400000000000000
    ensures Pow2(59) == 0x800000000000000
    ensures Pow2(60) == 0x1000000000000000
    ensures Pow2(61) == 0x2000000000000000
    ensures Pow2(62) == 0x4000000000000000
    ensures Pow2(63) == 0x8000000000000000
    ensures Pow2(64) == 0x1_0000_0000_0000_0000
  {
  }

  lemma {:induction false} FromToBits(v: nat, width: nat)
    ensures v < Pow2(width) ==> FromBits(ToBits(v, width)) == v
  {
    if width > 0 { FromToBits(v / 2, width - 1); }
  }

  /** Byte `b` in the low bits of a word. */
  function Low(b: Byte, width: nat): (w: Word)
    requires width >= 8
    ensures |w| == width
  {
    ToBits(b, 8) + Zero(width - 8)
  }

  /** One message byte, in the table form of section 8 of RFC 1952: the table entry of
      `(c ^ b) & 0xff`, which is that value clocked eight times, xor `c >> 8`. */
  function Feed(poly: Word, c: Word, b: Byte): (r: Word)
    requires |poly| == |c| >= 8
    ensures |r| == |c|
  {
    var index := Xor(c[..8], ToBits(b, 8)) + Zero(|c| - 8);
    Xor(Zeros(poly, 8, index), c[8..] + Zero(8))
  }

  function Register(poly: Word, c: Word, msg: seq<Byte>): (r: Word)
    requires |poly| == |c| >= 8
    ensures |r| == |c|
    decreases |msg|
  {
    if msg == [] then c else Register(poly, Feed(poly, c, msg[0]), msg[1..])
  }

  /** The checksum of a message: preset to ones, complemented at the end. */
  function Crc(poly: Word, msg: seq<Byte>): (r: Word)
    requires |poly| >= 8
    ensures |r| == |poly|
  {
    Xor(Register(poly, Ones(|poly|), msg), Ones(|poly|))
  }

  function Complement(w: Word): (c: Word)
    ensures |c| == |w|
  {
    seq(|w|, i requires 0 <= i < |w| => !w[i])
  }

  /** The register starts from the complement of zero, and its complement is the CRC; the CRC of
      nothing is zero. */
  lemma PresetAndComplemented(poly: Word, msg: seq<Byte>)
    requires |poly| >= 8
    ensures Crc(poly, msg) == Complement(Register(poly, Complement(Zero(|poly|)), msg))
    ensures Crc(poly, []) == Zero(|poly|)
  {
    assert Complement(Zero(|poly|)) == Ones(|poly|);
  }

  /** The digest bytes of a CRC algorithm. */
  function Digest(alg: Alg, msg: seq<Byte>): seq<Byte>
    requires IsCrc(alg)
  {
    PutBigEndian(Crc(Poly(alg), msg))
  }

  // ----- the register is affine in its start value

  /** The table step is eight clocks of the register with the byte xored in. */
  lemma FeedClocks(poly: Word, c: Word, b: Byte)
    requires |poly| == |c| >= 8
    ensures Feed(poly, c, b) == Zeros(poly, 8, Xor(c, Low(b, |c|)))
  {
    var index := Xor(c[..8], ToBits(b, 8)) + Zero(|c| - 8);
    var high := Zero(8) + c[8..];
    hide ToBits, Zeros;
    ZerosShift(poly, 8, high);
    assert high[8..] == c[8..];
    ZerosLinear(poly, 8, index, high);
    SplitByte(c, ToBits(b, 8));
    hide Xor, Zero;
  }

  /** A byte xored into the low bits, with the high bits apart. */
  lemma SplitByte(c: Word, b: Word)
    requires |c| >= 8 && |b| == 8
    ensures Xor(Xor(c[..8], b) + Zero(|c| - 8), Zero(8) + c[8..]) == Xor(c, b + Zero(|c| - 8))
  {
  }

  lemma {:induction false} RegisterAppend(poly: Word, c: Word, a: seq<Byte>, b: seq<Byte>)
    requires |poly| == |c| >= 8
    ensures Register(poly, c, a + b) == Register(poly, Register(poly, c, a), b)
    decreases |a|
  {
    if a == [] {
      assert a + b == b;
    } else {
      assert (a + b)[1..] == a[1..] + b;
      RegisterAppend(poly, Feed(poly, c, a[0]), a[1..], b);
    }
  }

  /** A change of the start value reaches the end through zero bits only. */
  lemma {:induction false} RegisterAffine(poly: Word, c: Word, d: Word, msg: seq<Byte>)
    requires |poly| == |c| == |d| >= 8
    ensures Register(poly, Xor(c, d), msg) == Xor(Zeros(poly, 8 * |msg|, c), Register(poly, d, msg))
    decreases |msg|
  {
    if msg != [] {
      var b := Low(msg[0], |c|);
      FeedClocks(poly, Xor(c, d), msg[0]);
      FeedClocks(poly, d, msg[0]);
      XorAssoc(c, d, b);
      ZerosLinear(poly, 8, c, Xor(d, b));
      RegisterAffine(poly, Zeros(poly, 8, c), Feed(poly, d, msg[0]), msg[1..]);
      ZerosCompose(poly, 8, 8 * |msg[1..]|, c);
    }
  }

  /** The CRC of a concatenation from the two CRCs and the second length. */
  lemma CrcAppend(poly: Word, a: seq<Byte>, b: seq<Byte>)
    requires |poly| >= 8
    ensures Crc(poly, a + b) == Xor(Zeros(poly, 8 * |b|, Crc(poly, a)), Crc(poly, b))
  {
    var ones := Ones(|poly|);
    var ra, rb := Register(poly, ones, a), Register(poly, ones, b);
    RegisterAppend(poly, ones, a, b);
    XorCancel(ra, ones);
    RegisterAffine(poly, Xor(ra, ones), ones, b);
    XorAssoc(Zeros(poly, 8 * |b|, Xor(ra, ones)), rb, ones);
  }

  // ----- combining by repeated squaring

  /** What `crc32Combine` and `crc64Combine` stand for. */
  function CombineTwo(poly: Word, crc1: Word, crc2: Word, len2: int): (r: Word)
    requires |poly| == |crc1| == |crc2| > 0
    ensures |r| == |poly|
  {
    if len2 <= 0 then crc1 else Xor(Zeros(poly, 8 * len2, crc1), crc2)
  }

  /** `gf2MatrixTimes32` and `gf2MatrixTimes64`. */
  method MatrixTimes(mat: array<Word>, vec: Word) returns (sum: Word)
    requires |vec| == mat.Length > 0
    requires forall k :: 0 <= k < mat.Length ==> |mat[k]| == mat.Length
    ensures sum == Product(mat[..], vec)
  {
    var rest := vec;
    sum := Zero(mat.Length);
    var i := 0;
    while rest != Zero(mat.Length)
      invariant i <= mat.Length && |rest| == |sum| == mat.Length
      invariant rest == vec[i..] + Zero(i)
      invariant sum == Rows(mat[..], vec, i)
      decreases mat.Length - i
    {
      assert i < mat.Length;
      assert rest[0] == vec[i];
      if rest[0] {
        sum := Xor(sum, mat[i]);
      }
      rest := Shr(rest);
      i := i + 1;
    }
    assert forall k :: i <= k < |vec| ==> vec[k] == rest[k - i];
    RowsRest(mat[..], vec, i);
  }

  /** Rows beyond the highest set bit add nothing. */
  lemma {:induction false} RowsRest(mat: seq<Word>, v: Word, i: nat)
    requires |v| == |mat| && i <= |mat|
    requires forall k :: 0 <= k < |mat| ==> |mat[k]| == |mat|
    requires forall k :: i <= k < |v| ==> !v[k]
    ensures Product(mat, v) == Rows(mat, v, i)
    decreases |mat| - i
  {
    if i < |mat| { RowsRest(mat, v, i + 1); }
  }

  /** `gf2MatrixSquare32` and `gf2MatrixSquare64`. */
  method MatrixSquare(square: array<Word>, mat: array<Word>)
    requires square != mat && square.Length == mat.Length > 0
    requires forall k :: 0 <= k < mat.Length ==> |mat[k]| == mat.Length
    modifies square
    ensures forall k :: 0 <= k < mat.Length ==> square[k] == Product(mat[..], mat[k])
  {
    for n := 0 to mat.Length
      invariant forall k :: 0 <= k < n ==> square[k] == Product(mat[..], mat[k])
    {
      var row := MatrixTimes(mat, mat[n]);
      square[n] := row;
    }
  }

  /** The matrix of one zero bit, as both combine functions set it up. */
  method OneBit(poly: Word, odd: array<Word>)
    requires |poly| == odd.Length > 0
    modifies odd
    ensures Represents(odd[..], poly, 1)
  {
    odd[0] := poly;
    var row := Unit(|poly|, 0);
    for n := 1 to odd.Length
      invariant odd[0] == poly
      invariant n < odd.Length ==> row == Unit(|poly|, n - 1)
      invariant forall k :: 1 <= k < n ==> odd[k] == Unit(|poly|, k - 1)
    {
      odd[n] := row;
      row := Shl(row);
    }
    forall k | 0 <= k < odd.Length
      ensures odd[k] == Zeros(poly, 1, Unit(|poly|, k))
    {
      StepRows(poly, k);
    }
  }

  /** `MatrixSquare` on a matrix that represents an operator. */
  method Double(square: array<Word>, mat: array<Word>, ghost poly: Word, ghost steps: nat)
    requires square != mat && square.Length == mat.Length
    requires Represents(mat[..], poly, steps)
    modifies square
    ensures Represents(square[..], poly, 2 * steps)
  {
    assert forall k :: 0 <= k < mat.Length ==> mat[k] == mat[..][k];
    MatrixSquare(square, mat);
    SquareDoubles(square[..], mat[..], poly, steps);
  }

  /** `crc32Combine` (32 bits) and `crc64Combine` (64 bits): the matrix of 2^k zero bytes
      is kept in one of two buffers and applied for every set bit of the length. */
  method Combine(poly: Word, crc1: Word, crc2: Word, len2: int) returns (r: Word)
    requires |poly| == |crc1| == |crc2| > 0
    ensures r == CombineTwo(poly, crc1, crc2, len2)
  {
    if len2 <= 0 {
      return crc1;
    }
    var even, odd := new Word[|poly|], new Word[|poly|];
    OneBit(poly, odd);
    Double(even, odd, poly, 1);
    Double(odd, even, poly, 2);
    var crc, n := crc1, len2;
    ghost var half: nat, done: nat, left: nat := 4, 0, 8 * len2;
    while true
      invariant n > 0 && |crc| == |poly|
      invariant Represents(odd[..], poly, half)
      invariant left == (2 * half) * n && done + left == 8 * len2
      invariant crc == Zeros(poly, done, crc1)
      decreases n
    {
      Double(even, odd, poly, half);
      crc, n, done, left := HalfStep(poly, even, crc, n, 2 * half, crc1, done, left);
      if n == 0 {
        break;
      }
      Double(odd, even, poly, 2 * half);
      half := 2 * (2 * half);
      crc, n, done, left := HalfStep(poly, odd, crc, n, half, crc1, done, left);
      if n == 0 {
        break;
      }
    }
    r := Xor(crc, crc2);
  }

  /** One bit of the length: apply the matrix if it is set, then shift the length. `done`
      zero bits have been applied and `left` remain. */
  method HalfStep(poly: Word, mat: array<Word>, crc: Word, n: int,
                  ghost unit: nat, ghost crc1: Word, ghost done: nat, ghost left: nat)
    returns (crc': Word, n': int, ghost done': nat, ghost left': nat)
    requires n > 0 && |crc1| == |poly| == |crc|
    requires Represents(mat[..], poly, unit)
    requires crc == Zeros(poly, done, crc1)
    requires left == unit * n
    ensures |crc'| == |poly| && 0 <= n' < n
    ensures crc' == Zeros(poly, done', crc1)
    ensures left' == (2 * unit) * n' && done + left == done' + left'
  {
    crc', done' := crc, done;
    if n % 2 != 0 {
      crc' := Multiply(mat, crc, poly, unit);
      ZerosCompose(poly, done, unit, crc1);
      done' := done + unit;
    }
    n' := n / 2;
    left' := (2 * unit) * n';
    Halve(unit, n);
  }

  lemma Halve(unit: nat, n: nat)
    ensures unit * n == (2 * unit) * (n / 2) + (if n % 2 != 0 then unit else 0)
  {
    assert n == 2 * (n / 2) + n % 2;
    assert unit * n == unit * (2 * (n / 2)) + unit * (n % 2);
  }

  /** `MatrixTimes` on a matrix that represents an operator. */
  method Multiply(mat: array<Word>, vec: Word, ghost poly: Word, ghost unit: nat) returns (r: Word)
    requires Represents(mat[..], poly, unit) && |vec| == |poly|
    ensures r == Zeros(poly, unit, vec)
  {
    assert forall k :: 0 <= k < mat.Length ==> mat[k] == mat[..][k];
    r := MatrixTimes(mat, vec);
    ProductApplies(mat[..], poly, unit, vec);
  }

  // ----- all parts

  /** The combined CRC of the first `n` parts. */
  function CombineAll(poly: Word, crcs: seq<Word>, sizes: seq<int>, n: nat): (r: Word)
    requires |poly| > 0 && n <= |crcs|
    requires |crcs| > 1 ==> |crcs| <= |sizes|
    requires forall i :: 0 <= i < |crcs| ==> |crcs[i]| == |poly|
    ensures |r| == |poly|
  {
    if n == 0 then Zero(|poly|)
    else if n == 1 then crcs[0]
    else CombineTwo(poly, CombineAll(poly, crcs, sizes, n - 1), crcs[n - 1], sizes[n - 1])
  }

  function Concat(parts: seq<seq<Byte>>): seq<Byte> {
    if parts == [] then [] else Concat(parts[..|parts| - 1]) + parts[|parts| - 1]
  }

  /** `partSums` and `sizes` are the digests and the lengths of `parts`. The length of the
      first part is never read. */
  ghost predicate Describes(alg: Alg, parts: seq<seq<Byte>>, partSums: seq<seq<Byte>>, sizes: seq<int>)
    requires IsCrc(alg)
  {
    && |parts| == |partSums|
    && (forall i :: 0 <= i < |parts| ==> partSums[i] == Digest(alg, parts[i]))
    && AreSizes(parts, sizes)
  }

  ghost predicate AreCrcs(poly: Word, parts: seq<seq<Byte>>, crcs: seq<Word>)
    requires |poly| >= 8
  {
    && |parts| == |crcs|
    && forall i :: 0 <= i < |parts| ==> crcs[i] == Crc(poly, parts[i])
  }

  ghost predicate AreSizes(parts: seq<seq<Byte>>, sizes: seq<int>) {
    && (|parts| > 1 ==> |parts| <= |sizes|)
    && forall i :: 1 <= i < |parts| ==> sizes[i] == |parts[i]|
  }

  /** Combining the CRCs of parts gives the CRC of the concatenation, empty parts included. */
  lemma {:induction false} CombineAllIsCrc(poly: Word, parts: seq<seq<Byte>>, crcs: seq<Word>, sizes: seq<int>, n: nat)
    requires |poly| >= 8 && n <= |parts|
    requires AreCrcs(poly, parts, crcs) && AreSizes(parts, sizes)
    requires forall i :: 0 <= i < |crcs| ==> |crcs[i]| == |poly|
    ensures CombineAll(poly, crcs, sizes, n) == Crc(poly, Concat(parts[..n]))
  {
    if n == 0 {
      XorZero(Ones(|poly|));
    } else {
      var head := Concat(parts[..n - 1]);
      assert parts[..n][..n - 1] == parts[..n - 1];
      assert Concat(parts[..n]) == head + parts[n - 1];
      assert crcs[n - 1] == Crc(poly, parts[n - 1]);
      if n == 1 {
        assert head + parts[0] == parts[0];
      } else {
        CombineAllIsCrc(poly, parts, crcs, sizes, n - 1);
        CrcAppend(poly, head, parts[n - 1]);
        if parts[n - 1] == [] {
          assert head + parts[n - 1] == head;
        }
      }
    }
  }

  function Decoded(alg: Alg, partSums: seq<seq<Byte>>): (crcs: seq<Word>)
    requires IsCrc(alg)
    requires forall i :: 0 <= i < |partSums| ==> Width(alg) <= 8 * |partSums[i]|
    ensures |crcs| == |partSums|
    ensures forall i :: 0 <= i < |crcs| ==> |crcs[i]| == Width(alg)
  {
    seq(|partSums|, i requires 0 <= i < |partSums| => BigEndian(partSums[i][..Width(alg) / 8]))
  }

  /** The sums are long enough to be read, and every later part has a size. */
  predicate Combinable(alg: Alg, partSums: seq<seq<Byte>>, sizes: seq<int>)
    requires IsCrc(alg)
  {
    && (forall i :: 0 <= i < |partSums| ==> Width(alg) <= 8 * |partSums[i]|)
    && (|partSums| > 1 ==> |partSums| <= |sizes|)
  }

  /** The combined checksum of all parts, as bytes. */
  function FullSum(alg: Alg, partSums: seq<seq<Byte>>, sizes: seq<int>): seq<Byte>
    requires IsCrc(alg) && Combinable(alg, partSums, sizes)
  {
    PutBigEndian(CombineAll(Poly(alg), Decoded(alg, partSums), sizes, |partSums|))
  }

  lemma DigestDecodes(poly: Word, msg: seq<Byte>)
    requires |poly| >= 8 && |poly| % 8 == 0
    ensures BigEndian(PutBigEndian(Crc(poly, msg))) == Crc(poly, msg)
  {
    BigEndianRoundTrip(Crc(poly, msg));
  }

  lemma DescribedCrc(alg: Alg, parts: seq<seq<Byte>>, partSums: seq<seq<Byte>>, sizes: seq<int>)
    requires IsCrc(alg) && Combinable(alg, partSums, sizes) && Describes(alg, parts, partSums, sizes)
    ensures FullSum(alg, partSums, sizes) == Digest(alg, Concat(parts))
  {
    hide Poly, Concat, Crc, CombineAll, PutBigEndian, BigEndian;
    var crcs := Decoded(alg, partSums);
    forall i | 0 <= i < |parts|
      ensures crcs[i] == Crc(Poly(alg), parts[i])
    {
      DigestDecodes(Poly(alg), parts[i]);
      assert partSums[i][..Width(alg) / 8] == partSums[i];
    }
    CombineAllIsCrc(Poly(alg), parts, crcs, sizes, |parts|);
    assert parts[..|parts|] == parts;
  }

  /** The full-object CRC of a multipart upload. When the sums and sizes are those of some
      parts, the result is the digest of their concatenation. */
  method CombineCRC(alg: Alg, partSums: seq<seq<Byte>>, sizes: seq<int>) returns (out: Result<seq<Byte>>)
    requires IsCrc(alg) ==> Combinable(alg, partSums, sizes)
    ensures !IsCrc(alg) ==> out == ErrUnknownAlgorithm
    ensures IsCrc(alg) ==> out == Ok(FullSum(alg, partSums, sizes))
    ensures IsCrc(alg) ==>
      forall parts :: Describes(alg, parts, partSums, sizes) ==> out == Ok(Digest(alg, Concat(parts)))
  {
    if !IsCrc(alg) {
      return ErrUnknownAlgorithm;
    }
    var poly := Poly(alg);
    ghost var crcs := Decoded(alg, partSums);
    var acc := Zero(Width(alg));
    for i := 0 to |partSums|
      invariant |acc| == |poly|
      invariant acc == CombineAll(poly, crcs, sizes, i)
    {
      var c := BigEndian(partSums[i][..Width(alg) / 8]);
      assert c == crcs[i];
      if i == 0 {
        acc := c;
      } else {
        acc := Combine(poly, acc, c, sizes[i]);
      }
    }
    out := Ok(PutBigEndian(acc));
    forall parts | Describes(alg, parts, partSums, sizes)
      ensures out == Ok(Digest(alg, Concat(parts)))
    {
      DescribedCrc(alg, parts, partSums, sizes);
    }
  }
}
