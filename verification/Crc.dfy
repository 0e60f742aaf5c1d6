/** CRC registers as vectors over GF(2), and what clocking them does
    (the arithmetic behind internal/checksum/checksum.go).

    A machine word is the sequence of its bits, least significant first, so that the
    32-bit and the 64-bit code of the source are instances of one development: the
    width is the length of the sequence, and a shift drops the bits that leave it. */
module Gf2 {

  type Word = seq<bool>

  function Zero(width: nat): (z: Word)
    ensures |z| == width
  {
    seq(width, _ => false)
  }

  function Ones(width: nat): (z: Word)
    ensures |z| == width
  {
    seq(width, _ => true)
  }

  /** The word in which only bit `k` is set. */
  function Unit(width: nat, k: nat): (z: Word)
    ensures |z| == width
  {
    seq(width, i => i == k)
  }

  /** `a ^ b` */
  function Xor(a: Word, b: Word): (c: Word)
    requires |a| == |b|
    ensures |c| == |a|
  {
    seq(|a|, i requires 0 <= i < |a| => a[i] != b[i])
  }

  /** `c >> 1` */
  function Shr(c: Word): (r: Word)
    requires |c| > 0
    ensures |r| == |c|
  {
    c[1..] + [false]
  }

  /** `c << 1` */
  function Shl(c: Word): (r: Word)
    requires |c| > 0
    ensures |r| == |c|
  {
    [false] + c[..|c| - 1]
  }

  /** One clock of a reflected CRC register that is fed a zero bit. */
  function Step(poly: Word, c: Word): (r: Word)
    requires |poly| == |c| > 0
    ensures |r| == |c|
  {
    if c[0] then Xor(Shr(c), poly) else Shr(c)
  }

  /** The register after `n` zero bits. */
  function Zeros(poly: Word, n: nat, c: Word): (r: Word)
    requires |poly| == |c| > 0
    ensures |r| == |c|
  {
    if n == 0 then c else Zeros(poly, n - 1, Step(poly, c))
  }

  // ----- xor is a commutative group

  lemma XorAssoc(a: Word, b: Word, c: Word)
    requires |a| == |b| == |c|
    ensures Xor(Xor(a, b), c) == Xor(a, Xor(b, c))
  {
  }

  lemma XorZero(a: Word)
    ensures Xor(a, Zero(|a|)) == a
    ensures Xor(Zero(|a|), a) == a
    ensures Xor(a, a) == Zero(|a|)
  {
  }

  lemma XorCancel(a: Word, b: Word)
    requires |a| == |b|
    ensures Xor(Xor(a, b), b) == a
  {
  }

  // ----- clocking is linear

  lemma StepLinear(poly: Word, a: Word, b: Word)
    requires |poly| == |a| == |b| > 0
    ensures Step(poly, Xor(a, b)) == Xor(Step(poly, a), Step(poly, b))
  {
    assert Xor(a, b)[0] == (a[0] != b[0]);
    forall i | 0 <= i < |a|
      ensures Step(poly, Xor(a, b))[i] == Xor(Step(poly, a), Step(poly, b))[i]
    {
      if i < |a| - 1 { assert Shr(Xor(a, b))[i] == (Shr(a)[i] != Shr(b)[i]); }
    }
  }

  lemma {:induction false} ZerosLinear(poly: Word, n: nat, a: Word, b: Word)
    requires |poly| == |a| == |b| > 0
    ensures Zeros(poly, n, Xor(a, b)) == Xor(Zeros(poly, n, a), Zeros(poly, n, b))
  {
    if n != 0 {
      StepLinear(poly, a, b);
      ZerosLinear(poly, n - 1, Step(poly, a), Step(poly, b));
    }
  }

  lemma {:induction false} ZerosOfZero(poly: Word, n: nat)
    requires |poly| > 0
    ensures Zeros(poly, n, Zero(|poly|)) == Zero(|poly|)
  {
    if n != 0 {
      assert Step(poly, Zero(|poly|)) == Zero(|poly|);
      ZerosOfZero(poly, n - 1);
    }
  }

  lemma {:induction false} ZerosCompose(poly: Word, m: nat, n: nat, c: Word)
    requires |poly| == |c| > 0
    ensures Zeros(poly, m + n, c) == Zeros(poly, n, Zeros(poly, m, c))
  {
    if m != 0 { ZerosCompose(poly, m - 1, n, Step(poly, c)); }
  }

  /** Clocking a word whose low `n` bits are clear only shifts it. */
  lemma {:induction false} ZerosShift(poly: Word, n: nat, c: Word)
    requires |poly| == |c| > 0 && n <= |c|
    requires forall i :: 0 <= i < n ==> !c[i]
    ensures Zeros(poly, n, c) == c[n..] + Zero(n)
  {
    if n == 0 {
      assert c[0..] + Zero(0) == c;
    } else {
      var d := Shr(c);
      ZerosShift(poly, n - 1, d);
      assert d[n - 1..] + Zero(n - 1) == c[n..] + Zero(n);
    }
  }

  // ----- operators as matrices

  /** Row `k` of `mat` is the image of bit `k` under `n` zero bits. */
  ghost predicate Represents(mat: seq<Word>, poly: Word, n: nat) {
    && |mat| == |poly| > 0
    && forall k :: 0 <= k < |mat| ==> mat[k] == Zeros(poly, n, Unit(|poly|, k))
  }

  /** The sum of the rows selected by the low `n` bits of `v`. */
  function Rows(mat: seq<Word>, v: Word, n: nat): (r: Word)
    requires |v| == |mat| && n <= |mat|
    requires forall k :: 0 <= k < |mat| ==> |mat[k]| == |mat|
    ensures |r| == |mat|
  {
    if n == 0 then Zero(|mat|)
    else if v[n - 1] then Xor(Rows(mat, v, n - 1), mat[n - 1])
    else Rows(mat, v, n - 1)
  }

  /** The product of a matrix and a vector. */
  function Product(mat: seq<Word>, v: Word): (r: Word)
    requires |v| == |mat|
    requires forall k :: 0 <= k < |mat| ==> |mat[k]| == |mat|
    ensures |r| == |mat|
  {
    Rows(mat, v, |mat|)
  }

  lemma {:induction false} RowsApply(mat: seq<Word>, poly: Word, steps: nat, v: Word, n: nat)
    requires Represents(mat, poly, steps) && |v| == |poly| && n <= |v|
    ensures Rows(mat, v, n) == Zeros(poly, steps, v[..n] + Zero(|v| - n))
  {
    var w := |v|;
    if n == 0 {
      assert v[..0] + Zero(w) == Zero(w);
      ZerosOfZero(poly, steps);
    } else {
      RowsApply(mat, poly, steps, v, n - 1);
      var low := v[..n - 1] + Zero(w - (n - 1));
      if v[n - 1] {
        assert v[..n] + Zero(w - n) == Xor(low, Unit(w, n - 1));
        ZerosLinear(poly, steps, low, Unit(w, n - 1));
      } else {
        assert v[..n] + Zero(w - n) == low;
      }
    }
  }

  /** A matrix that represents an operator computes it. */
  lemma ProductApplies(mat: seq<Word>, poly: Word, steps: nat, v: Word)
    requires Represents(mat, poly, steps) && |v| == |poly|
    ensures Product(mat, v) == Zeros(poly, steps, v)
  {
    RowsApply(mat, poly, steps, v, |v|);
    assert v[..|v|] + Zero(0) == v;
  }

  /** Squaring a matrix doubles the number of zero bits it stands for. */
  lemma SquareDoubles(square: seq<Word>, mat: seq<Word>, poly: Word, steps: nat)
    requires Represents(mat, poly, steps) && |square| == |mat|
    requires forall k :: 0 <= k < |mat| ==> square[k] == Product(mat, mat[k])
    ensures Represents(square, poly, 2 * steps)
  {
    forall k | 0 <= k < |mat|
      ensures square[k] == Zeros(poly, 2 * steps, Unit(|poly|, k))
    {
      ProductApplies(mat, poly, steps, mat[k]);
      ZerosCompose(poly, steps, steps, Unit(|poly|, k));
    }
  }

  /** The rows of the one-bit operator: the polynomial, then each lower bit. */
  lemma StepRows(poly: Word, k: nat)
    requires k < |poly|
    ensures Zeros(poly, 1, Unit(|poly|, k)) == if k == 0 then poly else Unit(|poly|, k - 1)
  {
    StepUnit(poly, k);
    var s := Step(poly, Unit(|poly|, k));
    assert Zeros(poly, 1, Unit(|poly|, k)) == Zeros(poly, 0, s) == s;
  }

  lemma StepUnit(poly: Word, k: nat)
    requires k < |poly|
    ensures Step(poly, Unit(|poly|, k)) == if k == 0 then poly else Unit(|poly|, k - 1)
  {
    var u := Unit(|poly|, k);
    if k == 0 {
      assert Shr(u) == Zero(|poly|);
      XorZero(poly);
    } else {
      assert Shr(u) == Unit(|poly|, k - 1);
    }
  }
}
