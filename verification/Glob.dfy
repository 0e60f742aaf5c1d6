/** The IAM wildcard matcher: an iterative glob with backtracking to the most recent star
    (internal/policy/policy.go, `Match`). */
module Glob {

  type Text = seq<char>

  /** The pattern from `i` on matches the subject from `j` on: `*` stands for any sequence,
      `?` for any one character. */
  ghost predicate At(p: Text, s: Text, i: nat, j: nat)
    requires i <= |p| && j <= |s|
    decreases |p| - i + |s| - j
  {
    if i == |p| then j == |s|
    else if p[i] == '*' then At(p, s, i + 1, j) || (j < |s| && At(p, s, i, j + 1))
    else j < |s| && (p[i] == '?' || p[i] == s[j]) && At(p, s, i + 1, j + 1)
  }

  ghost predicate Matches(p: Text, s: Text) {
    At(p, s, 0, 0)
  }

  /** The branch of the loop that consumes one character of each side. */
  predicate Literal(p: Text, s: Text, px: nat, sx: nat) {
    px < |p| && sx < |s| && (p[px] == '?' || p[px] == s[sx])
  }

  /** Where the loop stands: `star` is the last star taken and `tried` the position in the
      subject up to which it has been stretched. */
  datatype Cursor = Cursor(px: nat, sx: nat, star: int, tried: int) {
    predicate Valid(p: Text, s: Text) {
      && px <= |p| && sx <= |s| && -1 <= star && tried <= sx
      && (star >= 0 ==> star < px && p[star] == '*' && 0 <= tried)
    }
  }

  /** One turn of the loop; `None` is its `return false`. */
  datatype Turn = Go(c: Cursor) | Fail

  function Advance(p: Text, s: Text, c: Cursor): (t: Turn)
    requires c.Valid(p, s) && c.sx < |s|
    ensures t.Go? ==> t.c.Valid(p, s)
  {
    if Literal(p, s, c.px, c.sx) then Go(Cursor(c.px + 1, c.sx + 1, c.star, c.tried))
    else if c.px < |p| && p[c.px] == '*' then Go(Cursor(c.px + 1, c.sx, c.px, c.sx))
    else if c.star >= 0 then Go(Cursor(c.star + 1, c.tried + 1, c.star, c.tried + 1))
    else Fail
  }

  /** The loop from a cursor to its answer. */
  predicate Run(p: Text, s: Text, c: Cursor)
    requires c.Valid(p, s)
    decreases |s| - c.tried, |p| - c.px + |s| - c.sx
  {
    if c.sx == |s| then forall k :: c.px <= k < |p| ==> p[k] == '*'
    else
      var t := Advance(p, s, c);
      t.Go? && Run(p, s, t.c)
  }

  const START := Cursor(0, 0, -1, -1)

  /** The matcher of the source; it always terminates. */
  method Match(p: Text, s: Text) returns (b: bool)
    ensures b == Run(p, s, START)
    ensures b ==> Matches(p, s)
    ensures '*' !in s ==> (b <==> Matches(p, s))
  {
    Sound(p, s);
    if '*' !in s { Complete(p, s, START); }
    var px, sx, starP, starS := 0, 0, -1, -1;
    while sx < |s|
      invariant px <= |p| && sx <= |s|
      invariant Cursor(px, sx, starP, starS).Valid(p, s)
      invariant Run(p, s, Cursor(px, sx, starP, starS)) == Run(p, s, START)
      decreases |s| - starS, |p| - px + |s| - sx
    {
      if px < |p| && (p[px] == '?' || p[px] == s[sx]) {
        px, sx := px + 1, sx + 1;
      } else if px < |p| && p[px] == '*' {
        starP, starS := px, sx;
        px := px + 1;
      } else if starP >= 0 {
        px := starP + 1;
        starS := starS + 1;
        sx := starS;
      } else {
        return false;
      }
    }
    ghost var at := px;
    while px < |p| && p[px] == '*'
      invariant at <= px <= |p|
      invariant forall k :: at <= k < px ==> p[k] == '*'
    {
      px := px + 1;
    }
    b := px == |p|;
  }

  // ----- soundness

  lemma {:induction false} StarsMatchEmpty(p: Text, s: Text, i: nat)
    requires i <= |p| && forall k :: i <= k < |p| ==> p[k] == '*'
    ensures At(p, s, i, |s|)
    decreases |p| - i
  {
    if i < |p| { StarsMatchEmpty(p, s, i + 1); }
  }

  /** A star may be stretched over any characters. */
  lemma {:induction false} StarStretches(p: Text, s: Text, i: nat, j: nat, k: nat)
    requires i < |p| && p[i] == '*' && j <= k <= |s| && At(p, s, i + 1, k)
    ensures At(p, s, i, j)
    decreases k - j
  {
    if j < k { StarStretches(p, s, i, j + 1, k); }
  }

  /** What follows the star at `star` matches the subject from `k` on. */
  ghost predicate Tail(p: Text, s: Text, star: int, k: int)
    requires 0 <= star < |p| && 0 <= k <= |s|
  {
    At(p, s, star + 1, k)
  }

  /** The last star can be stretched further so that what follows it matches. */
  ghost predicate Stretched(p: Text, s: Text, c: Cursor)
    requires c.Valid(p, s)
  {
    c.star >= 0 && exists k :: c.tried < k <= |s| && Tail(p, s, c.star, k)
  }

  /** Why the loop may answer `true` from a cursor. */
  ghost predicate Explains(p: Text, s: Text, c: Cursor)
    requires c.Valid(p, s)
  {
    At(p, s, c.px, c.sx) || Stretched(p, s, c)
  }

  lemma {:induction false} RunExplains(p: Text, s: Text, c: Cursor)
    requires c.Valid(p, s) && Run(p, s, c)
    ensures Explains(p, s, c)
    decreases |s| - c.tried, |p| - c.px + |s| - c.sx
  {
    if c.sx == |s| {
      StarsMatchEmpty(p, s, c.px);
    } else {
      RunExplains(p, s, Advance(p, s, c).c);
      TurnExplains(p, s, c);
    }
  }

  /** An explanation after one turn of the loop is one before it. */
  lemma TurnExplains(p: Text, s: Text, c: Cursor)
    requires c.Valid(p, s) && c.sx < |s| && Advance(p, s, c).Go?
    requires Explains(p, s, Advance(p, s, c).c)
    ensures Explains(p, s, c)
  {
    var d := Advance(p, s, c).c;
    if Literal(p, s, c.px, c.sx) {
      if At(p, s, d.px, d.sx) {
        if p[c.px] == '*' { StarStretches(p, s, c.px, c.sx, c.sx + 1); }
      } else {
        assert Stretched(p, s, c);
      }
    } else if c.px < |p| && p[c.px] == '*' {
      if At(p, s, d.px, d.sx) {
        StarStretches(p, s, c.px, c.sx, c.sx);
      } else {
        var k :| d.tried < k <= |s| && Tail(p, s, d.star, k);
        StarStretches(p, s, d.star, c.sx, k);
      }
    } else {
      if At(p, s, d.px, d.sx) { assert Tail(p, s, c.star, d.sx); }
      assert Stretched(p, s, c);
    }
  }

  /** The matcher accepts only what the pattern means, for every pattern and subject. */
  lemma Sound(p: Text, s: Text)
    ensures Run(p, s, START) ==> Matches(p, s)
  {
    if Run(p, s, START) { RunExplains(p, s, START); }
  }

  // ----- completeness

  /** What lies between the last star and the cursor is star-free and has been matched
      character by character. */
  ghost predicate Tight(p: Text, s: Text, c: Cursor)
    requires c.Valid(p, s)
  {
    c.star >= 0 ==>
      && c.px - c.star - 1 == c.sx - c.tried
      && forall k :: c.star < k < c.px ==> p[k] != '*'
  }

  /** A star-free stretch of pattern consumes exactly its own length. */
  lemma {:induction false} StarFreeLength(p: Text, s: Text, i: nat, j: nat, n: nat)
    requires i + n <= |p| && j <= |s| && At(p, s, i, j)
    requires forall k :: i <= k < i + n ==> p[k] != '*'
    ensures j + n <= |s| && At(p, s, i + n, j + n)
    decreases n
  {
    if n != 0 { StarFreeLength(p, s, i + 1, j + 1, n - 1); }
  }

  lemma {:induction false} StarUnstretch(p: Text, s: Text, i: nat, j: nat) returns (k: nat)
    requires i < |p| && p[i] == '*' && j <= |s| && At(p, s, i, j)
    ensures j <= k <= |s| && At(p, s, i + 1, k)
    decreases |s| - j
  {
    if At(p, s, i + 1, j) {
      k := j;
    } else {
      k := StarUnstretch(p, s, i, j + 1);
    }
  }

  lemma {:induction false} EmptyMatchIsStars(p: Text, s: Text, i: nat)
    requires i <= |p| && At(p, s, i, |s|)
    ensures forall k :: i <= k < |p| ==> p[k] == '*'
    decreases |p| - i
  {
    if i < |p| { EmptyMatchIsStars(p, s, i + 1); }
  }

  /** At the end of the subject no further stretch can help. */
  lemma NoStretchAtEnd(p: Text, s: Text, c: Cursor)
    requires c.Valid(p, s) && Tight(p, s, c) && c.sx == |s|
    ensures !Stretched(p, s, c)
  {
    if Stretched(p, s, c) {
      var k :| c.tried < k <= |s| && Tail(p, s, c.star, k);
      StarFreeLength(p, s, c.star + 1, k, c.px - c.star - 1);
    }
  }

  /** Without a star in the subject the loop answers `true` exactly when there is an
      explanation. */
  lemma {:induction false} Complete(p: Text, s: Text, c: Cursor)
    requires c.Valid(p, s) && Tight(p, s, c) && '*' !in s
    ensures Run(p, s, c) <==> Explains(p, s, c)
    decreases |s| - c.tried, |p| - c.px + |s| - c.sx
  {
    if Run(p, s, c) {
      RunExplains(p, s, c);
    } else if Explains(p, s, c) {
      if c.sx == |s| {
        NoStretchAtEnd(p, s, c);
        EmptyMatchIsStars(p, s, c.px);
      } else {
        Progress(p, s, c);
        Complete(p, s, Advance(p, s, c).c);
      }
    }
  }

  /** One turn of the loop keeps an explanation, if the subject has no star. */
  lemma Progress(p: Text, s: Text, c: Cursor)
    requires c.Valid(p, s) && Tight(p, s, c) && '*' !in s && c.sx < |s| && Explains(p, s, c)
    ensures Advance(p, s, c).Go?
    ensures Tight(p, s, Advance(p, s, c).c) && Explains(p, s, Advance(p, s, c).c)
  {
    if Literal(p, s, c.px, c.sx) {
      assert s[c.sx] in s;
      ProgressLiteral(p, s, c);
    } else if c.px < |p| && p[c.px] == '*' {
      ProgressStar(p, s, c);
    } else {
      ProgressBacktrack(p, s, c);
    }
  }

  lemma ProgressLiteral(p: Text, s: Text, c: Cursor)
    requires c.Valid(p, s) && Explains(p, s, c) && Literal(p, s, c.px, c.sx) && p[c.px] != '*'
    ensures Explains(p, s, Advance(p, s, c).c)
  {
    var d := Advance(p, s, c).c;
    if !At(p, s, c.px, c.sx) {
      var k :| c.tried < k <= |s| && Tail(p, s, c.star, k);
      assert Tail(p, s, d.star, k);
    }
  }

  lemma ProgressStar(p: Text, s: Text, c: Cursor)
    requires c.Valid(p, s) && Tight(p, s, c) && Explains(p, s, c)
    requires c.sx < |s| && !Literal(p, s, c.px, c.sx) && c.px < |p| && p[c.px] == '*'
    ensures Explains(p, s, Advance(p, s, c).c)
  {
    var k: nat;
    if At(p, s, c.px, c.sx) {
      k := StarUnstretch(p, s, c.px, c.sx);
    } else {
      // a stretch of the older star moves to the new one
      var j :| c.tried < j <= |s| && Tail(p, s, c.star, j);
      var n := c.px - c.star - 1;
      StarFreeLength(p, s, c.star + 1, j, n);
      k := StarUnstretch(p, s, c.px, j + n);
    }
    assert Tail(p, s, c.px, k);
  }

  lemma ProgressBacktrack(p: Text, s: Text, c: Cursor)
    requires c.Valid(p, s) && Explains(p, s, c) && c.sx < |s|
    requires !Literal(p, s, c.px, c.sx) && !(c.px < |p| && p[c.px] == '*')
    ensures Advance(p, s, c).Go? && Explains(p, s, Advance(p, s, c).c)
  {
    assert !At(p, s, c.px, c.sx);
    var d := Advance(p, s, c).c;
    var k :| c.tried < k <= |s| && Tail(p, s, c.star, k);
    if k == c.tried + 1 { assert At(p, s, d.px, d.sx); } else { assert Tail(p, s, d.star, k); }
  }

  // ----- exactly which subjects are decided exactly

  /** The pattern `u*???` with one question mark more than the characters after the star. */
  function Witness(u: Text, n: nat): (p: Text)
    ensures |p| == |u| + 1 + n
  {
    u + ['*'] + seq(n, _ => '?')
  }

  lemma {:induction false} QuestionMarksMatch(p: Text, s: Text, i: nat, j: nat)
    requires i <= |p| && j <= |s| && |p| - i == |s| - j
    requires forall k :: i <= k < |p| ==> p[k] == '?'
    ensures At(p, s, i, j)
    decreases |p| - i
  {
    if i < |p| { QuestionMarksMatch(p, s, i + 1, j + 1); }
  }

  lemma {:induction false} PrefixMatches(p: Text, s: Text, i: nat, n: nat)
    requires i <= n <= |p| && n <= |s| && At(p, s, n, n)
    requires forall k :: i <= k < n ==> p[k] == s[k] && p[k] != '*'
    ensures At(p, s, i, i)
    decreases n - i
  {
    if i < n { PrefixMatches(p, s, i + 1, n); }
  }

  /** On its witness pattern the loop takes the literal branch only, and ends one question
      mark short. */
  lemma {:induction false} WitnessRuns(p: Text, s: Text, c: Cursor)
    requires c.Valid(p, s) && c.px == c.sx && c.star == -1 && |p| == |s| + 1 && p[|s|] == '?'
    requires forall k :: 0 <= k < |s| ==> p[k] == s[k] || p[k] == '?'
    ensures !Run(p, s, c)
    decreases |s| - c.sx
  {
    if c.sx < |s| { WitnessRuns(p, s, Advance(p, s, c).c); }
  }

  ghost predicate HasWitnessShape(p: Text, s: Text, i: nat) {
    && i < |s| && s[i] == '*' && |p| == |s| + 1 && p[i] == '*'
    && (forall k :: 0 <= k < i ==> p[k] == s[k] && p[k] != '*')
    && (forall k :: i < k < |p| ==> p[k] == '?')
  }

  lemma WitnessShape(s: Text, i: nat)
    requires i < |s| && s[i] == '*' && '*' !in s[..i]
    ensures HasWitnessShape(Witness(s[..i], |s| - i), s, i)
  {
    forall k | 0 <= k < i
      ensures s[k] != '*'
    {
      assert s[k] == s[..i][k];
    }
  }

  /** A subject with a star at `i` is refused by a pattern that matches it. */
  lemma StarredSubjectMissed(p: Text, s: Text, i: nat)
    requires HasWitnessShape(p, s, i)
    ensures Matches(p, s) && !Run(p, s, START)
  {
    QuestionMarksMatch(p, s, i + 1, i);
    StarStretches(p, s, i, i, i);
    PrefixMatches(p, s, 0, i);
    WitnessRuns(p, s, START);
  }

  /** Every pattern is decided exactly on a subject if and only if the subject has no star. */
  lemma ExactIffStarFree(s: Text)
    ensures (forall p :: Run(p, s, START) <==> Matches(p, s)) <==> '*' !in s
  {
    if '*' in s {
      var i := FirstStar(s);
      var p := Witness(s[..i], |s| - i);
      WitnessShape(s, i);
      StarredSubjectMissed(p, s, i);
      assert !(Run(p, s, START) <==> Matches(p, s));
    } else {
      forall p
        ensures Run(p, s, START) <==> Matches(p, s)
      {
        Complete(p, s, START);
      }
    }
  }

  lemma {:induction false} FirstStar(s: Text) returns (i: nat)
    requires '*' in s
    ensures i < |s| && s[i] == '*' && '*' !in s[..i]
  {
    if s[0] == '*' {
      i := 0;
    } else {
      var j := FirstStar(s[1..]);
      i := j + 1;
      assert s[..i] == [s[0]] + s[1..][..j];
    }
  }
}
