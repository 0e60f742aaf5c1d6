/** What lifecycle rules mean: which versions a rule selects, when its clauses are due, and that
    evaluation does exactly what selected, due clauses ask for (internal/lifecycle/eval.go). */
module LifecycleMeaning {
  import opened Kv
  import opened Lifecycle
  import opened Keys
  import opened LifecycleScan

  // ----- which versions a rule selects

  /** A rule's own prefix counts before its filter's, and that before the one of its conjunction. */
  predicate PrefixFits(r: Rule, key: Bytes) {
    && (r.prefix.Some? ==> HasPrefix(key, r.prefix.value))
    && (r.prefix.None? && r.filter.Some? ==>
          var f := r.filter.value;
          (f.prefix.Some? ==> HasPrefix(key, f.prefix.value)) &&
          (f.prefix.None? && f.conj.Some? && f.conj.value.prefix.Some? ==> HasPrefix(key, f.conj.value.prefix.value)))
  }

  predicate SizeFits(size: int, above: Option<int>, below: Option<int>) {
    !(above.Some? && size <= above.value) && !(below.Some? && size >= below.value)
  }

  /** A conjunction, where there is one, stands for the whole filter but its prefix. */
  predicate Selects(r: Rule, o: EvalInput) {
    && PrefixFits(r, o.key)
    && (r.filter.Some? && r.filter.value.conj.Some? ==>
          var c := r.filter.value.conj.value;
          (forall t :: t in c.tags ==> t in o.tags) && SizeFits(o.size, c.greaterThan, c.lessThan))
    && (r.filter.Some? && r.filter.value.conj.None? ==>
          var f := r.filter.value;
          (f.tag.Some? ==> f.tag.value in o.tags) && SizeFits(o.size, f.greaterThan, f.lessThan))
  }

  // ----- when a clause is due

  /** A midnight (UTC) has passed since `days` days after `t`; times are in nanoseconds. */
  ghost predicate DaysPassed(t: int, days: int, now: int) {
    exists m :: Midnight(m) && t + days * 86_400_000_000_000 <= m <= now
  }

  predicate Midnight(m: int) {
    m % 86_400_000_000_000 == 0
  }

  lemma DaysMean(t: int, days: int, now: int)
    ensures now >= ExpiresAt(t, days) <==> DaysPassed(t, days, now)
  {
    var e := ExpiresAt(t, days);
    FirstMidnight(t, days, e);
    if now >= e { assert Midnight(e) && t + days * 86_400_000_000_000 <= e <= now; }
    if m :| Midnight(m) && t + days * 86_400_000_000_000 <= m <= now { FirstMidnight(t, days, m); }
  }

  predicate Reached(d: Date, now: int) {
    match d
    case At(time) => time <= now
    case _ => false
  }

  /** Current versions expire after their days, or at a date. */
  ghost predicate ExpiryDue(r: Rule, o: EvalInput, now: int) {
    r.expiration.Some? &&
    ((r.expiration.value.days > 0 && DaysPassed(o.modTime, r.expiration.value.days, now)) || Reached(r.expiration.value.date, now))
  }

  /** A marker that is left alone goes as its rule says, or as the rule's days or date say. */
  ghost predicate MarkerDue(r: Rule, o: EvalInput, now: int) {
    r.expiration.Some? && !o.hasOlderVersions &&
    match r.expiration.value.expiredMarker
    case Some(asked) => asked
    case None =>
      if r.expiration.value.days > 0 then DaysPassed(o.modTime, r.expiration.value.days, now) else Reached(r.expiration.value.date, now)
  }

  ghost predicate MoveDue(r: Rule, o: EvalInput, now: int, tier: StorageClass) {
    exists t :: t in r.transitions && t.tier == tier &&
      if t.date.NoDate? then DaysPassed(o.modTime, t.days, now) else Reached(t.date, now)
  }

  /** Noncurrent versions expire after their days, when enough newer noncurrent versions are kept. */
  ghost predicate NoncurrentExpiryDue(r: Rule, o: EvalInput, now: int) {
    r.noncurrent.Some? && r.noncurrent.value.newer <= o.newerNoncurrentCount && DaysPassed(o.noncurrentSince, r.noncurrent.value.days, now)
  }

  ghost predicate NoncurrentMoveDue(r: Rule, o: EvalInput, now: int, tier: StorageClass) {
    exists t :: t in r.noncurrentTransitions && t.tier == tier && t.newer <= o.newerNoncurrentCount && DaysPassed(o.noncurrentSince, t.days, now)
  }

  /** The classes from warm to cold. */
  const TIERS := [StandardIa, IntelligentTiering, OnezoneIa, GlacierIr, Glacier, DeepArchive]

  lemma TiersGetColder(c: StorageClass)
    ensures forall i, j :: 0 <= i < j < |TIERS| ==> Rank(TIERS[i]) < Rank(TIERS[j])
    ensures Rank(c) == 0 <==> c !in TIERS
  {
  }

  /** A clause of the rule asks for this action now. */
  ghost predicate AsksFor(r: Rule, o: EvalInput, now: int, kind: Kind, tier: StorageClass) {
    r.enabled && Selects(r, o) &&
    match kind
    case Nothing => false
    case ExpireCurrent => o.isLatest && !o.deleteMarker && ExpiryDue(r, o, now)
    case RemoveDeleteMarker => o.isLatest && o.deleteMarker && MarkerDue(r, o, now)
    case Transition => o.isLatest && !o.deleteMarker && MoveDue(r, o, now, tier) && Rank(tier) > Rank(o.tier)
    case ExpireNoncurrentVersion => !o.isLatest && NoncurrentExpiryDue(r, o, now)
    case NoncurrentTransition => !o.isLatest && !o.deleteMarker && NoncurrentMoveDue(r, o, now, tier) && Rank(tier) > Rank(o.tier)
  }

  // ----- one rule

  lemma SelectsMeans(r: Rule, o: EvalInput)
    ensures Matches(r, o) <==> Selects(r, o)
  {
    assert HasPrefix(o.key, []);
    hide HasPrefix;
  }

  lemma ClausesMean(r: Rule, o: EvalInput, now: int)
    ensures CurrentExpires(r, o, now) <==> ExpiryDue(r, o, now)
    ensures NoncurrentExpires(r, o, now) <==> NoncurrentExpiryDue(r, o, now)
    ensures DecideMarker(r, o, now).kind == RemoveDeleteMarker <==> MarkerDue(r, o, now)
  {
    if r.expiration.Some? { DaysMean(o.modTime, r.expiration.value.days, now); }
    if r.noncurrent.Some? { DaysMean(o.noncurrentSince, r.noncurrent.value.days, now); }
    hide DaysPassed, ExpiresAt;
  }

  /** The targets of a rule are the classes its due clauses move to. */
  lemma TargetsMean(r: Rule, o: EvalInput, now: int, tier: StorageClass)
    ensures Some(tier) in Targets(r, o, now) <==> if o.isLatest then MoveDue(r, o, now, tier) else NoncurrentMoveDue(r, o, now, tier)
  {
    hide ExpiresAt, DaysPassed;
    var s := Targets(r, o, now);
    if o.isLatest {
      forall t | t in r.transitions
        ensures Due(t, o, now) <==> if t.date.NoDate? then DaysPassed(o.modTime, t.days, now) else Reached(t.date, now)
      {
        DaysMean(o.modTime, t.days, now);
      }
      if MoveDue(r, o, now, tier) {
        var t :| t in r.transitions && t.tier == tier && Due(t, o, now);
        var i :| 0 <= i < |r.transitions| && r.transitions[i] == t;
        assert s[i] == Some(tier);
      }
    } else {
      forall t | t in r.noncurrentTransitions
        ensures NoncurrentDue(t, o, now) <==> t.newer <= o.newerNoncurrentCount && DaysPassed(o.noncurrentSince, t.days, now)
      {
        DaysMean(o.noncurrentSince, t.days, now);
      }
      if NoncurrentMoveDue(r, o, now, tier) {
        var t :| t in r.noncurrentTransitions && t.tier == tier && NoncurrentDue(t, o, now);
        var i :| 0 <= i < |r.noncurrentTransitions| && r.noncurrentTransitions[i] == t;
        assert s[i] == Some(tier);
      }
    }
  }

  /** What a rule decides it asks for, under its own name, and it decides nothing weaker than
      anything it asks for. */
  lemma VerdictMeans(r: Rule, o: EvalInput, now: int, kind: Kind, tier: StorageClass)
    ensures var a := Verdict(r, o, now);
      (a.kind != Nothing ==> AsksFor(r, o, now, a.kind, a.tier) && a.ruleId == r.id) &&
      (AsksFor(r, o, now, kind, tier) ==> Precedence(a.kind) > Precedence(kind) || (a.kind == kind && (IsMove(kind) ==> Rank(a.tier) >= Rank(tier))))
  {
    SelectsMeans(r, o);
    ClausesMean(r, o, now);
    BestMeans(r, o, now, tier);
    hide Coldest, Targets, Selects, Matches, CurrentExpires, ExpiryDue, NoncurrentExpires, NoncurrentExpiryDue, MarkerDue, MoveDue,
      NoncurrentMoveDue, Rank, ExpiresAt;
    MarkerName(r, o, now);
    hide DecideMarker;
  }

  lemma MarkerName(r: Rule, o: EvalInput, now: int)
    ensures var a := DecideMarker(r, o, now); a == NO_ACTION || (a.kind == RemoveDeleteMarker && a.ruleId == r.id)
  {
  }

  /** The chosen class is the coldest that a due clause moves to. */
  lemma BestMeans(r: Rule, o: EvalInput, now: int, tier: StorageClass)
    ensures var best := Coldest(Targets(r, o, now), o.tier, |Targets(r, o, now)|);
      (best.Some? ==>
        Rank(best.value) > Rank(o.tier) &&
        if o.isLatest then MoveDue(r, o, now, best.value) else NoncurrentMoveDue(r, o, now, best.value)) &&
      ((if o.isLatest then MoveDue(r, o, now, tier) else NoncurrentMoveDue(r, o, now, tier)) && Rank(tier) > Rank(o.tier) ==>
        best.Some? && Rank(best.value) >= Rank(tier))
  {
    var targets := Targets(r, o, now);
    var best := Coldest(targets, o.tier, |targets|);
    ColdestIs(targets, o.tier, |targets|);
    assert targets[..|targets|] == targets;
    if best.Some? { TargetsMean(r, o, now, best.value); }
    TargetsMean(r, o, now, tier);
    hide Coldest, Targets, MoveDue, NoncurrentMoveDue, Rank;
  }

  /** Expiry goes before a move. */
  predicate GoesBefore(kind: Kind, other: Kind) {
    (kind == ExpireCurrent && other == Transition) || (kind == ExpireNoncurrentVersion && other == NoncurrentTransition)
  }

  predicate IsMove(kind: Kind) {
    kind == Transition || kind == NoncurrentTransition
  }

  // ----- all rules

  /** Whatever is done, some rule that selects the version asks for it now; and nothing that a rule
      asks for is passed over but for something that goes before it: expiry before a move, and a
      move to a colder class before one to a warmer. */
  lemma EvalMeans(rules: seq<Rule>, o: EvalInput, now: int, r: Rule, kind: Kind, tier: StorageClass)
    ensures var a := Eval(rules, o, now);
      (a.kind != Nothing ==> exists q :: q in rules && q.id == a.ruleId && AsksFor(q, o, now, a.kind, a.tier)) &&
      (r in rules && AsksFor(r, o, now, kind, tier) ==>
        GoesBefore(a.kind, kind) || (a.kind == kind && (IsMove(kind) ==> Rank(a.tier) >= Rank(tier))))
  {
    var a := Eval(rules, o, now);
    EvalIsMaximum(rules, o, now);
    EvalFits(rules, o, now);
    hide Eval, Verdict, Rank;
    if a.kind != Nothing {
      var i :| 0 <= i < |rules| && ChosenAt(rules, o, now, a, i);
      VerdictMeans(rules[i], o, now, kind, tier);
      assert rules[i] in rules;
    }
    if r in rules && AsksFor(r, o, now, kind, tier) {
      var i :| 0 <= i < |rules| && rules[i] == r;
      VerdictMeans(r, o, now, kind, tier);
      assert !Beats(Verdict(rules[i], o, now), a);
    }
    hide Selects, ExpiryDue, NoncurrentExpiryDue, MarkerDue, MoveDue, NoncurrentMoveDue;
  }

  // ----- how a version is put to the rules

  ghost predicate Descends(group: seq<Version>) {
    forall i, j :: 0 <= i < j < |group| ==> group[i].seqNo > group[j].seqNo
  }

  /** The positions of the versions newer than version `n`, but for the newest of all. */
  ghost function NewerNoncurrent(group: seq<Version>, n: nat): set<nat>
    requires n < |group|
  {
    set j: nat | 0 < j < |group| && group[j].seqNo > group[n].seqNo
  }

  /** A version is current when none is newer; a noncurrent one is noncurrent since the next newer
      one was written, and is counted behind the newer noncurrent ones. */
  lemma InputMeans(group: seq<Version>, n: nat)
    requires Descends(group) && n < |group|
    ensures var i, v := Input(group, n), group[n];
      i.key == v.key && i.size == v.size && i.tags == v.tags && i.modTime == v.modTime && i.tier == v.tier && i.deleteMarker == v.deleteMarker &&
      (i.isLatest <==> forall w :: w in group ==> w.seqNo <= v.seqNo) &&
      (i.isLatest ==> (i.hasOlderVersions <==> exists w :: w in group && w.seqNo < v.seqNo)) &&
      (!i.isLatest ==>
        i.newerNoncurrentCount == |NewerNoncurrent(group, n)| &&
        exists w :: w in group && IsNextNewer(group, v, w) && i.noncurrentSince == w.modTime)
  {
    var v := group[n];
    if n > 0 {
      assert group[0].seqNo > v.seqNo && group[0] in group;
      assert IsNextNewer(group, v, group[n - 1]) && group[n - 1] in group;
      assert NewerNoncurrent(group, n) == From1(n);
    } else if |group| > 1 {
      assert group[1] in group;
    }
  }

  ghost predicate IsNextNewer(group: seq<Version>, v: Version, w: Version) {
    w.seqNo > v.seqNo && forall x :: x in group && x.seqNo > v.seqNo ==> x.seqNo >= w.seqNo
  }

  /** The numbers from 1 up to `n`. */
  function From1(n: nat): (r: set<nat>)
    requires n > 0
    ensures |r| == n - 1 && forall j :: j in r <==> 0 < j < n
  {
    if n == 1 then {} else From1(n - 1) + {n - 1}
  }

  // ----- the whole scan

  /** Record `k`, version `n` of its key, gets this candidate. */
  ghost predicate Answers(tx: Tx, bucket: Bytes, rules: seq<Rule>, now: int, k: nat, n: nat, c: Candidate)
    requires Valid(tx, bucket)
  {
    Under(tx, bucket, k) &&
    var g := VersionsOf(tx, bucket, tx.values[k].key, |tx.keys|);
    n < |g| && g[n] == tx.values[k] && c.v == tx.values[k] && c.action == Eval(rules, Input(g, n), now) && c.action.kind != Nothing
  }

  lemma {:induction false} GroupMeans(rules: seq<Rule>, g: seq<Version>, now: int, n: nat, c: Candidate)
    requires n <= |g|
    ensures c in EvalGroup(rules, g, now, n) <==>
      exists m :: 0 <= m < n && c.v == g[m] && c.action == Eval(rules, Input(g, m), now) && c.action.kind != Nothing
  {
    hide Eval, Input;
    if n > 0 { GroupMeans(rules, g, now, n - 1, c); }
  }

  /** The group that starts at `i` is answered as its key's versions. */
  lemma HereMeans(tx: Tx, bucket: Bytes, rules: seq<Rule>, now: int, i: nat, c: Candidate)
    requires Valid(tx, bucket) && Under(tx, bucket, i) && Boundary(tx, bucket, i)
    ensures var e := GroupEnd(tx, bucket, i, i + 1);
      c in EvalGroup(rules, tx.values[i..e], now, e - i) <==> exists k: nat, n: nat :: i <= k < e && Answers(tx, bucket, rules, now, k, n, c)
  {
    hide Eval, Input, Valid, Boundary, VersionsOf, EvalGroup, Seek, Successor, GroupEnd, HasPrefix, BucketPrefix, ObjectPrefix;
    SameLength(tx, bucket);
    var e := GroupEnd(tx, bucket, i, i + 1);
    var g := tx.values[i..e];
    GroupIsComplete(tx, bucket, i);
    GroupIsAllVersions(tx, bucket, i);
    GroupMeans(rules, g, now, e - i, c);
    if m :| 0 <= m < e - i && c.v == g[m] && c.action == Eval(rules, Input(g, m), now) && c.action.kind != Nothing {
      assert Answers(tx, bucket, rules, now, i + m, m, c);
    }
  }

  /** From a group boundary on, the evaluation answers exactly the records from there on. */
  lemma {:induction false} FromMeans(tx: Tx, bucket: Bytes, rules: seq<Rule>, now: int, i: nat, c: Candidate)
    requires Valid(tx, bucket) && Boundary(tx, bucket, i) && Seek(tx.keys, BucketPrefix(bucket)) <= i
    ensures c in EvalFrom(tx, bucket, rules, now, i) <==>
      exists k: nat, n: nat :: k >= i && Answers(tx, bucket, rules, now, k, n, c)
    decreases |tx.keys| - i
  {
    hide Valid, Boundary, Answers, EvalGroup, EvalFrom, Seek, Successor, GroupEnd, HasPrefix, BucketPrefix, ObjectPrefix;
    SameLength(tx, bucket);
    FromIs(tx, bucket, rules, now, i);
    if Under(tx, bucket, i) {
      GroupIsComplete(tx, bucket, i);
      HereMeans(tx, bucket, rules, now, i, c);
      FromMeans(tx, bucket, rules, now, GroupEnd(tx, bucket, i, i + 1), c);
    } else {
      NoAnswers(tx, bucket, rules, now, i, c);
    }
  }

  lemma FromIs(tx: Tx, bucket: Bytes, rules: seq<Rule>, now: int, i: nat)
    requires |tx.keys| == |tx.values|
    ensures EvalFrom(tx, bucket, rules, now, i) ==
      if !Under(tx, bucket, i) then []
      else
        var e := GroupEnd(tx, bucket, i, i + 1);
        EvalGroup(rules, tx.values[i..e], now, e - i) + EvalFrom(tx, bucket, rules, now, e)
  {
  }

  lemma NoAnswers(tx: Tx, bucket: Bytes, rules: seq<Rule>, now: int, i: nat, c: Candidate)
    requires Valid(tx, bucket) && Seek(tx.keys, BucketPrefix(bucket)) <= i && !Under(tx, bucket, i)
    ensures forall k: nat, n: nat :: k >= i ==> !Answers(tx, bucket, rules, now, k, n, c)
  {
    NoMore(tx, bucket, i);
    hide Valid, Under, VersionsOf, Eval, Input, Seek;
  }

  /** What lies under the bucket's prefix lies together. */
  lemma NoMore(tx: Tx, bucket: Bytes, i: nat)
    requires Valid(tx, bucket) && Seek(tx.keys, BucketPrefix(bucket)) <= i && !Under(tx, bucket, i)
    ensures forall k :: k >= i ==> !Under(tx, bucket, k)
  {
    var p := BucketPrefix(bucket);
    assert p[|p| - 1] == SLASH;
    var first := Seek(tx.keys, p);
    forall k | k >= i && Under(tx, bucket, k)
      ensures false
    {
      UnderFirst(tx, bucket, first, k);
      SeekSkipsPrefix(tx.keys, p, first);
    }
  }

  /** The first record at or after the prefix has it, if any later one does. */
  lemma UnderFirst(tx: Tx, bucket: Bytes, first: nat, k: nat)
    requires Valid(tx, bucket) && first == Seek(tx.keys, BucketPrefix(bucket)) && first <= k && Under(tx, bucket, k)
    ensures Under(tx, bucket, first)
  {
    var p := BucketPrefix(bucket);
    assert p[|p| - 1] == SLASH;
    BelowSuccessor(p, tx.keys[first]);
    BelowSuccessor(p, tx.keys[k]);
    hide Successor, HasPrefix, BucketPrefix;
    if first < k { LtTransitive(tx.keys[first], tx.keys[k], Successor(p).value); }
  }

  /** The scan answers every version of the bucket that some rule asks something for, seen with all the
      versions of its key, and nothing else. */
  lemma ScanMeans(tx: Tx, bucket: Bytes, rules: seq<Rule>, now: int, c: Candidate)
    requires Valid(tx, bucket)
    ensures c in EvalFrom(tx, bucket, rules, now, Seek(tx.keys, BucketPrefix(bucket))) <==>
      exists k: nat, n: nat :: Answers(tx, bucket, rules, now, k, n, c)
  {
    var first := Seek(tx.keys, BucketPrefix(bucket));
    FirstBoundary(tx, bucket);
    FromMeans(tx, bucket, rules, now, first, c);
    forall k: nat, n: nat | Answers(tx, bucket, rules, now, k, n, c)
      ensures k >= first
    {
      UnderFrom(tx, bucket, k);
    }
    hide Valid, Answers, EvalFrom, Seek, Boundary;
  }

  lemma UnderFrom(tx: Tx, bucket: Bytes, k: nat)
    requires Valid(tx, bucket) && Under(tx, bucket, k)
    ensures k >= Seek(tx.keys, BucketPrefix(bucket))
  {
    hide BucketPrefix, HasPrefix;
    PrefixLe(BucketPrefix(bucket), tx.keys[k]);
    if tx.keys[k] != BucketPrefix(bucket) { LtAsymmetric(BucketPrefix(bucket), tx.keys[k]); }
    LtIrreflexive(tx.keys[k]);
  }

  ghost predicate Once(cs: seq<Candidate>) {
    forall i, j :: 0 <= i < j < |cs| ==> (cs[i].v.key, cs[i].v.seqNo) != (cs[j].v.key, cs[j].v.seqNo)
  }

  /** No version is answered twice. */
  lemma {:induction false} ScanIsOnce(tx: Tx, bucket: Bytes, rules: seq<Rule>, now: int, i: nat)
    requires Valid(tx, bucket) && Boundary(tx, bucket, i) && Seek(tx.keys, BucketPrefix(bucket)) <= i
    ensures Once(EvalFrom(tx, bucket, rules, now, i))
    decreases |tx.keys| - i
  {
    hide Valid, Boundary, Answers, EvalGroup, EvalFrom, Seek, Successor, GroupEnd, HasPrefix, BucketPrefix, ObjectPrefix;
    SameLength(tx, bucket);
    FromIs(tx, bucket, rules, now, i);
    if Under(tx, bucket, i) {
      var e := GroupEnd(tx, bucket, i, i + 1);
      var here, rest := EvalGroup(rules, tx.values[i..e], now, e - i), EvalFrom(tx, bucket, rules, now, e);
      GroupIsComplete(tx, bucket, i);
      ScanIsOnce(tx, bucket, rules, now, e);
      GroupIsOnce(tx, bucket, rules, now, i, e, e - i);
      forall x, y | 0 <= x < |here| && 0 <= y < |rest|
        ensures here[x].v.key != rest[y].v.key
      {
        KeysApart(tx, bucket, rules, now, i, here[x], rest[y]);
      }
    }
  }

  lemma KeysApart(tx: Tx, bucket: Bytes, rules: seq<Rule>, now: int, i: nat, c: Candidate, d: Candidate)
    requires Valid(tx, bucket) && Under(tx, bucket, i) && Boundary(tx, bucket, i) && Seek(tx.keys, BucketPrefix(bucket)) <= i
    requires var e := GroupEnd(tx, bucket, i, i + 1);
      c in EvalGroup(rules, tx.values[i..e], now, e - i) && d in EvalFrom(tx, bucket, rules, now, e)
    ensures c.v.key != d.v.key
  {
    hide Valid, Boundary, EvalGroup, EvalFrom, Seek, Successor, GroupEnd, HasPrefix, BucketPrefix, ObjectPrefix, VersionsOf, Eval, Input;
    SameLength(tx, bucket);
    GroupIsComplete(tx, bucket, i);
    HereMeans(tx, bucket, rules, now, i, c);
    FromMeans(tx, bucket, rules, now, GroupEnd(tx, bucket, i, i + 1), d);
  }

  lemma {:induction false} GroupIsOnce(tx: Tx, bucket: Bytes, rules: seq<Rule>, now: int, i: nat, e: nat, n: nat)
    requires Valid(tx, bucket) && i <= e <= |tx.keys| && n <= e - i
    requires forall k :: i <= k < e ==> Under(tx, bucket, k) && tx.values[k].key == tx.values[i].key
    ensures Once(EvalGroup(rules, tx.values[i..e], now, n))
  {
    hide Eval, Input, Valid, Under, EvalGroup;
    SameLength(tx, bucket);
    var g := tx.values[i..e];
    GroupIs(rules, g, now, n);
    if n > 0 {
      GroupIsOnce(tx, bucket, rules, now, i, e, n - 1);
      var before := EvalGroup(rules, g, now, n - 1);
      forall c | c in before
        ensures c.v.seqNo != g[n - 1].seqNo
      {
        Older(tx, bucket, rules, now, i, e, n, c);
      }
      hide Once;
      OnceMore(before, Candidate(g[n - 1], Eval(rules, Input(g, n - 1), now)));
    }
  }

  lemma OnceMore(cs: seq<Candidate>, c: Candidate)
    requires Once(cs) && forall d :: d in cs ==> d.v.seqNo != c.v.seqNo
    ensures Once(cs + [c]) && cs + [] == cs
  {
  }

  lemma Older(tx: Tx, bucket: Bytes, rules: seq<Rule>, now: int, i: nat, e: nat, n: nat, c: Candidate)
    requires Valid(tx, bucket) && i <= e <= |tx.keys| && 0 < n <= e - i
    requires forall k :: i <= k < e ==> Under(tx, bucket, k) && tx.values[k].key == tx.values[i].key
    requires c in EvalGroup(rules, tx.values[i..e], now, n - 1)
    ensures c.v.seqNo != tx.values[i..e][n - 1].seqNo
  {
    hide Eval, Input, Valid, Under, EvalGroup;
    SameLength(tx, bucket);
    var g := tx.values[i..e];
    GroupMeans(rules, g, now, n - 1, c);
    var m :| 0 <= m < n - 1 && c.v == g[m];
    NewestFirst(tx, bucket, i + m, i + n - 1);
  }

  lemma GroupIs(rules: seq<Rule>, g: seq<Version>, now: int, n: nat)
    requires n <= |g|
    ensures EvalGroup(rules, g, now, n) ==
      if n == 0 then []
      else
        var a := Eval(rules, Input(g, n - 1), now);
        EvalGroup(rules, g, now, n - 1) + if a.kind != Nothing then [Candidate(g[n - 1], a)] else []
  {
  }
}
