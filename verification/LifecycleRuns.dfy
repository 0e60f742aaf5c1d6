/** The actions of the lifecycle worker wear out: without client writes only boundedly many take
    effect, and what is deleted stays deleted (internal/lifecycle/worker.go, apply, over
    internal/object/delete.go). */
module LifecycleRuns {
  import opened Kv
  import opened Lifecycle
  import opened LifecycleScan

  datatype Versioning = Unversioned | Enabled | Suspended

  /** A stored version; `isNull` marks the version with ID "null". */
  datatype Stored = Stored(v: Version, isNull: bool)

  /** A bucket: its keys with their versions, newest first. `next` is above every sequence. */
  datatype Bucket = Bucket(versioning: Versioning, keys: map<Bytes, seq<Stored>>, next: nat)

  // ----- what an action does

  /** The versions of a key; none when it does not exist. */
  function Of(b: Bucket, key: Bytes): seq<Stored> {
    if key in b.keys then b.keys[key] else []
  }

  function With(b: Bucket, key: Bytes, vs: seq<Stored>): Bucket {
    if vs == [] then b.(keys := b.keys - {key}) else b.(keys := b.keys[key := vs])
  }

  function Find(vs: seq<Stored>, seqNo: nat): (i: nat)
    ensures i <= |vs| && (i < |vs| ==> vs[i].v.seqNo == seqNo) && forall j :: 0 <= j < i ==> vs[j].v.seqNo != seqNo
  {
    if vs == [] || vs[0].v.seqNo == seqNo then 0 else 1 + Find(vs[1..], seqNo)
  }

  function FindNull(vs: seq<Stored>): (i: nat)
    ensures i <= |vs| && (i < |vs| ==> vs[i].isNull) && forall j :: 0 <= j < i ==> !vs[j].isNull
  {
    if vs == [] || vs[0].isNull then 0 else 1 + FindNull(vs[1..])
  }

  function Remove(vs: seq<Stored>, i: nat): seq<Stored> {
    if i < |vs| then vs[..i] + vs[i + 1..] else vs
  }

  function Marker(key: Bytes, seqNo: nat, now: int, isNull: bool): Stored {
    Stored(Version(key, seqNo, 0, [], now, Standard, true), isNull)
  }

  /** The deletion of the current version of a key, if it is still the one with sequence `seqNo`. */
  function DeleteCurrent(b: Bucket, key: Bytes, seqNo: nat, now: int): Bucket {
    var vs := Of(b, key);
    if vs == [] || vs[0].v.seqNo != seqNo then b
    else
      match b.versioning
      case Enabled => With(b, key, [Marker(key, b.next, now, false)] + vs).(next := b.next + 1)
      case Suspended => With(b, key, [Marker(key, b.next, now, true)] + Remove(vs, FindNull(vs))).(next := b.next + 1)
      case Unversioned => With(b, key, vs[1..])
  }

  /** One action on the bucket as it now stands; `refused` says that an object lock forbids it.
      An action that no longer applies changes nothing. */
  function Apply(b: Bucket, c: Candidate, now: int, refused: bool): Bucket {
    var key, seqNo := c.v.key, c.v.seqNo;
    var vs := Of(b, key);
    var i := Find(vs, seqNo);
    if refused then b
    else
      match c.action.kind
      case Nothing => b
      case ExpireCurrent => DeleteCurrent(b, key, seqNo, now)
      case ExpireNoncurrentVersion => if i < |vs| then With(b, key, Remove(vs, i)) else b
      case RemoveDeleteMarker => if i < |vs| then With(b, key, Remove(vs, i)) else b
      case _ =>
        if i < |vs| && !vs[i].v.deleteMarker && Rank(c.action.tier) > Rank(vs[i].v.tier)
        then With(b, key, vs[i := vs[i].(v := vs[i].v.(tier := c.action.tier))]) else b
  }

  // ----- the invariant

  /** Sequences are distinct and below `next`, and an unversioned bucket holds one version per key. */
  ghost predicate Valid(b: Bucket) {
    forall key :: key in b.keys ==> ValidKey(b, key, b.keys[key])
  }

  predicate ValidKey(b: Bucket, key: Bytes, vs: seq<Stored>) {
    && vs != []
    && (forall i :: 0 <= i < |vs| ==> vs[i].v.key == key && vs[i].v.seqNo < b.next)
    && (forall i, j :: 0 <= i < j < |vs| ==> vs[i].v.seqNo != vs[j].v.seqNo)
    && (b.versioning == Unversioned ==> |vs| == 1)
  }

  /** What a decided action may count on until it is applied, whatever other decided actions are
      applied before it. */
  predicate Sound(b: Bucket, c: Candidate) {
    var vs := Of(b, c.v.key);
    var i := Find(vs, c.v.seqNo);
    c.v.seqNo < b.next &&
    (i < |vs| ==>
      match c.action.kind
      case ExpireCurrent => !vs[i].v.deleteMarker
      case ExpireNoncurrentVersion => i > 0
      case RemoveDeleteMarker => |vs| == 1 && vs[i].v.deleteMarker
      case _ => true)
  }

  function Plain(vs: seq<Stored>): (s: seq<Version>)
    ensures |s| == |vs| && forall i :: 0 <= i < |vs| ==> s[i] == vs[i].v
  {
    seq(|vs|, i requires 0 <= i < |vs| => vs[i].v)
  }

  /** What the worker decides for a key is sound at that moment. */
  lemma {:induction false} DecidedIsSound(b: Bucket, key: Bytes, rules: seq<Rule>, now: int, n: nat, c: Candidate)
    requires Valid(b) && key in b.keys && n <= |b.keys[key]| && c in EvalGroup(rules, Plain(b.keys[key]), now, n)
    ensures Sound(b, c) && c.v.key == key
  {
    var vs := b.keys[key];
    hide Eval;
    if n > 0 {
      if c in EvalGroup(rules, Plain(vs), now, n - 1) {
        DecidedIsSound(b, key, rules, now, n - 1, c);
      } else {
        EvalFits(rules, Input(Plain(vs), n - 1), now);
        assert ValidKey(b, key, vs);
        assert c.v == vs[n - 1].v;
        assert Find(vs, c.v.seqNo) == n - 1;
      }
    }
  }

  // ----- what an applied action does to the versions of its key

  /** Nothing, or a new marker on top of a live version, or one version gone that was not the
      current one of several, or one version moved to a colder class. */
  datatype Effect = Same | Topped(rest: seq<Stored>) | Dropped(i: nat) | Cooled(i: nat, tier: StorageClass)

  ghost predicate Has(b: Bucket, vs: seq<Stored>, vs': seq<Stored>, x: Effect, now: int) {
    match x
    case Same => vs' == vs
    case Topped(rest) =>
      && vs != [] && !vs[0].v.deleteMarker && b.versioning != Unversioned
      && (rest == vs || (FindNull(vs) < |vs| && rest == Remove(vs, FindNull(vs))))
      && vs' == [Marker(vs[0].v.key, b.next, now, b.versioning == Suspended)] + rest
    case Dropped(i) => i < |vs| && (i > 0 || |vs| == 1) && vs' == Remove(vs, i)
    case Cooled(i, tier) =>
      i < |vs| && !vs[i].v.deleteMarker && Rank(tier) > Rank(vs[i].v.tier) && vs' == vs[i := vs[i].(v := vs[i].v.(tier := tier))]
  }

  lemma ApplyHas(b: Bucket, c: Candidate, now: int, refused: bool) returns (x: Effect)
    requires Valid(b) && Sound(b, c)
    ensures Has(b, Of(b, c.v.key), Of(Apply(b, c, now, refused), c.v.key), x, now)
    ensures forall key :: key != c.v.key ==> Of(Apply(b, c, now, refused), key) == Of(b, key)
    ensures var b' := Apply(b, c, now, refused);
      b'.versioning == b.versioning && b'.next >= b.next && (x.Topped? ==> b'.next == b.next + 1) &&
      (x == Same || b' == With(b, c.v.key, Of(b', c.v.key)).(next := b'.next))
    ensures x == Same <==> Apply(b, c, now, refused) == b
  {
    var key := c.v.key;
    var vs := Of(b, key);
    var i := Find(vs, c.v.seqNo);
    if key in b.keys { assert ValidKey(b, key, vs); }
    if Apply(b, c, now, refused) == b {
      x := Same;
    } else {
      match c.action.kind
      case ExpireCurrent =>
        if b.versioning == Unversioned {
          assert Remove(vs, 0) == vs[1..];
          x := Dropped(0);
        } else {
          x := Topped(if b.versioning == Enabled then vs else Remove(vs, FindNull(vs)));
        }
      case ExpireNoncurrentVersion => x := Dropped(i);
      case RemoveDeleteMarker => x := Dropped(i);
      case _ => x := Cooled(i, c.action.tier);
    }
  }

  /** A transition that still applies moves its version to the colder class, and nothing else changes. */
  lemma TransitionTakes(b: Bucket, c: Candidate, now: int, i: nat)
    requires Valid(b) && (c.action.kind == Transition || c.action.kind == NoncurrentTransition)
    requires i < |Of(b, c.v.key)| && Of(b, c.v.key)[i].v.seqNo == c.v.seqNo
    requires !Of(b, c.v.key)[i].v.deleteMarker && Rank(c.action.tier) > Rank(Of(b, c.v.key)[i].v.tier)
    ensures var vs, vs' := Of(b, c.v.key), Of(Apply(b, c, now, false), c.v.key);
      |vs'| == |vs| && vs'[i] == vs[i].(v := vs[i].v.(tier := c.action.tier)) && forall j :: 0 <= j < |vs| && j != i ==> vs'[j] == vs[j]
    ensures forall key :: key != c.v.key ==> Of(Apply(b, c, now, false), key) == Of(b, key)
  {
    assert ValidKey(b, c.v.key, Of(b, c.v.key));
    FindIs(Of(b, c.v.key), i);
  }

  /** In a list of distinct sequences the first position is the only one. */
  lemma FindIs(vs: seq<Stored>, i: nat)
    requires i < |vs| && forall j, k :: 0 <= j < k < |vs| ==> vs[j].v.seqNo != vs[k].v.seqNo
    ensures Find(vs, vs[i].v.seqNo) == i
  {
  }

  /** Removing a version leaves versions of the same key with distinct sequences. */
  lemma RemoveKeeps(vs: seq<Stored>, n: nat, key: Bytes, next: nat)
    requires Distinct(vs, key, next)
    ensures Distinct(Remove(vs, n), key, next)
  {
    var rest := Remove(vs, n);
    forall i, j | 0 <= i < j < |rest|
      ensures rest[i].v.seqNo != rest[j].v.seqNo
    {
      var k, l := if i < n then i else i + 1, if j < n then j else j + 1;
      if n < |vs| { assert vs[k] == rest[i] && vs[l] == rest[j]; }
    }
  }

  predicate Distinct(vs: seq<Stored>, key: Bytes, next: nat) {
    && (forall i :: 0 <= i < |vs| ==> vs[i].v.key == key && vs[i].v.seqNo < next)
    && (forall i, j :: 0 <= i < j < |vs| ==> vs[i].v.seqNo != vs[j].v.seqNo)
  }

  lemma TopKeeps(m: Stored, rest: seq<Stored>, key: Bytes, next: nat)
    requires Distinct(rest, key, next) && m.v.key == key && m.v.seqNo == next
    ensures Distinct([m] + rest, key, next + 1)
  {
  }

  lemma KeyStaysValid(b: Bucket, b': Bucket, key: Bytes, vs: seq<Stored>, vs': seq<Stored>, x: Effect, now: int)
    requires ValidKey(b, key, vs) && Has(b, vs, vs', x, now) && b'.versioning == b.versioning && b'.next >= b.next
    requires x.Topped? ==> b'.next == b.next + 1
    ensures vs' == [] || ValidKey(b', key, vs')
  {
    assert Distinct(vs, key, b.next);
    match x
    case Same =>
    case Topped(rest) =>
      RemoveKeeps(vs, FindNull(vs), key, b.next);
      hide Distinct, Remove;
      TopKeeps(Marker(vs[0].v.key, b.next, now, b.versioning == Suspended), rest, key, b.next);
      DistinctIs(b', key, vs');
    case Dropped(i) => RemoveKeeps(vs, i, key, b.next);
    case Cooled(_, _) =>
  }

  lemma DistinctIs(b: Bucket, key: Bytes, vs: seq<Stored>)
    requires Distinct(vs, key, b.next) && b.versioning != Unversioned && vs != []
    ensures ValidKey(b, key, vs)
  {
  }

  /** A decided action stays sound when the versions of its key change. */
  lemma KeyStaysSound(b: Bucket, key: Bytes, vs: seq<Stored>, vs': seq<Stored>, x: Effect, now: int, seqNo: nat, kind: Kind)
    requires ValidKey(b, key, vs) && Has(b, vs, vs', x, now) && SoundFor(vs, seqNo, kind) && seqNo < b.next
    ensures SoundFor(vs', seqNo, kind)
  {
    var i := Find(vs', seqNo);
    if i < |vs'| {
      match x
      case Same =>
      case Topped(rest) => ToppedSound(b, vs, vs', rest, now, seqNo, kind);
      case Dropped(n) => DroppedSound(b, vs, vs', n, now, seqNo, kind);
      case Cooled(n, _) => FindIs(vs, i);
    }
  }

  lemma DroppedSound(b: Bucket, vs: seq<Stored>, vs': seq<Stored>, n: nat, now: int, seqNo: nat, kind: Kind)
    requires Has(b, vs, vs', Dropped(n), now) && SoundFor(vs, seqNo, kind)
    requires forall j, k :: 0 <= j < k < |vs| ==> vs[j].v.seqNo != vs[k].v.seqNo
    ensures SoundFor(vs', seqNo, kind)
  {
    var i := Find(vs', seqNo);
    if i < |vs'| {
      var j := if i < n then i else i + 1;
      assert vs[j] == vs'[i];
      FindIs(vs, j);
    }
    hide Find;
  }

  lemma ToppedSound(b: Bucket, vs: seq<Stored>, vs': seq<Stored>, rest: seq<Stored>, now: int, seqNo: nat, kind: Kind)
    requires Has(b, vs, vs', Topped(rest), now) && SoundFor(vs, seqNo, kind) && seqNo < b.next
    requires forall j, k :: 0 <= j < k < |vs| ==> vs[j].v.seqNo != vs[k].v.seqNo
    ensures SoundFor(vs', seqNo, kind)
  {
    var i := Find(vs', seqNo);
    if i < |vs'| {
      assert i > 0 && rest[i - 1].v.seqNo == seqNo;
      var n := FindNull(vs);
      var j := if rest == vs || i - 1 < n then i - 1 else i;
      assert vs[j] == rest[i - 1];
      FindIs(vs, j);
    }
  }

  predicate SoundFor(vs: seq<Stored>, seqNo: nat, kind: Kind) {
    var i := Find(vs, seqNo);
    i < |vs| ==>
      match kind
      case ExpireCurrent => !vs[i].v.deleteMarker
      case ExpireNoncurrentVersion => i > 0
      case RemoveDeleteMarker => |vs| == 1 && vs[i].v.deleteMarker
      case _ => true
  }

  /** Applying one sound action keeps the bucket valid and leaves the other actions sound. */
  lemma StaysSound(b: Bucket, c: Candidate, d: Candidate, now: int, refused: bool)
    requires Valid(b) && Sound(b, c) && Sound(b, d)
    ensures Valid(Apply(b, c, now, refused)) && Sound(Apply(b, c, now, refused), d)
  {
    var b', key := Apply(b, c, now, refused), c.v.key;
    var x := ApplyHas(b, c, now, refused);
    hide Apply, Has;
    if x != Same {
      if key in b.keys { assert ValidKey(b, key, Of(b, key)); } else { NothingThere(b, x, Of(b', key), now); }
      KeyStaysValid(b, b', key, Of(b, key), Of(b', key), x, now);
      if d.v.key == key { KeyStaysSound(b, key, Of(b, key), Of(b', key), x, now, d.v.seqNo, d.action.kind); }
    }
  }

  lemma NothingThere(b: Bucket, x: Effect, vs': seq<Stored>, now: int)
    requires Has(b, [], vs', x, now)
    ensures x == Same
  {
  }

  // ----- the measure

  /** Two for a live current version, one for each version, and for each version that is not a
      marker the classes still below it. */
  function Weight(vs: seq<Stored>): nat {
    |vs| + (if Live(vs) then 2 else 0) + Warmth(vs)
  }

  predicate Live(vs: seq<Stored>) {
    vs != [] && !vs[0].v.deleteMarker
  }

  function Warmth(vs: seq<Stored>): nat {
    if vs == [] then 0 else Warmth(vs[..|vs| - 1]) + One(vs[|vs| - 1])
  }

  function One(s: Stored): nat {
    if s.v.deleteMarker then 0 else COLDEST - Rank(s.v.tier)
  }

  lemma {:induction false} WarmthSplit(vs: seq<Stored>, i: nat)
    requires i < |vs|
    ensures Warmth(vs) == Warmth(vs[..i]) + One(vs[i]) + Warmth(vs[i + 1..])
    decreases |vs|
  {
    var init := vs[..|vs| - 1];
    if i < |vs| - 1 {
      WarmthSplit(init, i);
      assert init[..i] == vs[..i] && vs[i + 1..][..|vs| - i - 2] == init[i + 1..];
    }
  }

  lemma {:induction false} WarmthConcat(a: seq<Stored>, b: seq<Stored>)
    ensures Warmth(a + b) == Warmth(a) + Warmth(b)
    decreases |b|
  {
    if b == [] {
      assert a + b == a;
    } else {
      WarmthConcat(a, b[..|b| - 1]);
      assert (a + b)[..|a + b| - 1] == a + b[..|b| - 1];
    }
  }

  lemma WarmthRemove(vs: seq<Stored>, i: nat)
    requires i < |vs|
    ensures Warmth(Remove(vs, i)) == Warmth(vs) - One(vs[i])
  {
    WarmthSplit(vs, i);
    WarmthConcat(vs[..i], vs[i + 1..]);
  }

  lemma WarmthUpdate(vs: seq<Stored>, i: nat, s: Stored)
    requires i < |vs|
    ensures Warmth(vs[i := s]) == Warmth(vs) - One(vs[i]) + One(s)
  {
    WarmthSplit(vs, i);
    WarmthSplit(vs[i := s], i);
    assert vs[i := s][..i] == vs[..i] && vs[i := s][i + 1..] == vs[i + 1..];
  }

  /** Every effect makes the key lighter, and a key that is not live never becomes live. */
  lemma Lighter(b: Bucket, vs: seq<Stored>, vs': seq<Stored>, x: Effect, now: int)
    requires Has(b, vs, vs', x, now) && x != Same
    ensures Weight(vs') < Weight(vs)
    ensures !Live(vs) ==> !Live(vs')
  {
    hide Warmth;
    match x
    case Topped(rest) =>
      var m := Marker(vs[0].v.key, b.next, now, b.versioning == Suspended);
      WarmthConcat([m], rest);
      WarmthSplit([m], 0);
      if rest != vs { WarmthRemove(vs, FindNull(vs)); }
      assert Warmth([]) == 0 by { NoWarmth(); }
      assert [m][..0] == [] && [m][1..] == [];
    case Dropped(i) => WarmthRemove(vs, i);
    case Cooled(i, tier) => WarmthUpdate(vs, i, vs[i].(v := vs[i].v.(tier := tier)));
  }

  lemma NoWarmth()
    ensures Warmth([]) == 0
  {
  }

  ghost function Total(m: map<Bytes, seq<Stored>>): nat
    decreases |m|
  {
    if m == map[] then 0
    else
      var k :| k in m;
      Weight(m[k]) + Total(m - {k})
  }

  lemma {:induction false} TotalWithout(m: map<Bytes, seq<Stored>>, k: Bytes)
    requires k in m
    ensures Total(m) == Weight(m[k]) + Total(m - {k})
    decreases |m|
  {
    hide Weight;
    var j :| j in m && Total(m) == Weight(m[j]) + Total(m - {j});
    if j != k {
      TotalWithout(m - {j}, k);
      TotalWithout(m - {k}, j);
      assert m - {j} - {k} == m - {k} - {j};
    }
  }

  lemma TotalWith(b: Bucket, key: Bytes, vs: seq<Stored>)
    ensures Total(With(b, key, vs).keys) == Total(b.keys) - Weight(Of(b, key)) + Weight(vs)
  {
    hide Weight;
    NoWeight();
    if key in b.keys { TotalWithout(b.keys, key); } else { assert b.keys - {key} == b.keys; }
    if vs != [] {
      TotalWithout(b.keys[key := vs], key);
      assert b.keys[key := vs] - {key} == b.keys - {key};
    }
  }

  lemma NoWeight()
    ensures Weight([]) == 0
  {
  }

  /** An action that takes effect makes the bucket lighter. */
  lemma ApplyLightens(b: Bucket, c: Candidate, now: int, refused: bool)
    requires Valid(b) && Sound(b, c) && Apply(b, c, now, refused) != b
    ensures Total(Apply(b, c, now, refused).keys) < Total(b.keys)
  {
    var x := ApplyHas(b, c, now, refused);
    var b', key := Apply(b, c, now, refused), c.v.key;
    hide Apply, Has, Weight, Total;
    Lighter(b, Of(b, key), Of(b', key), x, now);
    TotalWith(b, key, Of(b', key));
  }

  /** A key that is not live stays so. */
  lemma ApplyNeverRevives(b: Bucket, c: Candidate, now: int, refused: bool, key: Bytes)
    requires Valid(b) && Sound(b, c) && !Live(Of(b, key))
    ensures !Live(Of(Apply(b, c, now, refused), key))
  {
    var x := ApplyHas(b, c, now, refused);
    var b' := Apply(b, c, now, refused);
    hide Apply, Has;
    if key == c.v.key && x != Same { Lighter(b, Of(b, key), Of(b', key), x, now); }
  }

  // ----- runs

  /** The worker between two steps: the actions decided and not yet applied. */
  datatype State = State(b: Bucket, pending: seq<Candidate>)

  /** The worker scans a key under some rules at some time, applies the first pending action at
      some time, or starts over. */
  datatype Step = Scan(key: Bytes, rules: seq<Rule>, now: int) | Act(time: int, refused: bool) | Restart

  function Do(s: State, st: Step): State {
    match st
    case Scan(key, rules, now) =>
      if key in s.b.keys then s.(pending := s.pending + EvalGroup(rules, Plain(s.b.keys[key]), now, |s.b.keys[key]|)) else s
    case Act(time, refused) =>
      if s.pending == [] then s else State(Apply(s.b, s.pending[0], time, refused), s.pending[1..])
    case Restart => s.(pending := [])
  }

  ghost predicate Inv(s: State) {
    Valid(s.b) && forall c :: c in s.pending ==> Sound(s.b, c)
  }

  lemma StepKeeps(s: State, st: Step)
    requires Inv(s)
    ensures Inv(Do(s, st))
  {
    hide Apply, Sound, Valid;
    match st
    case Scan(key, rules, now) =>
      if key in s.b.keys {
        forall c | c in EvalGroup(rules, Plain(s.b.keys[key]), now, |s.b.keys[key]|)
          ensures Sound(s.b, c)
        {
          DecidedIsSound(s.b, key, rules, now, |s.b.keys[key]|, c);
        }
      }
    case Act(time, refused) =>
      if s.pending != [] {
        StaysSound(s.b, s.pending[0], s.pending[0], time, refused);
        forall c | c in s.pending[1..]
          ensures Sound(Apply(s.b, s.pending[0], time, refused), c)
        {
          StaysSound(s.b, s.pending[0], c, time, refused);
        }
      }
    case Restart =>
  }

  ghost predicate IsRun(states: seq<State>, steps: seq<Step>) {
    |states| == |steps| + 1 && Valid(states[0].b) && states[0].pending == [] &&
    forall i :: 0 <= i < |steps| ==> states[i + 1] == Do(states[i], steps[i])
  }

  /** The number of actions among the first `n` steps that changed something. */
  ghost function Effective(states: seq<State>, n: nat): nat
    requires n < |states|
  {
    if n == 0 then 0 else Effective(states, n - 1) + if states[n].b != states[n - 1].b then 1 else 0
  }

  lemma {:induction false} RunInv(states: seq<State>, steps: seq<Step>, i: nat)
    requires IsRun(states, steps) && i < |states|
    ensures Inv(states[i])
  {
    hide Inv, Do;
    if i == 0 {
      StartsSound(states[0]);
    } else {
      RunInv(states, steps, i - 1);
      assert states[i] == Do(states[i - 1], steps[i - 1]);
      StepKeeps(states[i - 1], steps[i - 1]);
    }
  }

  lemma StartsSound(s: State)
    requires Valid(s.b) && s.pending == []
    ensures Inv(s)
  {
  }

  /** However many passes run, with whatever rules and clocks: the actions that take effect and
      the weight that is left never exceed the weight at the start. */
  lemma {:induction false} ActionsAreBounded(states: seq<State>, steps: seq<Step>, n: nat)
    requires IsRun(states, steps) && n < |states|
    ensures Effective(states, n) + Total(states[n].b.keys) <= Total(states[0].b.keys)
  {
    hide Total, Apply, Sound, Valid, EvalGroup;
    if n > 0 {
      ActionsAreBounded(states, steps, n - 1);
      RunInv(states, steps, n - 1);
      var s := states[n - 1];
      assert states[n] == Do(s, steps[n - 1]);
      if states[n].b != s.b {
        assert s.pending[0] in s.pending;
        ApplyLightens(s.b, s.pending[0], steps[n - 1].time, steps[n - 1].refused);
      }
    }
  }

  /** A key whose latest version is a delete marker never becomes live again. */
  lemma {:induction false} DeletedStaysDeleted(states: seq<State>, steps: seq<Step>, i: nat, j: nat, key: Bytes)
    requires IsRun(states, steps) && i <= j < |states| && !Live(Of(states[i].b, key))
    ensures !Live(Of(states[j].b, key))
    decreases j
  {
    hide Live, Of, Apply, Sound, Valid, EvalGroup;
    if i < j {
      DeletedStaysDeleted(states, steps, i, j - 1, key);
      RunInv(states, steps, j - 1);
      var s := states[j - 1];
      assert states[j] == Do(s, steps[j - 1]);
      if steps[j - 1].Act? && s.pending != [] {
        assert s.pending[0] in s.pending;
        ApplyNeverRevives(s.b, s.pending[0], steps[j - 1].time, steps[j - 1].refused, key);
      }
    }
  }
}
