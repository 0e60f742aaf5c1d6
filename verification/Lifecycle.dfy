/** Lifecycle rules and what they decide for one version (internal/lifecycle/eval.go). */
module Lifecycle {
  import opened Kv

  datatype StorageClass =
    | Standard | ReducedRedundancy | ExpressOnezone | Outposts | StandardIa | IntelligentTiering | OnezoneIa
    | GlacierIr | Glacier | DeepArchive | Other(name: string)

  const COLDEST: nat := 6

  function Rank(c: StorageClass): (r: nat)
    ensures r <= COLDEST
  {
    match c
    case StandardIa => 1
    case IntelligentTiering => 2
    case OnezoneIa => 3
    case GlacierIr => 4
    case Glacier => 5
    case DeepArchive => 6
    case _ => 0
  }

  datatype Kind = Nothing | NoncurrentTransition | Transition | RemoveDeleteMarker | ExpireNoncurrentVersion | ExpireCurrent

  /** Higher kinds take precedence. */
  function Precedence(k: Kind): nat {
    match k
    case Nothing => 0
    case NoncurrentTransition => 1
    case Transition => 2
    case RemoveDeleteMarker => 3
    case ExpireNoncurrentVersion => 4
    case ExpireCurrent => 5
  }

  datatype Action = Action(kind: Kind, tier: StorageClass, ruleId: string)

  const NO_ACTION := Action(Nothing, Standard, "")

  datatype Tag = Tag(key: string, value: string)

  datatype EvalInput = EvalInput(key: Bytes, size: int, tags: seq<Tag>, modTime: int, tier: StorageClass, isLatest: bool,
                                 deleteMarker: bool, hasOlderVersions: bool, noncurrentSince: int, newerNoncurrentCount: nat)

  /** An absent date, one that does not parse, or a moment. */
  datatype Date = NoDate | BadDate | At(time: int)

  datatype Filter = Filter(prefix: Option<Bytes>, tag: Option<Tag>, greaterThan: Option<int>, lessThan: Option<int>, conj: Option<And>)
  datatype And = And(prefix: Option<Bytes>, tags: seq<Tag>, greaterThan: Option<int>, lessThan: Option<int>)
  datatype Expiration = Expiration(days: int, date: Date, expiredMarker: Option<bool>)
  datatype NoncurrentExpiration = NoncurrentExpiration(days: int, newer: int)
  datatype TransitionRule = TransitionRule(days: int, date: Date, tier: StorageClass)
  datatype NoncurrentRule = NoncurrentRule(days: int, newer: int, tier: StorageClass)

  datatype Rule = Rule(id: string, enabled: bool, prefix: Option<Bytes>, filter: Option<Filter>, expiration: Option<Expiration>,
                       noncurrent: Option<NoncurrentExpiration>, transitions: seq<TransitionRule>,
                       noncurrentTransitions: seq<NoncurrentRule>)

  // ----- time

  const DAY: int := 24 * 60 * 60 * 1_000_000_000

  /** `days` days after `t`, rounded up to midnight. */
  function ExpiresAt(t: int, days: int): (m: int) {
    var x := t + days * DAY;
    if x % DAY == 0 then x else x - x % DAY + DAY
  }

  /** It is the first midnight that is not before that moment. */
  lemma FirstMidnight(t: int, days: int, m: int)
    ensures ExpiresAt(t, days) % DAY == 0 && t + days * DAY <= ExpiresAt(t, days) < t + days * DAY + DAY
    ensures m % DAY == 0 && t + days * DAY <= m ==> ExpiresAt(t, days) <= m
  {
    var x := t + days * DAY;
    Midnights(x / DAY + 1);
    assert x == DAY * (x / DAY) + x % DAY;
    if m % DAY == 0 && x <= m {
      assert m == DAY * (m / DAY);
      if m / DAY <= x / DAY { assert DAY * (m / DAY) <= DAY * (x / DAY); } else { assert DAY * (m / DAY) >= DAY * (x / DAY + 1); }
    }
  }

  lemma Midnights(q: int)
    ensures (DAY * q) % DAY == 0
  {
  }

  predicate DateReached(d: Date, now: int) {
    d.At? && now >= d.time
  }

  // ----- filters

  function FilterPrefix(r: Rule): Bytes {
    if r.prefix.Some? then r.prefix.value
    else if r.filter.None? then []
    else if r.filter.value.prefix.Some? then r.filter.value.prefix.value
    else if r.filter.value.conj.Some? && r.filter.value.conj.value.prefix.Some? then r.filter.value.conj.value.prefix.value
    else []
  }

  predicate InSize(size: int, gt: Option<int>, lt: Option<int>) {
    (gt.Some? ==> size > gt.value) && (lt.Some? ==> size < lt.value)
  }

  predicate HasTags(o: EvalInput, tags: seq<Tag>) {
    forall t :: t in tags ==> t in o.tags
  }

  predicate Matches(r: Rule, o: EvalInput) {
    && HasPrefix(o.key, FilterPrefix(r))
    && (r.filter.Some? ==>
          var f := r.filter.value;
          if f.conj.Some? then HasTags(o, f.conj.value.tags) && InSize(o.size, f.conj.value.greaterThan, f.conj.value.lessThan)
          else (f.tag.Some? ==> f.tag.value in o.tags) && InSize(o.size, f.greaterThan, f.lessThan))
  }

  // ----- what one rule decides

  predicate CurrentExpires(r: Rule, o: EvalInput, now: int) {
    r.expiration.Some? &&
    var e := r.expiration.value;
    (e.days > 0 && now >= ExpiresAt(o.modTime, e.days)) || (e.date != NoDate && DateReached(e.date, now))
  }

  predicate Due(t: TransitionRule, o: EvalInput, now: int) {
    if t.date != NoDate then DateReached(t.date, now) else now >= ExpiresAt(o.modTime, t.days)
  }

  predicate NoncurrentExpires(r: Rule, o: EvalInput, now: int) {
    r.noncurrent.Some? && o.newerNoncurrentCount >= r.noncurrent.value.newer &&
    now >= ExpiresAt(o.noncurrentSince, r.noncurrent.value.days)
  }

  predicate NoncurrentDue(t: NoncurrentRule, o: EvalInput, now: int) {
    o.newerNoncurrentCount >= t.newer && now >= ExpiresAt(o.noncurrentSince, t.days)
  }

  /** The classes that a rule may move a version to now. */
  function Targets(r: Rule, o: EvalInput, now: int): (s: seq<Option<StorageClass>>)
  {
    if o.isLatest then
      seq(|r.transitions|, i requires 0 <= i < |r.transitions| =>
        if Due(r.transitions[i], o, now) then Some(r.transitions[i].tier) else None)
    else
      seq(|r.noncurrentTransitions|, i requires 0 <= i < |r.noncurrentTransitions| =>
        if NoncurrentDue(r.noncurrentTransitions[i], o, now) then Some(r.noncurrentTransitions[i].tier) else None)
  }

  /** The coldest of the first `n` targets that is colder than the version's class; the first
      such when several are equally cold. */
  function Coldest(targets: seq<Option<StorageClass>>, from: StorageClass, n: nat): Option<StorageClass>
    requires n <= |targets|
  {
    if n == 0 then None
    else
      var best := Coldest(targets, from, n - 1);
      if targets[n - 1].Some? && Rank(targets[n - 1].value) > Rank(from) && (best.Some? ==> Rank(targets[n - 1].value) > Rank(best.value))
      then targets[n - 1] else best
  }

  lemma {:induction false} ColdestIs(targets: seq<Option<StorageClass>>, from: StorageClass, n: nat)
    requires n <= |targets|
    ensures var best := Coldest(targets, from, n);
      (best.Some? ==> best in targets[..n] && Rank(best.value) > Rank(from)) &&
      forall i :: 0 <= i < n && targets[i].Some? && Rank(targets[i].value) > Rank(from) ==>
        best.Some? && Rank(targets[i].value) <= Rank(best.value)
  {
    if n > 0 {
      ColdestIs(targets, from, n - 1);
      assert targets[..n] == targets[..n - 1] + [targets[n - 1]];
    }
  }

  function Moved(kind: Kind, c: Option<StorageClass>, id: string): Action {
    if c.Some? then Action(kind, c.value, id) else NO_ACTION
  }

  /** What an enabled, matching rule decides. */
  function Decide(r: Rule, o: EvalInput, now: int): Action {
    if o.isLatest && o.deleteMarker then DecideMarker(r, o, now)
    else if o.isLatest then
      if CurrentExpires(r, o, now) then Action(ExpireCurrent, Standard, r.id)
      else Moved(Transition, Coldest(Targets(r, o, now), o.tier, |Targets(r, o, now)|), r.id)
    else if NoncurrentExpires(r, o, now) then Action(ExpireNoncurrentVersion, Standard, r.id)
    else if o.deleteMarker then NO_ACTION
    else Moved(NoncurrentTransition, Coldest(Targets(r, o, now), o.tier, |Targets(r, o, now)|), r.id)
  }

  function DecideMarker(r: Rule, o: EvalInput, now: int): Action {
    if r.expiration.None? || o.hasOlderVersions then NO_ACTION
    else
      var e := r.expiration.value;
      var due :=
        if e.expiredMarker.Some? then e.expiredMarker.value
        else if e.days > 0 then now >= ExpiresAt(o.modTime, e.days)
        else e.date != NoDate && DateReached(e.date, now);
      if due then Action(RemoveDeleteMarker, Standard, r.id) else NO_ACTION
  }

  function Verdict(r: Rule, o: EvalInput, now: int): Action {
    if r.enabled && Matches(r, o) then Decide(r, o, now) else NO_ACTION
  }

  // ----- what all rules decide

  /** `a` takes precedence over `b`. */
  predicate Beats(a: Action, b: Action) {
    a.kind != Nothing &&
    (Precedence(a.kind) > Precedence(b.kind) || (a.kind == b.kind && Rank(a.tier) > Rank(b.tier)))
  }

  /** The winner among the first `n` rules. */
  function Winner(rules: seq<Rule>, o: EvalInput, now: int, n: nat): Action
    requires n <= |rules|
  {
    if n == 0 then NO_ACTION
    else
      var best := Winner(rules, o, now, n - 1);
      if Beats(Verdict(rules[n - 1], o, now), best) then Verdict(rules[n - 1], o, now) else best
  }

  function Eval(rules: seq<Rule>, o: EvalInput, now: int): Action {
    Winner(rules, o, now, |rules|)
  }

  /** The action of the `i`-th rule is chosen, and no earlier rule is as strong. */
  ghost predicate ChosenAt(rules: seq<Rule>, o: EvalInput, now: int, a: Action, i: nat)
    requires i < |rules|
  {
    Verdict(rules[i], o, now) == a && forall j :: 0 <= j < i ==> Beats(a, Verdict(rules[j], o, now))
  }

  /** Evaluation is a maximum: no rule's verdict beats the result, which is the verdict of the
      first rule that is as strong, and nothing is done only when no rule decides anything. */
  lemma EvalIsMaximum(rules: seq<Rule>, o: EvalInput, now: int)
    ensures var a := Eval(rules, o, now);
      (forall i :: 0 <= i < |rules| ==> !Beats(Verdict(rules[i], o, now), a)) &&
      (a.kind == Nothing <==> forall i :: 0 <= i < |rules| ==> Verdict(rules[i], o, now).kind == Nothing) &&
      (a.kind != Nothing ==> exists i :: 0 <= i < |rules| && ChosenAt(rules, o, now, a, i))
  {
    WinnerIsMaximum(rules, o, now, |rules|);
  }

  lemma {:induction false} WinnerIsMaximum(rules: seq<Rule>, o: EvalInput, now: int, n: nat)
    requires n <= |rules|
    ensures var a := Winner(rules, o, now, n);
      (forall i :: 0 <= i < n ==> !Beats(Verdict(rules[i], o, now), a)) &&
      (a.kind == Nothing <==> forall i :: 0 <= i < n ==> Verdict(rules[i], o, now).kind == Nothing) &&
      (a.kind != Nothing ==> exists i :: 0 <= i < n && ChosenAt(rules, o, now, a, i))
  {
    hide Verdict, Rank;
    if n > 0 {
      WinnerIsMaximum(rules, o, now, n - 1);
      var a := Winner(rules, o, now, n);
      if a != Winner(rules, o, now, n - 1) { assert ChosenAt(rules, o, now, a, n - 1); }
    }
  }

  /** What an action may be decided for. */
  predicate Fits(a: Action, o: EvalInput) {
    match a.kind
    case Nothing => true
    case ExpireCurrent => o.isLatest && !o.deleteMarker
    case RemoveDeleteMarker => o.isLatest && o.deleteMarker && !o.hasOlderVersions
    case Transition => o.isLatest && !o.deleteMarker && Rank(a.tier) > Rank(o.tier)
    case ExpireNoncurrentVersion => !o.isLatest
    case NoncurrentTransition => !o.isLatest && !o.deleteMarker && Rank(a.tier) > Rank(o.tier)
  }

  /** Every decision fits: current versions expire, only lone markers are removed, noncurrent
      versions are deleted, and a transition always goes to a colder class. */
  lemma EvalFits(rules: seq<Rule>, o: EvalInput, now: int)
    ensures Fits(Eval(rules, o, now), o)
  {
    EvalIsMaximum(rules, o, now);
    var a := Eval(rules, o, now);
    if a.kind != Nothing {
      var i :| 0 <= i < |rules| && ChosenAt(rules, o, now, a, i);
      ColdestIs(Targets(rules[i], o, now), o.tier, |Targets(rules[i], o, now)|);
    }
  }

  // ----- the loops of the source

  /** The transition loop of `evalCurrent` and `evalNoncurrent`. */
  method PickColdest(targets: seq<Option<StorageClass>>, from: StorageClass) returns (best: Option<StorageClass>)
    ensures best == Coldest(targets, from, |targets|)
  {
    best := None;
    var i := 0;
    while i < |targets|
      invariant 0 <= i <= |targets| && best == Coldest(targets, from, i)
    {
      var t := targets[i];
      if t.Some? && Rank(t.value) > Rank(from) && Rank(t.value) > (if best.Some? then Rank(best.value) else 0) { best := t; }
      i := i + 1;
    }
  }

  method EvalCurrent(r: Rule, o: EvalInput, now: int) returns (a: Action)
    requires o.isLatest && !o.deleteMarker
    ensures a == Decide(r, o, now)
  {
    if CurrentExpires(r, o, now) { return Action(ExpireCurrent, Standard, r.id); }
    var best := PickColdest(Targets(r, o, now), o.tier);
    a := Moved(Transition, best, r.id);
  }

  method EvalNoncurrent(r: Rule, o: EvalInput, now: int) returns (a: Action)
    requires !o.isLatest
    ensures a == Decide(r, o, now)
  {
    if NoncurrentExpires(r, o, now) { return Action(ExpireNoncurrentVersion, Standard, r.id); }
    if o.deleteMarker { return NO_ACTION; }
    var best := PickColdest(Targets(r, o, now), o.tier);
    a := Moved(NoncurrentTransition, best, r.id);
  }

  /** `Config.Eval`. */
  method EvalRules(rules: seq<Rule>, o: EvalInput, now: int) returns (best: Action)
    ensures best == Eval(rules, o, now)
  {
    best := NO_ACTION;
    var i := 0;
    while i < |rules|
      invariant 0 <= i <= |rules| && best == Winner(rules, o, now, i)
    {
      var r := rules[i];
      if r.enabled && Matches(r, o) {
        var a;
        if o.isLatest && o.deleteMarker {
          a := DecideMarker(r, o, now);
        } else if o.isLatest {
          a := EvalCurrent(r, o, now);
        } else {
          a := EvalNoncurrent(r, o, now);
        }
        if Beats(a, best) { best := a; }
      }
      i := i + 1;
    }
  }
}
