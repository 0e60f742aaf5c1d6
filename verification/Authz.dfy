/** Authorisation and session chaining (internal/iam/authz.go and the STS part of
    internal/iam/store.go): derived sessions only narrow. */
module Authz {
  datatype Option<+T> = None | Some(value: T)

  // ----- documents

  datatype Effect = Allow | Deny

  /** A statement; which requests its principals, actions, resources and conditions select is
      left to the `matches` argument of the functions below. */
  datatype Statement = Statement(effect: Effect, pattern: nat)

  /** A policy as stored: it parses to statements, or not at all. */
  datatype Policy = Parsed(statements: seq<Statement>) | Malformed

  datatype Decision = NoMatch | Allowed | Denied

  type Conditions = map<string, seq<string>>

  /** The ARN of a principal: the account's root, or a user of the account. */
  datatype Arn = NoArn | RootArn | UserArn(name: string)

  /** What a document is evaluated against. */
  datatype Args = Args(action: string, resource: string, principal: Arn, canonicalId: string, anonymous: bool,
                       conditions: Conditions, vars: map<string, string>)

  type Matcher = (Statement, Args) -> bool

  /** Any matching deny wins, otherwise any matching allow, otherwise there is no match. */
  ghost predicate IsDecision(st: seq<Statement>, a: Args, m: Matcher, d: Decision) {
    match d
    case Denied => exists s :: s in st && m(s, a) && s.effect == Deny
    case Allowed => (exists s :: s in st && m(s, a)) && forall s :: s in st && m(s, a) ==> s.effect == Allow
    case NoMatch => forall s :: s in st ==> !m(s, a)
  }

  /** `Evaluate` on the first `n` statements. */
  function EvaluateTo(st: seq<Statement>, a: Args, m: Matcher, n: nat): Decision
    requires n <= |st|
  {
    if n == 0 then NoMatch
    else
      var d := EvaluateTo(st, a, m, n - 1);
      if d == Denied then Denied
      else if !m(st[n - 1], a) then d
      else if st[n - 1].effect == Deny then Denied else Allowed
  }

  function Evaluate(st: seq<Statement>, a: Args, m: Matcher): Decision {
    EvaluateTo(st, a, m, |st|)
  }

  lemma {:induction false} EvaluateToIs(st: seq<Statement>, a: Args, m: Matcher, n: nat)
    requires n <= |st|
    ensures IsDecision(st[..n], a, m, EvaluateTo(st, a, m, n))
  {
    if n > 0 {
      EvaluateToIs(st, a, m, n - 1);
      assert st[..n] == st[..n - 1] + [st[n - 1]];
      assert forall s :: s in st[..n] <==> s in st[..n - 1] || s == st[n - 1];
    }
  }

  /** Evaluation follows the standard rule, whatever the order of the statements. */
  lemma EvaluateIsDecision(st: seq<Statement>, a: Args, m: Matcher)
    ensures IsDecision(st, a, m, Evaluate(st, a, m))
  {
    EvaluateToIs(st, a, m, |st|);
    assert st[..|st|] == st;
  }

  /** The loop of `Evaluate`. */
  method EvaluateDocument(st: seq<Statement>, a: Args, m: Matcher) returns (res: Decision)
    ensures res == Evaluate(st, a, m)
    ensures IsDecision(st, a, m, res)
  {
    res := NoMatch;
    var i := 0;
    EvaluateIsDecision(st, a, m);
    while i < |st|
      invariant 0 <= i <= |st| && res != Denied && res == EvaluateTo(st, a, m, i)
    {
      if m(st[i], a) {
        if st[i].effect == Deny {
          DenyIsFinal(st, a, m, i + 1);
          return Denied;
        }
        res := Allowed;
      }
      i := i + 1;
    }
  }

  lemma {:induction false} DenyIsFinal(st: seq<Statement>, a: Args, m: Matcher, n: nat)
    requires n <= |st| && EvaluateTo(st, a, m, n) == Denied
    ensures Evaluate(st, a, m) == Denied
    decreases |st| - n
  {
    if n < |st| { DenyIsFinal(st, a, m, n + 1); }
  }

  // ----- identities

  datatype Kind = UserKey | ServiceKey | StsKey

  /** An access key; an absent session policy is `None`. */
  datatype Key = Key(user: string, kind: Kind, session: Option<Policy>, parents: seq<Policy>)

  /** A caller other than the root account: its user, its key (none for a console password), and
      the policies of the user and its groups. */
  datatype Identity = Identity(user: string, key: Option<Key>, policies: seq<Policy>)

  datatype Principal = Anonymous | Root | Caller(id: Identity)

  /** The session policies that all must allow. */
  function Restrictions(k: Key): seq<Policy> {
    k.parents + if k.session.Some? then [k.session.value] else []
  }

  function Filters(id: Identity): seq<Policy> {
    if id.key.Some? then Restrictions(id.key.value) else []
  }

  /** The key that `assumeRole` issues: without a policy of its own the last inherited one takes
      that place. */
  function Derive(id: Identity, session: Option<Policy>): Key {
    var parents := Filters(id);
    if session.None? && parents != [] then Key(id.user, StsKey, Some(parents[|parents| - 1]), parents[..|parents| - 1])
    else Key(id.user, StsKey, session, parents)
  }

  /** A derived session has exactly its parent's restrictions and the policy it was given. */
  lemma DeriveNarrows(id: Identity, session: Option<Policy>)
    ensures Restrictions(Derive(id, session)) == Filters(id) + if session.Some? then [session.value] else []
  {
    var parents := Filters(id);
    if session.None? && parents != [] { assert parents == parents[..|parents| - 1] + [parents[|parents| - 1]]; }
  }

  // ----- access control lists

  datatype Grantee = AllUsers | AuthenticatedUsers | OtherGroup | Canonical(id: string)
  datatype Permission = Read | Write | ReadAcp | WriteAcp | FullControl
  datatype Grant = Grant(grantee: Grantee, permission: Permission)

  /** The access control list an action is checked against, and the permission it needs; actions
      without one are the bucket owner's. */
  datatype AclCheck = OnBucket(permission: Permission) | OnObject(permission: Permission) | OwnerOnly

  datatype Request = Request(who: Principal, action: string, administrative: bool, policyManagement: bool, resource: string,
                             acl: AclCheck, bucketOwner: Option<string>, bucketPolicy: Option<Policy>, bucketPolicyPublic: bool,
                             bucketAcl: Option<seq<Grant>>, restrictPublic: bool, ignorePublic: bool, ownerEnforced: bool,
                             objectOwner: Option<string>, objectAcl: Option<seq<Grant>>, selfLock: bool, conditions: Conditions)

  /** The canonical ID is derived from the user name. */
  function CanonicalOf(w: Principal): Option<string> {
    match w
    case Anonymous => None
    case Root => Some("root")
    case Caller(id) => Some(id.user)
  }

  predicate GrantMatches(g: Grant, who: Option<string>, ignorePublic: bool) {
    match g.grantee
    case AllUsers => !ignorePublic
    case AuthenticatedUsers => who.Some? && !ignorePublic
    case OtherGroup => false
    case Canonical(id) => who == Some(id)
  }

  predicate Has(acl: Option<seq<Grant>>, owner: Option<string>, p: Permission, who: Option<string>, ignorePublic: bool) {
    || (who.Some? && who == owner)
    || (acl.Some? && exists g :: g in acl.value && GrantMatches(g, who, ignorePublic) && (g.permission == FullControl || g.permission == p))
  }

  /** `aclAllows` */
  predicate AclAllows(r: Request) {
    var who := CanonicalOf(r.who);
    var isOwner := who.Some? && who == r.bucketOwner;
    if r.ownerEnforced then isOwner
    else
      match r.acl
      case OnBucket(p) => Has(r.bucketAcl, r.bucketOwner, p, who, r.ignorePublic)
      case OnObject(p) => Has(r.objectAcl, r.objectOwner, p, who, r.ignorePublic)
      case OwnerOnly => isOwner
  }

  // ----- the decision

  datatype Outcome = Refused | NoGrant | ByPolicy | ByAcl

  predicate Permits(o: Outcome) {
    o == ByPolicy || o == ByAcl
  }

  const PRINCIPAL_TYPE := "aws:principaltype"

  function PrincipalType(w: Principal): string {
    match w
    case Anonymous => "Anonymous"
    case Root => "Account"
    case Caller(id) => if id.key.Some? && id.key.value.kind == StsKey then "AssumedRole" else "User"
  }

  function ArnOf(w: Principal): Arn {
    match w
    case Anonymous => NoArn
    case Root => RootArn
    case Caller(id) => UserArn(id.user)
  }

  function NameOf(w: Principal): string {
    match w
    case Anonymous => ""
    case Root => "root"
    case Caller(id) => id.user
  }

  function VarsOf(w: Principal): map<string, string> {
    if w.Anonymous? then map[PRINCIPAL_TYPE := "Anonymous"]
    else map["aws:username" := NameOf(w), "aws:userid" := NameOf(w), PRINCIPAL_TYPE := PrincipalType(w)]
  }

  /** The variables become condition keys where the request has none of that name. */
  function WithVars(c: Conditions, vars: map<string, string>): Conditions {
    map k | k in c.Keys + vars.Keys :: if k in c then c[k] else [vars[k]]
  }

  function ArgsOf(r: Request): Args {
    var vars := VarsOf(r.who);
    Args(r.action, r.resource, ArnOf(r.who), NameOf(r.who), r.who.Anonymous?, WithVars(r.conditions, vars), vars)
  }

  function BucketDecision(r: Request, m: Matcher): Decision {
    if r.bucketPolicy.None? || r.bucketPolicy.value.Malformed? || (r.who.Anonymous? && r.restrictPublic && r.bucketPolicyPublic)
    then NoMatch else Evaluate(r.bucketPolicy.value.statements, ArgsOf(r), m)
  }

  /** The identity policies together: a denial in one wins; those that do not parse are skipped. */
  function IdentityDecision(ps: seq<Policy>, a: Args, m: Matcher): Decision {
    if ps == [] then NoMatch
    else
      var rest := IdentityDecision(ps[..|ps| - 1], a, m);
      var p := ps[|ps| - 1];
      if rest == Denied || p.Malformed? then rest
      else
        match Evaluate(p.statements, a, m)
        case Denied => Denied
        case Allowed => Allowed
        case NoMatch => rest
  }

  /** A session policy lets the request pass. */
  predicate Passes(p: Policy, a: Args, m: Matcher) {
    p.Parsed? && Evaluate(p.statements, a, m) == Allowed
  }

  /** `Decide` */
  function Decide(r: Request, m: Matcher): Outcome {
    var bp := BucketDecision(r, m);
    if bp == Denied then if r.who.Root? && !r.selfLock && r.policyManagement then ByPolicy else Refused
    else
      match r.who
      case Root => ByPolicy
      case Anonymous => if bp == Allowed then ByPolicy else if AclAllows(r) then ByAcl else NoGrant
      case Caller(id) =>
        var ip := IdentityDecision(id.policies, ArgsOf(r), m);
        if ip == Denied then Refused
        else if exists p :: p in Filters(id) && !Passes(p, ArgsOf(r), m) then Refused
        else if r.administrative then if ip == Allowed then ByPolicy else NoGrant
        else if bp == Allowed || ip == Allowed then ByPolicy
        else if AclAllows(r) then ByAcl else NoGrant
  }

  /** The policies of an identity count as a set. */
  ghost predicate IsIdentityDecision(ps: seq<Policy>, a: Args, m: Matcher, d: Decision) {
    match d
    case Denied => exists p :: p in ps && p.Parsed? && Evaluate(p.statements, a, m) == Denied
    case Allowed =>
      (exists p :: p in ps && p.Parsed? && Evaluate(p.statements, a, m) == Allowed) &&
      forall p :: p in ps && p.Parsed? ==> Evaluate(p.statements, a, m) != Denied
    case NoMatch => forall p :: p in ps && p.Parsed? ==> Evaluate(p.statements, a, m) == NoMatch
  }

  lemma {:induction false} IdentityDecisionIs(ps: seq<Policy>, a: Args, m: Matcher)
    ensures IsIdentityDecision(ps, a, m, IdentityDecision(ps, a, m))
    decreases |ps|
  {
    hide Evaluate;
    if ps != [] {
      var init, p := ps[..|ps| - 1], ps[|ps| - 1];
      IdentityDecisionIs(init, a, m);
      assert forall q :: q in ps <==> q in init || q == p;
    }
  }

  /** The same set of policies decides the same. */
  lemma SamePolicies(ps: seq<Policy>, qs: seq<Policy>, a: Args, m: Matcher)
    requires forall p :: p in ps <==> p in qs
    ensures IdentityDecision(ps, a, m) == IdentityDecision(qs, a, m)
  {
    hide Evaluate, IdentityDecision;
    IdentityDecisionIs(ps, a, m);
    IdentityDecisionIs(qs, a, m);
  }

  /** The loops of `Decide` over the policies and over the restrictions of a caller. */
  method DecideRequest(r: Request, m: Matcher) returns (o: Outcome)
    ensures o == Decide(r, m)
  {
    var bp := BucketDecision(r, m);
    if bp == Denied { return if r.who.Root? && !r.selfLock && r.policyManagement then ByPolicy else Refused; }
    if r.who.Root? { return ByPolicy; }
    var ip := NoMatch;
    if r.who.Caller? {
      var id, args := r.who.id, ArgsOf(r);
      ip := DecideIdentity(id.policies, args, m);
      if ip == Denied { return Refused; }
      var filters, i := Filters(id), 0;
      while i < |filters|
        invariant 0 <= i <= |filters| && forall j :: 0 <= j < i ==> Passes(filters[j], args, m)
      {
        if !Passes(filters[i], args, m) { return Refused; }
        i := i + 1;
      }
      if r.administrative { return if ip == Allowed then ByPolicy else NoGrant; }
    }
    if bp == Allowed || ip == Allowed { return ByPolicy; }
    o := if AclAllows(r) then ByAcl else NoGrant;
  }

  method DecideIdentity(ps: seq<Policy>, a: Args, m: Matcher) returns (d: Decision)
    ensures d == IdentityDecision(ps, a, m)
  {
    d := NoMatch;
    var i := 0;
    while i < |ps|
      invariant 0 <= i <= |ps| && d == IdentityDecision(ps[..i], a, m)
    {
      assert ps[..i + 1][..i] == ps[..i];
      if d != Denied && ps[i].Parsed? {
        var verdict := EvaluateDocument(ps[i].statements, a, m);
        if verdict != NoMatch { d := verdict; }
      }
      i := i + 1;
    }
    assert ps[..|ps|] == ps;
  }

  // ----- chains of sessions

  /** The child's key was issued to the parent, and on the same store both have the policies of
      the same user. */
  ghost predicate IsChild(parent: Identity, child: Identity, session: Option<Policy>) {
    child.key == Some(Derive(parent, session)) && child.user == parent.user && forall p :: p in child.policies <==> p in parent.policies
  }

  predicate IsSession(id: Identity) {
    id.key.Some? && id.key.value.kind == StsKey
  }

  /** A derived session may do exactly what its parent session may, and its own policy allows. */
  lemma DerivedMayExactly(parent: Identity, child: Identity, session: Option<Policy>, r: Request, m: Matcher)
    requires IsSession(parent) && IsChild(parent, child, session)
    ensures var rp, rc := r.(who := Caller(parent)), r.(who := Caller(child));
      Permits(Decide(rc, m)) <==> Permits(Decide(rp, m)) && (session.Some? ==> Passes(session.value, ArgsOf(rp), m))
  {
    var rp, rc := r.(who := Caller(parent)), r.(who := Caller(child));
    assert ArgsOf(rc) == ArgsOf(rp) && AclAllows(rc) == AclAllows(rp);
    hide ArgsOf, AclAllows, Passes, IdentityDecision, Evaluate;
    DeriveNarrows(parent, session);
    SamePolicies(child.policies, parent.policies, ArgsOf(rp), m);
    assert Filters(child) == Filters(parent) + if session.Some? then [session.value] else [];
    assert forall p :: p in Filters(child) <==> p in Filters(parent) || session == Some(p);
  }

  /** Each identity after the first is derived from the one before. */
  ghost predicate IsChain(ids: seq<Identity>, sessions: seq<Option<Policy>>) {
    |ids| == |sessions| + 1 && IsSession(ids[0]) &&
    forall i :: 0 <= i < |sessions| ==> IsChild(ids[i], ids[i + 1], sessions[i])
  }

  /** Along any chain of sessions restrictions only accumulate, and whatever a derived session may
      do, every session it descends from may do. */
  lemma {:induction false} ChainsOnlyNarrow(ids: seq<Identity>, sessions: seq<Option<Policy>>, i: nat, j: nat, r: Request, m: Matcher)
    requires IsChain(ids, sessions) && i <= j < |ids|
    ensures IsSession(ids[j])
    ensures forall p :: p in Filters(ids[i]) ==> p in Filters(ids[j])
    ensures Permits(Decide(r.(who := Caller(ids[j])), m)) ==> Permits(Decide(r.(who := Caller(ids[i])), m))
    decreases j
  {
    hide Decide, Derive;
    if j > 0 {
      assert IsChild(ids[j - 1], ids[j], sessions[j - 1]);
      StillSession(ids[j - 1], sessions[j - 1]);
      if i < j {
        ChainsOnlyNarrow(ids, sessions, i, j - 1, r, m);
        DeriveNarrows(ids[j - 1], sessions[j - 1]);
        DerivedMayExactly(ids[j - 1], ids[j], sessions[j - 1], r, m);
      }
    }
  }

  lemma StillSession(id: Identity, session: Option<Policy>)
    ensures Derive(id, session).kind == StsKey
  {
  }

  // ----- the first session of a chain

  /** A restriction that no request can pass: it does not parse, or it has no Allow statement. */
  predicate Grantless(p: Policy) {
    p.Malformed? || forall s :: s in p.statements ==> s.effect == Deny
  }

  /** Whatever the request and whatever the statements select, the child may do only what the
      parent may. */
  ghost predicate OnlyNarrows(parent: Principal, child: Identity) {
    forall r: Request, m: Matcher :: Permits(Decide(r.(who := Caller(child)), m)) ==> Permits(Decide(r.(who := parent), m))
  }

  /** A derived session may do only what its parent may if and only if the parent is itself a
      session, or one of the session's restrictions can pass nothing at all: policies can tell a
      user's own key from a session by the principal type. */
  lemma NarrowsExactly(parent: Identity, child: Identity, session: Option<Policy>)
    requires IsChild(parent, child, session)
    ensures OnlyNarrows(Caller(parent), child) <==>
      IsSession(parent) || (exists p :: p in Filters(parent) && Grantless(p)) || (session.Some? && Grantless(session.value))
  {
    DeriveNarrows(parent, session);
    StillSession(parent, session);
    hide Decide, Derive;
    if IsSession(parent) {
      forall r: Request, m: Matcher
        ensures Permits(Decide(r.(who := Caller(child)), m)) ==> Permits(Decide(r.(who := Caller(parent)), m))
      {
        DerivedMayExactly(parent, child, session, r, m);
      }
    } else {
      FirstNarrowsExactly(Caller(parent), child);
    }
  }

  /** A session that the account's root derives: its user is "root", and it inherits nothing. */
  ghost predicate IsRootChild(child: Identity, session: Option<Policy>) {
    child.user == "root" && child.key == Some(Key("root", StsKey, session, []))
  }

  /** For a session derived from root the same holds: bucket policies bind root too. */
  lemma RootNarrowsExactly(child: Identity, session: Option<Policy>)
    requires IsRootChild(child, session)
    ensures OnlyNarrows(Root, child) <==> session.Some? && Grantless(session.value)
  {
    FirstNarrowsExactly(Root, child);
  }

  lemma FirstNarrowsExactly(parent: Principal, child: Identity)
    requires IsSession(child) && (parent.Root? || (parent.Caller? && !IsSession(parent.id)))
    ensures OnlyNarrows(parent, child) <==> exists p :: p in Filters(child) && Grantless(p)
  {
    hide Decide, Grantless;
    if p :| p in Filters(child) && Grantless(p) {
      forall r: Request, m: Matcher
        ensures !Permits(Decide(r.(who := Caller(child)), m))
      {
        GrantlessRefuses(child, p, r, m);
      }
    } else {
      var r, m := FirstSessionMayDiffer(parent, child);
    }
  }

  lemma GrantlessRefuses(id: Identity, p: Policy, r: Request, m: Matcher)
    requires p in Filters(id) && Grantless(p)
    ensures !Permits(Decide(r.(who := Caller(id)), m))
  {
    var a := ArgsOf(r.(who := Caller(id)));
    hide ArgsOf, BucketDecision, IdentityDecision, AclAllows, Filters;
    if p.Parsed? { EvaluateIsDecision(p.statements, a, m); }
    assert !Passes(p, a, m);
  }

  predicate ForSession(a: Args) {
    PRINCIPAL_TYPE in a.conditions && "AssumedRole" in a.conditions[PRINCIPAL_TYPE]
  }

  /** Allow statements under the condition that the principal type is "AssumedRole", and Deny
      statements under the condition that it is not. */
  predicate SessionsOnly(s: Statement, a: Args) {
    s.effect == Allow <==> ForSession(a)
  }

  lemma Selected(st: seq<Statement>, a: Args)
    ensures ForSession(a) ==>
      Evaluate(st, a, SessionsOnly) == if exists s :: s in st && s.effect == Allow then Allowed else NoMatch
    ensures !ForSession(a) && (exists s :: s in st && s.effect == Deny) ==> Evaluate(st, a, SessionsOnly) == Denied
  {
    EvaluateIsDecision(st, a, SessionsOnly);
    hide Evaluate, ForSession;
  }

  lemma NoSessionDenied(ps: seq<Policy>, a: Args)
    requires ForSession(a)
    ensures IdentityDecision(ps, a, SessionsOnly) != Denied
  {
    hide Evaluate, IdentityDecision, SessionsOnly, ForSession;
    IdentityDecisionIs(ps, a, SessionsOnly);
    forall p | p in ps && p.Parsed?
      ensures Evaluate(p.statements, a, SessionsOnly) != Denied
    {
      Selected(p.statements, a);
    }
  }

  /** Only a session has the principal type the policies ask for. */
  lemma SessionArgs(r: Request)
    requires r.conditions == map[]
    ensures ForSession(ArgsOf(r)) <==> r.who.Caller? && IsSession(r.who.id)
  {
    assert |"AssumedRole"| != |"User"| && |"AssumedRole"| != |"Account"| && |"AssumedRole"| != |"Anonymous"|;
  }

  /** Any other session derived from root or from a key that is no session may read an object that
      its parent may not: under a bucket policy for sessions only. */
  lemma FirstSessionMayDiffer(parent: Principal, child: Identity) returns (r: Request, m: Matcher)
    requires IsSession(child) && (parent.Root? || (parent.Caller? && !IsSession(parent.id)))
    requires forall p :: p in Filters(child) ==> !Grantless(p)
    ensures Permits(Decide(r.(who := Caller(child)), m)) && !Permits(Decide(r.(who := parent), m))
  {
    var st := [Statement(Allow, 0), Statement(Deny, 1)];
    r := Request(parent, "s3:GetObject", false, false, "arn:aws:s3:::b/k", OnObject(Read), Some("owner"), Some(Parsed(st)), false,
                 None, false, false, false, Some("owner"), None, false, map[]);
    m := SessionsOnly;
    var rc := r.(who := Caller(child));
    SessionArgs(r);
    SessionArgs(rc);
    assert r.(who := parent) == r;
    hide ArgsOf, ForSession, SessionsOnly, Evaluate, IdentityDecision;
    assert st[0] in st && st[1] in st;
    Selected(st, ArgsOf(rc));
    Selected(st, ArgsOf(r));
    NoSessionDenied(child.policies, ArgsOf(rc));
    forall p | p in Filters(child)
      ensures Passes(p, ArgsOf(rc), m)
    {
      assert !Grantless(p);
      Selected(p.statements, ArgsOf(rc));
    }
  }
}
