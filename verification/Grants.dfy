/** Who is granted what, in terms of statements, grants and ownership: the law that authorisation
    follows (internal/iam/authz.go). */
module Grants {
  import opened Authz

  // ----- what speaks for and against a request

  /** The statements of the bucket policy that count: none for an anonymous request that public
      statements no longer reach. */
  predicate Counts(r: Request) {
    r.bucketPolicy.Some? && r.bucketPolicy.value.Parsed? && !(r.who.Anonymous? && r.restrictPublic && r.bucketPolicyPublic)
  }

  ghost predicate Speaks(st: seq<Statement>, e: Effect, r: Request, m: Matcher) {
    exists s :: s in st && s.effect == e && m(s, ArgsOf(r))
  }

  ghost predicate BucketSpeaks(e: Effect, r: Request, m: Matcher) {
    Counts(r) && Speaks(r.bucketPolicy.value.statements, e, r, m)
  }

  /** Policies that do not parse say nothing. */
  ghost predicate IdentitySpeaks(e: Effect, r: Request, m: Matcher)
    requires r.who.Caller?
  {
    exists p :: p in r.who.id.policies && p.Parsed? && Speaks(p.statements, e, r, m)
  }

  /** A restriction lets a request pass that it allows and does not deny. */
  ghost predicate LetsPass(p: Policy, r: Request, m: Matcher) {
    p.Parsed? && Speaks(p.statements, Allow, r, m) && !Speaks(p.statements, Deny, r, m)
  }

  ghost predicate Unrestricted(r: Request, m: Matcher)
    requires r.who.Caller?
  {
    forall p :: p in Filters(r.who.id) ==> LetsPass(p, r, m)
  }

  predicate Owns(w: Principal, owner: Option<string>) {
    match w
    case Anonymous => false
    case Root => owner == Some("root")
    case Caller(id) => owner == Some(id.user)
  }

  /** A grant reaches the caller by name, or as a member of a public group that is not ignored. */
  predicate Reaches(g: Grant, w: Principal, ignorePublic: bool) {
    match g.grantee
    case Canonical(name) => Owns(w, Some(name))
    case AllUsers => !ignorePublic
    case AuthenticatedUsers => !w.Anonymous? && !ignorePublic
    case OtherGroup => false
  }

  predicate Listed(acl: Option<seq<Grant>>, p: Permission, w: Principal, ignorePublic: bool) {
    acl.Some? && exists g :: g in acl.value && Reaches(g, w, ignorePublic) && g.permission in {p, FullControl}
  }

  /** Ownership or an access control list covers the request. With lists disabled only the bucket's
      owner is covered. */
  predicate Covered(r: Request) {
    if r.ownerEnforced || r.acl.OwnerOnly? then Owns(r.who, r.bucketOwner)
    else if r.acl.OnBucket? then Owns(r.who, r.bucketOwner) || Listed(r.bucketAcl, r.acl.permission, r.who, r.ignorePublic)
    else Owns(r.who, r.objectOwner) || Listed(r.objectAcl, r.acl.permission, r.who, r.ignorePublic)
  }

  // ----- the law

  lemma BucketMeans(r: Request, m: Matcher)
    ensures BucketDecision(r, m) == Denied <==> BucketSpeaks(Deny, r, m)
    ensures BucketDecision(r, m) == Allowed <==> BucketSpeaks(Allow, r, m) && !BucketSpeaks(Deny, r, m)
  {
    if Counts(r) { PolicyMeans(r.bucketPolicy.value.statements, r, m); }
    hide Evaluate, Speaks, ArgsOf;
  }

  lemma PolicyMeans(st: seq<Statement>, r: Request, m: Matcher)
    ensures Evaluate(st, ArgsOf(r), m) == Denied <==> Speaks(st, Deny, r, m)
    ensures Evaluate(st, ArgsOf(r), m) == Allowed <==> Speaks(st, Allow, r, m) && !Speaks(st, Deny, r, m)
  {
    EvaluateIsDecision(st, ArgsOf(r), m);
    hide Evaluate, ArgsOf;
  }

  lemma IdentityMeans(r: Request, m: Matcher)
    requires r.who.Caller?
    ensures var d := IdentityDecision(r.who.id.policies, ArgsOf(r), m);
      (d == Denied <==> IdentitySpeaks(Deny, r, m)) && (d == Allowed <==> IdentitySpeaks(Allow, r, m) && !IdentitySpeaks(Deny, r, m))
  {
    var ps, a := r.who.id.policies, ArgsOf(r);
    IdentityDecisionIs(ps, a, m);
    forall p | p in ps && p.Parsed?
      ensures Evaluate(p.statements, a, m) == Denied <==> Speaks(p.statements, Deny, r, m)
      ensures Evaluate(p.statements, a, m) == Allowed <==> Speaks(p.statements, Allow, r, m) && !Speaks(p.statements, Deny, r, m)
    {
      PolicyMeans(p.statements, r, m);
    }
    hide Evaluate, IdentityDecision, ArgsOf, Speaks;
  }

  lemma RestrictionsMean(r: Request, m: Matcher)
    requires r.who.Caller?
    ensures Unrestricted(r, m) <==> forall p :: p in Filters(r.who.id) ==> Passes(p, ArgsOf(r), m)
  {
    forall p | p in Filters(r.who.id)
      ensures LetsPass(p, r, m) <==> Passes(p, ArgsOf(r), m)
    {
      if p.Parsed? { PolicyMeans(p.statements, r, m); }
    }
    hide LetsPass, Passes, ArgsOf, Filters;
  }

  lemma CoverMeans(r: Request)
    ensures AclAllows(r) <==> Covered(r)
  {
  }

  /** A caller is permitted exactly when no deny speaks against the request, every restriction lets
      it pass, and an allow, a grant or ownership speaks for it: for an administrative action an
      allow of its own policies. It is refused exactly when a deny or a restriction stands against it. */
  lemma CallerLaw(r: Request, m: Matcher)
    requires r.who.Caller?
    ensures Permits(Decide(r, m)) <==>
      !BucketSpeaks(Deny, r, m) && !IdentitySpeaks(Deny, r, m) && Unrestricted(r, m) &&
      (IdentitySpeaks(Allow, r, m) || (!r.administrative && (BucketSpeaks(Allow, r, m) || Covered(r))))
    ensures Decide(r, m) == Refused <==> BucketSpeaks(Deny, r, m) || IdentitySpeaks(Deny, r, m) || !Unrestricted(r, m)
    ensures Decide(r, m) == ByAcl ==> !IdentitySpeaks(Allow, r, m) && !BucketSpeaks(Allow, r, m) && Covered(r)
    ensures Decide(r, m) == ByPolicy ==> IdentitySpeaks(Allow, r, m) || BucketSpeaks(Allow, r, m)
  {
    BucketMeans(r, m);
    IdentityMeans(r, m);
    RestrictionsMean(r, m);
    CoverMeans(r);
    hide BucketSpeaks, IdentitySpeaks, Unrestricted, Covered, BucketDecision, IdentityDecision, AclAllows, ArgsOf, Passes, Filters;
  }

  /** An anonymous request is permitted exactly when the bucket policy allows it, or denies it not
      and a grant to everyone covers it. */
  lemma AnonymousLaw(r: Request, m: Matcher)
    requires r.who.Anonymous?
    ensures Permits(Decide(r, m)) <==> !BucketSpeaks(Deny, r, m) && (BucketSpeaks(Allow, r, m) || Covered(r))
    ensures Decide(r, m) == Refused <==> BucketSpeaks(Deny, r, m)
    ensures Decide(r, m) == ByPolicy ==> BucketSpeaks(Allow, r, m)
  {
    BucketMeans(r, m);
    CoverMeans(r);
    hide BucketSpeaks, Covered, BucketDecision, AclAllows;
  }

  /** Root may do everything a bucket policy does not deny, and may always manage bucket policies
      unless the owner confirmed a policy that locks it out. */
  lemma RootLaw(r: Request, m: Matcher)
    requires r.who.Root?
    ensures Permits(Decide(r, m)) <==> !BucketSpeaks(Deny, r, m) || (r.policyManagement && !r.selfLock)
    ensures Decide(r, m) == if Permits(Decide(r, m)) then ByPolicy else Refused
  {
    BucketMeans(r, m);
    hide BucketSpeaks, BucketDecision;
  }

  /** What statements get to see of the caller: its ARN and its canonical ID, and its name and kind
      as variables, which are condition keys too where the request brings none of that name. */
  lemma ArgsTell(r: Request, k: string)
    ensures var a := ArgsOf(r);
      a.action == r.action && a.resource == r.resource && (a.anonymous <==> r.who.Anonymous?) &&
      (r.who.Root? ==> a.principal == RootArn && a.canonicalId == "root") &&
      (r.who.Caller? ==> a.principal == UserArn(r.who.id.user) && a.canonicalId == r.who.id.user) &&
      (!r.who.Anonymous? ==> "aws:username" in a.vars && a.vars["aws:username"] == a.canonicalId && "aws:userid" in a.vars) &&
      (k in r.conditions ==> k in a.conditions && a.conditions[k] == r.conditions[k]) &&
      (k !in r.conditions ==> (k in a.conditions <==> k in a.vars) && (k in a.vars ==> a.conditions[k] == [a.vars[k]]))
    ensures PRINCIPAL_TYPE in ArgsOf(r).vars && (ArgsOf(r).vars[PRINCIPAL_TYPE] == "AssumedRole" <==> r.who.Caller? && IsSession(r.who.id))
  {
    assert |"AssumedRole"| != |"User"| && |"AssumedRole"| != |"Account"| && |"AssumedRole"| != |"Anonymous"|;
  }
}
