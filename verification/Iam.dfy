/** Users, groups and named policies (internal/iam/store.go): membership is recorded on both
    sides, and every attached policy exists. */
module Iam {
  datatype Name = Name(text: string)

  /** A policy document; only its identity matters here. */
  type Document = nat

  datatype User = User(enabled: bool, policies: seq<Name>, groups: seq<Name>)
  datatype Group = Group(enabled: bool, members: seq<Name>, policies: seq<Name>)

  datatype Error = NotFound | Exists | Invalid | BuiltIn

  datatype Outcome = Done | Failed(error: Error)

  const CONSOLE_ADMIN := Name("consoleAdmin")
  const ROOT := Name("root")
  const BUILTINS := {Name("readonly"), Name("readwrite"), Name("writeonly"), Name("diagnostics"), CONSOLE_ADMIN}

  // ----- lists of names

  /** A list without a name. */
  function Without(l: seq<Name>, s: Name): (r: seq<Name>)
    ensures s !in r && forall x :: x != s ==> (x in r <==> x in l)
  {
    if l == [] then [] else Without(l[..|l| - 1], s) + if l[|l| - 1] == s then [] else [l[|l| - 1]]
  }

  /** `remove` compacts the list in place and returns the length of what is left. */
  method Remove(l: array<Name>, s: Name) returns (n: nat)
    modifies l
    ensures n <= l.Length && l[..n] == Without(old(l[..]), s)
  {
    n := 0;
    var i := 0;
    while i < l.Length
      invariant 0 <= n <= i <= l.Length
      invariant l[..n] == Without(old(l[..i]), s)
      invariant forall j :: i <= j < l.Length ==> l[j] == old(l[j])
    {
      assert old(l[..i + 1])[..i] == old(l[..i]);
      if l[i] != s {
        l[n] := l[i];
        n := n + 1;
      }
      i := i + 1;
    }
    assert old(l[..]) == old(l[..l.Length]);
  }

  function AppendUnique(l: seq<Name>, s: Name): (r: seq<Name>)
    ensures forall x :: x in r <==> x in l || x == s
  {
    if s in l then l else l + [s]
  }

  lemma WithoutAbsent(l: seq<Name>, s: Name)
    requires s !in l
    ensures Without(l, s) == l
  {
    hide Without;
    NowhereIn(l, s);
  }

  lemma {:induction false} NowhereIn(l: seq<Name>, s: Name)
    requires forall i :: 0 <= i < |l| ==> l[i] != s
    ensures Without(l, s) == l
    decreases |l|
  {
    if l != [] {
      var init, last := l[..|l| - 1], l[|l| - 1];
      NowhereIn(init, s);
      assert Without(l, s) == init + [last];
      assert l == init + [last];
    }
  }

  // ----- what the operations keep

  /** A user is in a group's members exactly when the group is in the user's groups, and both exist. */
  ghost predicate Mutual(users: map<Name, User>, groups: map<Name, Group>) {
    && (forall g, u :: g in groups && u in groups[g].members ==> u in users && g in users[u].groups)
    && (forall u, g :: u in users && g in users[u].groups ==> g in groups && u in groups[g].members)
  }

  /** Every policy attached to a user or group exists. */
  ghost predicate Attached(users: map<Name, User>, groups: map<Name, Group>, policies: map<Name, Document>) {
    && (forall u, p :: u in users && p in users[u].policies ==> p in policies)
    && (forall g, p :: g in groups && p in groups[g].policies ==> p in policies)
  }

  /** All users as they were but without a group. */
  function UsersWithout(users: map<Name, User>, g: Name): map<Name, User> {
    map u | u in users :: users[u].(groups := Without(users[u].groups, g))
  }

  function GroupsWithout(groups: map<Name, Group>, u: Name): map<Name, Group> {
    map g | g in groups :: groups[g].(members := Without(groups[g].members, u))
  }

  /** All names of a list are known. */
  predicate Known<T>(l: seq<Name>, m: map<Name, T>) {
    forall n :: n in l ==> n in m
  }

  predicate Distinct(l: seq<Name>) {
    forall i, j :: 0 <= i < j < |l| ==> l[i] != l[j]
  }

  /** The policy is attached to one of the listed groups that is enabled. */
  predicate InGroups(groups: map<Name, Group>, list: seq<Name>, p: Name) {
    exists g :: g in list && g in groups && groups[g].enabled && p in groups[g].policies
  }

  /** The user has the policy, itself or through an enabled group. */
  predicate Confers(users: map<Name, User>, groups: map<Name, Group>, u: Name, p: Name)
    requires u in users
  {
    p in users[u].policies || InGroups(groups, users[u].groups, p)
  }

  lemma InNextGroup(groups: map<Name, Group>, list: seq<Name>, i: nat)
    requires i < |list|
    ensures forall p :: InGroups(groups, list[..i + 1], p) <==>
      InGroups(groups, list[..i], p) || (list[i] in groups && groups[list[i]].enabled && p in groups[list[i]].policies)
  {
    assert forall g :: g in list[..i + 1] <==> g in list[..i] || g == list[i];
  }

  class Store {
    var users: map<Name, User>
    var groups: map<Name, Group>
    var policies: map<Name, Document>

    ghost predicate Valid()
      reads this
    {
      Mutual(users, groups) && Attached(users, groups, policies) && BUILTINS <= policies.Keys
    }

    /** `Open` on a new store: the built-in policies exist. */
    constructor (builtin: map<Name, Document>)
      requires builtin.Keys == BUILTINS
      ensures Valid() && users == map[] && groups == map[]
    {
      users, groups, policies := map[], map[], builtin;
    }

    method Exist(names: seq<Name>) returns (ok: bool)
      ensures ok <==> Known(names, policies)
    {
      var i := 0;
      while i < |names|
        invariant 0 <= i <= |names| && forall j :: 0 <= j < i ==> names[j] in policies
      {
        if names[i] !in policies { return false; }
        i := i + 1;
      }
      ok := true;
    }

    method CreateUser(name: Name, attached: seq<Name>) returns (r: Outcome)
      requires Valid()
      modifies this
      ensures Valid() && groups == old(groups) && policies == old(policies)
      ensures r == if name == ROOT then Failed(Invalid) else if name in old(users) then Failed(Exists)
                   else if Known(attached, policies) then Done else Failed(NotFound)
      ensures r.Done? ==> users == old(users)[name := User(true, attached, [])]
      ensures r.Failed? ==> users == old(users)
    {
      if name == ROOT { return Failed(Invalid); }
      if name in users { return Failed(Exists); }
      var ok := Exist(attached);
      if !ok { return Failed(NotFound); }
      assert forall g :: g in groups ==> name !in groups[g].members;
      users := users[name := User(true, attached, [])];
      r := Done;
    }

    /** `UpdateUser` with what its callers change: status and attached policies. */
    method UpdateUser(name: Name, enabled: bool, attached: seq<Name>) returns (r: Outcome)
      requires Valid()
      modifies this
      ensures Valid() && groups == old(groups) && policies == old(policies)
      ensures r == if name in old(users) && Known(attached, policies) then Done else Failed(NotFound)
      ensures r.Done? ==> users == old(users)[name := User(enabled, attached, old(users)[name].groups)]
      ensures r.Failed? ==> users == old(users)
    {
      if name !in users { return Failed(NotFound); }
      var ok := Exist(attached);
      if !ok { return Failed(NotFound); }
      users := users[name := users[name].(enabled := enabled, policies := attached)];
      r := Done;
    }

    /** The user goes, and with it all its memberships. */
    method DeleteUser(name: Name) returns (r: Outcome)
      requires Valid()
      modifies this
      ensures Valid() && policies == old(policies)
      ensures r == if name in old(users) then Done else Failed(NotFound)
      ensures r.Done? ==> users == old(users) - {name} && groups == GroupsWithout(old(groups), name)
      ensures r.Failed? ==> users == old(users) && groups == old(groups)
    {
      if name !in users { return Failed(NotFound); }
      ghost var before := groups;
      LeaveGroups(name, users[name].groups);
      LeavesAll(users, before, groups, name);
      UserGone(users, before, policies, name);
      users := users - {name};
      r := Done;
    }

    method LeaveGroups(name: Name, list: seq<Name>)
      modifies this`groups
      ensures groups.Keys == old(groups).Keys
      ensures forall g :: g in groups ==>
        groups[g] == if g in list then old(groups)[g].(members := Without(old(groups)[g].members, name)) else old(groups)[g]
    {
      var i := 0;
      while i < |list|
        invariant 0 <= i <= |list| && groups.Keys == old(groups).Keys
        invariant forall g :: g in groups ==>
          groups[g] == if g in list[..i] then old(groups)[g].(members := Without(old(groups)[g].members, name)) else old(groups)[g]
      {
        var g := list[i];
        if g in groups {
          WithoutTwice(list, i, name, old(groups)[g].members);
          groups := groups[g := groups[g].(members := Without(groups[g].members, name))];
        } else {
          WithoutTwice(list, i, name, []);
        }
        i := i + 1;
      }
      assert list[..|list|] == list;
    }

    method CreateGroup(name: Name, members: seq<Name>, attached: seq<Name>) returns (r: Outcome)
      requires Valid()
      modifies this
      ensures Valid() && policies == old(policies)
      ensures r == if name in old(groups) then Failed(Exists)
                   else if Known(attached, policies) && Known(members, old(users)) then Done else Failed(NotFound)
      ensures r.Done? ==> groups == old(groups)[name := Group(true, members, attached)]
      ensures r.Done? ==> Joined(old(users), users, name, members, [])
      ensures r.Failed? ==> users == old(users) && groups == old(groups)
    {
      if name in groups { return Failed(Exists); }
      var ok := Exist(attached);
      if !ok { return Failed(NotFound); }
      var joined;
      ok, joined := JoinMembers(name, members, []);
      if !ok { return Failed(NotFound); }
      GroupJoined(users, joined, groups, policies, name, Group(true, members, attached));
      users := joined;
      groups := groups[name := Group(true, members, attached)];
      r := Done;
    }

    /** `UpdateGroup`: new members gain the back-reference, dropped ones lose it. */
    method UpdateGroup(name: Name, enabled: bool, members: seq<Name>, attached: seq<Name>) returns (r: Outcome)
      requires Valid()
      modifies this
      ensures Valid() && policies == old(policies)
      ensures r == if name in old(groups) && Known(attached, policies) && Known(members, old(users)) then Done else Failed(NotFound)
      ensures r.Done? ==> groups == old(groups)[name := Group(enabled, members, attached)]
      ensures r.Done? ==> Joined(old(users), users, name, members, old(groups)[name].members)
      ensures r.Failed? ==> users == old(users) && groups == old(groups)
    {
      if name !in groups { return Failed(NotFound); }
      var before := groups[name].members;
      var ok := Exist(attached);
      if !ok { return Failed(NotFound); }
      var joined;
      ok, joined := JoinMembers(name, members, before);
      if !ok { return Failed(NotFound); }
      joined := DropMembers(joined, name, members, before);
      GroupJoined(users, joined, groups, policies, name, Group(enabled, members, attached));
      users := joined;
      groups := groups[name := Group(enabled, members, attached)];
      r := Done;
    }

    /** Every member exists, and those not in `before` get the back-reference. */
    method JoinMembers(name: Name, members: seq<Name>, before: seq<Name>) returns (ok: bool, joined: map<Name, User>)
      requires forall u :: u in users && u in before ==> name in users[u].groups
      ensures ok <==> Known(members, users)
      ensures ok ==> Joined(users, joined, name, members, [])
    {
      joined := users;
      var i := 0;
      while i < |members|
        invariant 0 <= i <= |members| && forall j :: 0 <= j < i ==> members[j] in users
        invariant Joined(users, joined, name, members[..i], [])
      {
        var m := members[i];
        if m !in joined { return false, users; }
        JoinNext(users, joined, name, members, i);
        if m !in before { joined := joined[m := joined[m].(groups := AppendUnique(joined[m].groups, name))]; }
        i := i + 1;
      }
      assert members[..|members|] == members;
      ok := true;
    }

    /** Those of `before` who are not members lose the back-reference. */
    method DropMembers(joined: map<Name, User>, name: Name, members: seq<Name>, before: seq<Name>) returns (left: map<Name, User>)
      requires Joined(users, joined, name, members, [])
      ensures Joined(users, left, name, members, before)
    {
      left := joined;
      var j := 0;
      while j < |before|
        invariant 0 <= j <= |before| && Joined(users, left, name, members, before[..j])
      {
        var m := before[j];
        DropNext(users, left, name, members, before, j);
        if m !in members && m in left { left := left[m := left[m].(groups := Without(left[m].groups, name))]; }
        j := j + 1;
      }
      assert before[..|before|] == before;
    }

    /** The group goes, and every membership in it. */
    method DeleteGroup(name: Name) returns (r: Outcome)
      requires Valid()
      modifies this
      ensures Valid() && policies == old(policies)
      ensures r == if name in old(groups) then Done else Failed(NotFound)
      ensures r.Done? ==> groups == old(groups) - {name} && users == UsersWithout(old(users), name)
      ensures r.Failed? ==> users == old(users) && groups == old(groups)
    {
      if name !in groups { return Failed(NotFound); }
      ghost var before := users;
      LoseMembers(name, groups[name].members);
      LosesAll(before, groups, users, name);
      GroupGone(before, groups, policies, name);
      groups := groups - {name};
      r := Done;
    }

    method LoseMembers(name: Name, list: seq<Name>)
      modifies this`users
      ensures users.Keys == old(users).Keys
      ensures forall u :: u in users ==>
        users[u] == if u in list then old(users)[u].(groups := Without(old(users)[u].groups, name)) else old(users)[u]
    {
      var i := 0;
      while i < |list|
        invariant 0 <= i <= |list| && users.Keys == old(users).Keys
        invariant forall u :: u in users ==>
          users[u] == if u in list[..i] then old(users)[u].(groups := Without(old(users)[u].groups, name)) else old(users)[u]
      {
        var u := list[i];
        if u in users {
          WithoutTwice(list, i, name, old(users)[u].groups);
          users := users[u := users[u].(groups := Without(users[u].groups, name))];
        } else {
          WithoutTwice(list, i, name, []);
        }
        i := i + 1;
      }
      assert list[..|list|] == list;
    }

    method PutPolicy(name: Name, doc: Document) returns (r: Outcome)
      requires Valid()
      modifies this`policies
      ensures Valid()
      ensures r == if name in BUILTINS then Failed(BuiltIn) else Done
      ensures r.Done? ==> policies == old(policies)[name := doc]
      ensures r.Failed? ==> policies == old(policies)
    {
      if name in BUILTINS { return Failed(BuiltIn); }
      policies := policies[name := doc];
      r := Done;
    }

    /** A policy goes, and is detached everywhere. Built-in policies stay. */
    method DeletePolicy(name: Name) returns (r: Outcome)
      requires Valid()
      modifies this
      ensures Valid()
      ensures r == if name in BUILTINS then Failed(BuiltIn) else if name in old(policies) then Done else Failed(NotFound)
      ensures r.Done? ==> policies == old(policies) - {name}
      ensures r.Done? ==>
        users == UsersDetached(old(users), name) && groups == GroupsDetached(old(groups), name)
      ensures r.Failed? ==> users == old(users) && groups == old(groups) && policies == old(policies)
    {
      if name in BUILTINS { return Failed(BuiltIn); }
      if name !in policies { return Failed(NotFound); }
      hide UsersDetached, GroupsDetached, Mutual, Attached;
      ghost var u, g := users, groups;
      DetachUsers(name);
      DetachGroups(name);
      PolicyGone(u, g, policies, name);
      policies := policies - {name};
      r := Done;
    }

    method DetachUsers(name: Name)
      modifies this`users
      ensures users == UsersDetached(old(users), name)
    {
      var left := users.Keys;
      while left != {}
        invariant left <= users.Keys == old(users).Keys
        invariant forall u :: u in users ==>
          users[u] == if u in left then old(users)[u] else old(users)[u].(policies := Without(old(users)[u].policies, name))
        decreases |left|
      {
        var u :| u in left;
        if name in users[u].policies {
          users := users[u := users[u].(policies := Without(users[u].policies, name))];
        } else {
          WithoutAbsent(users[u].policies, name);
        }
        left := left - {u};
      }
    }

    method DetachGroups(name: Name)
      modifies this`groups
      ensures groups == GroupsDetached(old(groups), name)
    {
      var left := groups.Keys;
      while left != {}
        invariant left <= groups.Keys == old(groups).Keys
        invariant forall g :: g in groups ==>
          groups[g] == if g in left then old(groups)[g] else old(groups)[g].(policies := Without(old(groups)[g].policies, name))
        decreases |left|
      {
        var g :| g in left;
        if name in groups[g].policies {
          groups := groups[g := groups[g].(policies := Without(groups[g].policies, name))];
        } else {
          WithoutAbsent(groups[g].policies, name);
        }
        left := left - {g};
      }
    }

    /** What `assumeRole` does to the users when the caller is root. */
    method EnsureRoot()
      requires Valid()
      modifies this`users
      ensures Valid() && ROOT in users
      ensures users == if ROOT in old(users) then old(users) else old(users)[ROOT := User(true, [CONSOLE_ADMIN], [])]
    {
      if ROOT !in users { users := users[ROOT := User(true, [CONSOLE_ADMIN], [])]; }
    }

    /** `effectivePolicies`: each policy of the user and of its enabled groups, once. */
    method EffectivePolicies(name: Name) returns (out: seq<Name>)
      requires Valid() && name in users
      ensures Distinct(out) && forall p :: p in out <==> Confers(users, groups, name, p)
    {
      hide Mutual;
      out := AddNew([], users[name].policies);
      var list, i := users[name].groups, 0;
      while i < |list|
        invariant 0 <= i <= |list| && Distinct(out)
        invariant forall p :: p in out <==> p in users[name].policies || InGroups(groups, list[..i], p)
      {
        var g := list[i];
        InNextGroup(groups, list, i);
        if g in groups && groups[g].enabled { out := AddNew(out, groups[g].policies); }
        i := i + 1;
      }
      assert list[..|list|] == list;
    }

    /** The names not yet seen whose policy exists. */
    method AddNew(seen: seq<Name>, names: seq<Name>) returns (out: seq<Name>)
      requires Distinct(seen) && forall p :: p in names ==> p in policies
      ensures Distinct(out) && forall p :: p in out <==> p in seen || p in names
    {
      out := seen;
      var i := 0;
      while i < |names|
        invariant 0 <= i <= |names| && Distinct(out)
        invariant forall p :: p in out <==> p in seen || p in names[..i]
      {
        assert forall p :: p in names[..i + 1] <==> p in names[..i] || p == names[i];
        if names[i] !in out && names[i] in policies { out := out + [names[i]]; }
        i := i + 1;
      }
      assert names[..|names|] == names;
    }

    /** Any sequence of operations keeps memberships mutual and attached policies alive. */
    method Run(ops: seq<Op>)
      requires Valid()
      modifies this
      ensures Valid()
    {
      var i := 0;
      while i < |ops|
        invariant 0 <= i <= |ops| && Valid()
      {
        match ops[i] {
          case OpCreateUser(n, p) => var _ := CreateUser(n, p);
          case OpUpdateUser(n, e, p) => var _ := UpdateUser(n, e, p);
          case OpDeleteUser(n) => var _ := DeleteUser(n);
          case OpCreateGroup(n, m, p) => var _ := CreateGroup(n, m, p);
          case OpUpdateGroup(n, e, m, p) => var _ := UpdateGroup(n, e, m, p);
          case OpDeleteGroup(n) => var _ := DeleteGroup(n);
          case OpPutPolicy(n, d) => var _ := PutPolicy(n, d);
          case OpDeletePolicy(n) => var _ := DeletePolicy(n);
          case OpRootSession => EnsureRoot();
        }
        i := i + 1;
      }
    }
  }

  datatype Op =
    | OpCreateUser(name: Name, attached: seq<Name>)
    | OpUpdateUser(name: Name, enabled: bool, attached: seq<Name>)
    | OpDeleteUser(name: Name)
    | OpCreateGroup(name: Name, members: seq<Name>, attached: seq<Name>)
    | OpUpdateGroup(name: Name, enabled: bool, members: seq<Name>, attached: seq<Name>)
    | OpDeleteGroup(name: Name)
    | OpPutPolicy(name: Name, doc: Document)
    | OpDeletePolicy(name: Name)
    | OpRootSession

  predicate SameButGroups(users: map<Name, User>, users': map<Name, User>) {
    users'.Keys == users.Keys &&
    forall u :: u in users ==> users'[u].enabled == users[u].enabled && users'[u].policies == users[u].policies
  }

  /** Exactly the members carry the group; those `dropped` and not members carry it no more;
      nothing else changes. */
  ghost predicate Joined(users: map<Name, User>, users': map<Name, User>, name: Name, members: seq<Name>, dropped: seq<Name>) {
    SameButGroups(users, users') &&
    forall u :: u in users ==>
      (forall g :: g != name ==> (g in users'[u].groups <==> g in users[u].groups)) &&
      (name in users'[u].groups <==> (u in members || (name in users[u].groups && u !in dropped)))
  }

  lemma JoinNext(users: map<Name, User>, joined: map<Name, User>, name: Name, members: seq<Name>, i: nat)
    requires i < |members| && Joined(users, joined, name, members[..i], []) && members[i] in joined
    ensures var m := members[i];
      Joined(users, joined[m := joined[m].(groups := AppendUnique(joined[m].groups, name))], name, members[..i + 1], [])
    ensures name in users[members[i]].groups ==> Joined(users, joined, name, members[..i + 1], [])
  {
    assert forall u :: u in members[..i + 1] <==> u in members[..i] || u == members[i];
  }

  lemma DropNext(users: map<Name, User>, left: map<Name, User>, name: Name, members: seq<Name>, before: seq<Name>, j: nat)
    requires j < |before| && Joined(users, left, name, members, before[..j])
    ensures var m := before[j];
      if m !in members && m in left
      then Joined(users, left[m := left[m].(groups := Without(left[m].groups, name))], name, members, before[..j + 1])
      else Joined(users, left, name, members, before[..j + 1])
  {
    assert forall u :: u in before[..j + 1] <==> u in before[..j] || u == before[j];
  }

  /** A group that is new, or has new members, keeps memberships mutual when the members join and
      those before leave. */
  lemma GroupJoined(users: map<Name, User>, users': map<Name, User>, groups: map<Name, Group>, policies: map<Name, Document>, name: Name, grp: Group)
    requires Mutual(users, groups) && Attached(users, groups, policies)
    requires Joined(users, users', name, grp.members, if name in groups then groups[name].members else [])
    requires (forall m :: m in grp.members ==> m in users) && forall p :: p in grp.policies ==> p in policies
    ensures Mutual(users', groups[name := grp]) && Attached(users', groups[name := grp], policies)
  {
  }

  /** By mutuality, leaving the groups a user lists is leaving all groups. */
  lemma LeavesAll(users: map<Name, User>, groups: map<Name, Group>, groups': map<Name, Group>, name: Name)
    requires Mutual(users, groups) && name in users && groups'.Keys == groups.Keys
    requires forall g :: g in groups' ==>
      groups'[g] == if g in users[name].groups then groups[g].(members := Without(groups[g].members, name)) else groups[g]
    ensures groups' == GroupsWithout(groups, name)
  {
    hide Mutual, Without;
    forall g | g in groups
      ensures groups'[g] == groups[g].(members := Without(groups[g].members, name))
    {
      NotMember(users, groups, name, g);
    }
  }

  lemma NotMember(users: map<Name, User>, groups: map<Name, Group>, u: Name, g: Name)
    requires Mutual(users, groups) && u in users && g in groups
    ensures g !in users[u].groups ==> groups[g].(members := Without(groups[g].members, u)) == groups[g]
    ensures u !in groups[g].members ==> users[u].(groups := Without(users[u].groups, g)) == users[u]
  {
    hide Without;
    if g !in users[u].groups { WithoutAbsent(groups[g].members, u); }
    if u !in groups[g].members { WithoutAbsent(users[u].groups, g); }
  }

  lemma UserGone(users: map<Name, User>, groups: map<Name, Group>, policies: map<Name, Document>, name: Name)
    requires Mutual(users, groups) && Attached(users, groups, policies)
    ensures Mutual(users - {name}, GroupsWithout(groups, name)) && Attached(users - {name}, GroupsWithout(groups, name), policies)
  {
    hide Without;
    var users', groups' := users - {name}, GroupsWithout(groups, name);
    assert groups'.Keys == groups.Keys && forall g :: g in groups ==>
      groups'[g].policies == groups[g].policies && forall u :: u in groups'[g].members <==> u in groups[g].members && u != name;
    hide GroupsWithout;
  }

  /** By mutuality, taking a group from its members is taking it from all users. */
  lemma LosesAll(users: map<Name, User>, groups: map<Name, Group>, users': map<Name, User>, name: Name)
    requires Mutual(users, groups) && name in groups && users'.Keys == users.Keys
    requires forall u :: u in users' ==>
      users'[u] == if u in groups[name].members then users[u].(groups := Without(users[u].groups, name)) else users[u]
    ensures users' == UsersWithout(users, name)
  {
    hide Mutual, Without;
    forall u | u in users
      ensures users'[u] == users[u].(groups := Without(users[u].groups, name))
    {
      NotMember(users, groups, u, name);
    }
  }

  function UsersDetached(users: map<Name, User>, p: Name): map<Name, User> {
    map u | u in users :: users[u].(policies := Without(users[u].policies, p))
  }

  function GroupsDetached(groups: map<Name, Group>, p: Name): map<Name, Group> {
    map g | g in groups :: groups[g].(policies := Without(groups[g].policies, p))
  }

  lemma PolicyGone(users: map<Name, User>, groups: map<Name, Group>, policies: map<Name, Document>, name: Name)
    requires Mutual(users, groups) && Attached(users, groups, policies)
    ensures Mutual(UsersDetached(users, name), GroupsDetached(groups, name))
    ensures Attached(UsersDetached(users, name), GroupsDetached(groups, name), policies - {name})
  {
    hide Without;
  }

  lemma GroupGone(users: map<Name, User>, groups: map<Name, Group>, policies: map<Name, Document>, name: Name)
    requires Mutual(users, groups) && Attached(users, groups, policies)
    ensures Mutual(UsersWithout(users, name), groups - {name}) && Attached(UsersWithout(users, name), groups - {name}, policies)
  {
    hide Without;
    var users', groups' := UsersWithout(users, name), groups - {name};
    assert users'.Keys == users.Keys && forall u :: u in users ==>
      users'[u].policies == users[u].policies && forall g :: g in users'[u].groups <==> g in users[u].groups && g != name;
    hide UsersWithout;
  }

  /** A name met again is removed again, which changes nothing. */
  lemma WithoutTwice(list: seq<Name>, i: nat, s: Name, l: seq<Name>)
    requires i < |list|
    ensures Without(Without(l, s), s) == Without(l, s)
    ensures forall x :: x in list[..i + 1] <==> x in list[..i] || x == list[i]
  {
    WithoutAbsent(Without(l, s), s);
  }
}
