/**
 Security groups: creation with mutually referring ingress rules (setupSecurityGroups, getIngressRules and
 detectSecurityGroups of cloud/providers/aws/cloud.go).
 */
module AwsGroups {
  import opened Wrappers
  import opened AwsAccount
  import opened AwsProvision
  import opened AwsStack

  /** The part of the cluster object that the AWS provider fills in. */
  class Record {
    /** Status.Cloud.AWS: group ids by role; a missing role is the empty string. */
    var groups: map<Role, Id>
    /** The NAT gateway id saved in the stored cluster spec. */
    var natGateway: Option<Id>

    constructor ()
      ensures groups == map[] && natGateway == None
    {
      groups, natGateway := map[], None;
    }
  }

  /** Every recorded group exists. */
  predicate Known(groups: map<Role, Id>, res: Resources) {
    forall r :: r in groups ==> groups[r] in res && res[groups[r]].kind == Group
  }

  predicate AllRoles(groups: map<Role, Id>) {
    ControlPlane in groups && NodeRole in groups && BastionRole in groups
  }

  const ANYWHERE: seq<string> := ["0.0.0.0/0"]

  function IngressRules(role: Role, groups: map<Role, Id>): (rules: set<Permission>)
    requires AllRoles(groups)
    ensures GroupsOf(rules) <= groups.Values
  {
    var m, n, b := groups[ControlPlane], groups[NodeRole], groups[BastionRole];
    match role
    case BastionRole => {Permission(22, 22, ANYWHERE, [])}
    case ControlPlane =>
      {Permission(22, 22, [], [b]), Permission(6443, 6443, ANYWHERE, []), Permission(2379, 2379, [], [m]),
       Permission(2380, 2380, [], [m]), Permission(179, 179, [], [m, n])}
    case NodeRole =>
      {Permission(22, 22, [], [b]), Permission(30000, 32767, ANYWHERE, []), Permission(10250, 10250, [], [m]),
       Permission(179, 179, [], [m, n])}
    case _ => {}
  }

  /** Only security groups were added or changed. */
  ghost predicate GroupsOnly(before: Resources, after: Resources) {
    && (forall i :: i in before ==> i in after && after[i].kind == before[i].kind)
    && (forall i :: i in before && before[i].kind != Group ==> after[i] == before[i])
    && (forall i :: i in after && i !in before ==> after[i].kind == Group)
  }

  /** The account is tended, and every recorded group is in the VPC of the cluster. */
  ghost predicate Grounded(c: string, others: Resources, v: Id, groups: map<Role, Id>, res: Resources) {
    && v in Found(c, VpcQ, res) && Tended(c, others, res)
    && forall r :: r in groups ==> Inside(v, Group, groups[r], res)
  }

  // ---- Setup -----------------------------------------------------------------------------------

  function WithIngress(res: Resources, id: Id, rules: set<Permission>): Resources
    requires id in res
  {
    res[id := res[id].(ingress := res[id].ingress + rules)]
  }

  /** No lookup sees rules. */
  lemma IngressFinds(c: string, res: Resources, id: Id, rules: set<Permission>)
    requires id in res
    ensures forall p :: Found(c, p, WithIngress(res, id, rules)) == Found(c, p, res)
  {
  }

  lemma IngressKeepsUnique(c: string, before: Resources, after: Resources, id: Id, rules: set<Permission>)
    requires id in before && (after == before || after == WithIngress(before, id, rules))
    ensures Unique(c, before) ==> Unique(c, after)
  {
    hide Matches, Found, WithIngress, Unique;
    IngressFinds(c, before, id, rules);
    if after != before {
      UnseenKeepsUnique(c, before, after);
    }
  }

  /** Rules that name groups of the cluster keep the account tended. */
  lemma IngressTended(c: string, others: Resources, v: Id, groups: map<Role, Id>, before: Resources, id: Id,
                      rules: set<Permission>)
    requires Grounded(c, others, v, groups, before) && id in groups.Values && GroupsOf(rules) <= groups.Values
    ensures Grounded(c, others, v, groups, WithIngress(before, id, rules))
  {
    hide Matches, Refs, GroupsOf, Shaped, Tended, Kept;
    var base, net := Basis(c, others, before);
    FoundIsOurs(c, base, net, before, v);
    IngressShaped(c, base, net, before, id, rules);
    ShapedIsTended(c, others, base, net, WithIngress(before, id, rules));
    IngressFinds(c, before, id, rules);
  }

  lemma IngressShaped(c: string, base: Resources, net: Net, res: Resources, id: Id, rules: set<Permission>)
    requires Shaped(c, base, net, res)
    requires id in res && id !in base && res[id].kind == Group
    requires forall t :: t in GroupsOf(rules) ==> t in res && t !in base && res[t].kind == Group
    ensures Shaped(c, base, net, WithIngress(res, id, rules))
  {
    hide Matches, Refs, GroupsOf, Stack, Apart, Closed;
    IngressStack(c, base, net, res, id, rules);
  }

  lemma IngressStack(c: string, base: Resources, net: Net, res: Resources, id: Id, rules: set<Permission>)
    requires Stack(c, base, net, res)
    requires id in res && id !in base && res[id].kind == Group
    requires forall t :: t in GroupsOf(rules) ==> t in res && t !in base && res[t].kind == Group
    ensures Stack(c, base, net, WithIngress(res, id, rules))
  {
    hide Matches, Refs, GroupsOf;
    var after := WithIngress(res, id, rules);
    forall i | i in after && i !in base
      ensures Mine(c, net, i, after[i]) && RefersDown(base, after, after[i])
    {
      assert Mine(c, net, i, res[i]) && RefersDown(base, res, res[i]);
      if i == id {
        IngressRefs(res[id], rules);
      }
    }
  }

  lemma GroupGrounded(c: string, others: Resources, v: Id, groups: map<Role, Id>, role: Role, before: Resources,
                      after: Resources, id: Id)
    requires Grounded(c, others, v, groups, before) && id !in before
    requires Added(before, after, id, GroupRes(c, v, role, {}))
    ensures Grounded(c, others, v, groups - {role}, after)
  {
    GroupFounded(c, v, role, before);
    AddedIsKept(before, after, id, GroupRes(c, v, role, {}));
    KeptInside(c, before, after);
    GroupShape(c, v, role);
    hide Tended, Founded, GroupRes, Found, Added;
    InternalTended(c, others, v, before, after, id, GroupRes(c, v, role, {}));
  }

  lemma GroupShape(c: string, v: Id, role: Role)
    ensures var full := GroupRes(c, v, role, {}); full.kind == Group && full.vpc == Some(v) && full.links == {}
  {
  }

  lemma AddedIsKept(before: Resources, after: Resources, id: Id, full: Resource)
    requires Added(before, after, id, full) && id !in before
    ensures Kept(before, after)
  {
  }

  lemma FoundIsGrounded(c: string, others: Resources, v: Id, groups: map<Role, Id>, role: Role, res: Resources, id: Id)
    requires Grounded(c, others, v, groups, res) && id in Found(c, GroupQ(v, role), res)
    ensures Grounded(c, others, v, groups[role := id], res)
  {
    hide Tended;
  }

  /** One lookup-or-create of setupSecurityGroups; the recorded id is left empty when a group is created. */
  method EnsureGroup(a: Account, c: string, v: Id, rec: Record, role: Role, ghost others: Resources)
    returns (ok: bool)
    requires a.Valid() && v in a.res && Known(rec.groups, a.res)
    modifies a, rec`groups
    ensures a.Valid() && a.refused == old(a.refused) && old(a.next) <= a.next && v in a.res
    ensures Known(rec.groups, a.res) && GroupsOnly(old(a.res), a.res)
    ensures Found(c, GroupQ(v, role), old(a.res)) != {} ==>
              && ok && a.res == old(a.res)
              && role in rec.groups && rec.groups == old(rec.groups)[role := rec.groups[role]]
    ensures Found(c, GroupQ(v, role), old(a.res)) == {} ==> rec.groups == old(rec.groups) - {role}
    ensures Found(c, GroupQ(v, role), old(a.res)) == {} && ok ==>
              a.res == old(a.res)[old(a.next) := GroupRes(c, v, role, {})] && a.next == old(a.next) + 1
    ensures Unique(c, old(a.res)) ==> Unique(c, a.res)
    ensures Grounded(c, others, v, old(rec.groups), old(a.res)) ==> Grounded(c, others, v, rec.groups, a.res)
    ensures a.reliable ==> ok
  {
    hide Owned, Matches, Refs, Partly, Unique, Grounded;
    var id := a.Lookup(c, GroupQ(v, role));
    FoundGroups(c, v, role, a.res);
    ghost var grounded := Grounded(c, others, v, rec.groups, a.res);
    if id.Some? {
      if grounded {
        FoundIsGrounded(c, others, v, rec.groups, role, a.res, id.value);
      }
      rec.groups := rec.groups[role := id.value];
      return true;
    }
    rec.groups := rec.groups - {role};
    GroupRefs(c, v, role);
    id := CreateTagged(a, GroupRes(c, v, role, {}));
    AddedGroup(old(a.res), a.res, old(a.next), GroupRes(c, v, role, {}));
    if grounded {
      GroupGrounded(c, others, v, old(rec.groups), role, old(a.res), a.res, old(a.next));
    }
    CreationEnsures(c, GroupQ(v, role), GroupRes(c, v, role, {}), old(a.res), a.res, old(a.next), id);
    ok := id.Some?;
  }

  lemma FoundGroups(c: string, v: Id, role: Role, res: Resources)
    ensures forall i :: i in Found(c, GroupQ(v, role), res) ==> i in res && res[i].kind == Group
  {
  }

  lemma AddedGroup(before: Resources, after: Resources, id: Id, full: Resource)
    requires Added(before, after, id, full) && id !in before && full.kind == Group
    ensures GroupsOnly(before, after)
  {
  }

  lemma GroupRefs(c: string, v: Id, role: Role)
    ensures Refs(GroupRes(c, v, role, {})) == {v}
    ensures Answers(c, GroupRes(c, v, role, {}), GroupQ(v, role))
            && Matches(c, GroupQ(v, role), GroupRes(c, v, role, {}))
  {
  }

  /** detectSecurityGroups: fills in the ids that are still empty. */
  method Detect(a: Account, c: string, v: Id, rec: Record, ghost others: Resources) returns (ok: bool)
    requires Known(rec.groups, a.res)
    modifies rec`groups
    ensures Known(rec.groups, a.res)
    ensures Grounded(c, others, v, old(rec.groups), a.res) ==> Grounded(c, others, v, rec.groups, a.res)
    ensures ok ==> AllRoles(rec.groups)
    ensures forall r :: r in old(rec.groups) ==> r in rec.groups && rec.groups[r] == old(rec.groups)[r]
    ensures forall r :: r in rec.groups && r !in old(rec.groups) ==> rec.groups[r] in Found(c, GroupQ(v, r), a.res)
    ensures rec.groups.Keys <= old(rec.groups).Keys + {ControlPlane, NodeRole, BastionRole}
    ensures (forall r | r in {ControlPlane, NodeRole, BastionRole} ::
               r in old(rec.groups) || Found(c, GroupQ(v, r), a.res) != {}) ==> ok
  {
    hide Grounded;
    var roles := [ControlPlane, NodeRole, BastionRole];
    for i := 0 to 3
      invariant Known(rec.groups, a.res)
      invariant Grounded(c, others, v, old(rec.groups), a.res) ==> Grounded(c, others, v, rec.groups, a.res)
      invariant forall j :: 0 <= j < i ==> roles[j] in rec.groups
      invariant forall r :: r in old(rec.groups) ==> r in rec.groups && rec.groups[r] == old(rec.groups)[r]
      invariant forall r :: r in rec.groups && r !in old(rec.groups) ==> rec.groups[r] in Found(c, GroupQ(v, r), a.res)
      invariant rec.groups.Keys <= old(rec.groups).Keys + {ControlPlane, NodeRole, BastionRole}
    {
      if roles[i] !in rec.groups {
        var id := a.Lookup(c, GroupQ(v, roles[i]));
        if id.None? {
          assert roles[i] !in old(rec.groups) && roles[i] in {ControlPlane, NodeRole, BastionRole};
          return false;
        }
        if Grounded(c, others, v, rec.groups, a.res) {
          FoundIsGrounded(c, others, v, rec.groups, roles[i], a.res, id.value);
        }
        rec.groups := rec.groups[roles[i] := id.value];
      }
    }
    assert roles[0] in rec.groups && roles[1] in rec.groups && roles[2] in rec.groups;
    ok := true;
  }

  /** AuthorizeSecurityGroupIngress for one role. */
  method Authorize(a: Account, rec: Record, role: Role) returns (ok: bool)
    requires a.Valid() && Known(rec.groups, a.res) && AllRoles(rec.groups) && role in rec.groups
    modifies a
    ensures a.Valid() && a.refused == old(a.refused) && a.next == old(a.next)
    ensures Known(rec.groups, a.res) && GroupsOnly(old(a.res), a.res)
    ensures a.res == if ok then WithIngress(old(a.res), rec.groups[role], IngressRules(role, rec.groups))
            else old(a.res)
    ensures a.reliable ==> ok
  {
    hide IngressRules, GroupsOf, Refs;
    var g := rec.groups[role];
    var rules := IngressRules(role, rec.groups);
    var r := a.res[g].(ingress := a.res[g].ingress + rules);
    RulesKnown(role, rec.groups, a.res);
    IngressRefs(a.res[g], rules);
    assert Refs(a.res[g]) <= a.res.Keys;
    ok := a.Modify(g, r);
  }

  lemma RulesKnown(role: Role, groups: map<Role, Id>, res: Resources)
    requires Known(groups, res) && AllRoles(groups)
    ensures GroupsOf(IngressRules(role, groups)) <= res.Keys
  {
    hide GroupsOf, IngressRules;
    assert groups.Values <= res.Keys;
  }

  lemma IngressRefs(r: Resource, rules: set<Permission>)
    ensures Refs(r.(ingress := r.ingress + rules)) <= Refs(r) + GroupsOf(rules)
  {
  }

  /** The rules of all three groups, in the order pharmer authorizes them. */
  function Authorized(res: Resources, groups: map<Role, Id>): Resources
    requires AllRoles(groups) && Known(groups, res)
  {
    var one := WithIngress(res, groups[BastionRole], IngressRules(BastionRole, groups));
    var two := WithIngress(one, groups[ControlPlane], IngressRules(ControlPlane, groups));
    WithIngress(two, groups[NodeRole], IngressRules(NodeRole, groups))
  }

  lemma RulesTended(c: string, others: Resources, v: Id, groups: map<Role, Id>, role: Role, before: Resources,
                    after: Resources)
    requires AllRoles(groups) && role in groups && groups[role] in before
    requires after == before || after == WithIngress(before, groups[role], IngressRules(role, groups))
    ensures Grounded(c, others, v, groups, before) ==> Grounded(c, others, v, groups, after)
  {
    hide IngressRules, GroupsOf, Grounded, WithIngress;
    if Grounded(c, others, v, groups, before) && after != before {
      IngressTended(c, others, v, groups, before, groups[role], IngressRules(role, groups));
    }
  }

  method AuthorizeAll(a: Account, c: string, v: Id, rec: Record, ghost others: Resources) returns (ok: bool)
    requires a.Valid() && Known(rec.groups, a.res) && AllRoles(rec.groups)
    modifies a
    ensures a.Valid() && a.refused == old(a.refused) && a.next == old(a.next)
    ensures Known(rec.groups, a.res) && GroupsOnly(old(a.res), a.res)
    ensures ok ==> a.res == Authorized(old(a.res), rec.groups)
    ensures Unique(c, old(a.res)) ==> Unique(c, a.res)
    ensures Grounded(c, others, v, rec.groups, old(a.res)) ==> Grounded(c, others, v, rec.groups, a.res)
    ensures a.reliable ==> ok
  {
    hide IngressRules, GroupsOf, Refs, Unique, WithIngress, Grounded;
    ghost var g := rec.groups;
    ghost var res := a.res;
    ok := Authorize(a, rec, BastionRole);
    IngressKeepsUnique(c, res, a.res, g[BastionRole], IngressRules(BastionRole, g));
    RulesTended(c, others, v, g, BastionRole, res, a.res);
    if !ok {
      return;
    }
    res := a.res;
    ok := Authorize(a, rec, ControlPlane);
    IngressKeepsUnique(c, res, a.res, g[ControlPlane], IngressRules(ControlPlane, g));
    RulesTended(c, others, v, g, ControlPlane, res, a.res);
    if !ok {
      return;
    }
    res := a.res;
    ok := Authorize(a, rec, NodeRole);
    IngressKeepsUnique(c, res, a.res, g[NodeRole], IngressRules(NodeRole, g));
    RulesTended(c, others, v, g, NodeRole, res, a.res);
  }

  /** The three groups before any rule is authorized. */
  function BlankGroups(c: string, v: Id, res: Resources, m: Id): Resources {
    res[m := GroupRes(c, v, ControlPlane, {})][m + 1 := GroupRes(c, v, NodeRole, {})]
       [m + 2 := GroupRes(c, v, BastionRole, {})]
  }

  ghost predicate NoGroups(c: string, v: Id, res: Resources) {
    forall role :: Found(c, GroupQ(v, role), res) == {}
  }

  /**
   What setting up the groups leaves. Success records every role; from no groups, that is three new groups
   with their rules.
   */
  ghost predicate Grouped(c: string, v: Id, before: Resources, m: Id, after: Resources, groups: map<Role, Id>,
                          ok: bool)
  {
    && Known(groups, after) && GroupsOnly(before, after)
    && (Unique(c, before) ==> Unique(c, after))
    && (ok ==> AllRoles(groups))
    && (ok && NoGroups(c, v, before) ==>
          && groups[ControlPlane] == m && groups[NodeRole] == m + 1 && groups[BastionRole] == m + 2
          && Known(groups, BlankGroups(c, v, before, m))
          && after == Authorized(BlankGroups(c, v, before, m), groups))
  }

  /** ensureSecurityGroup. */
  method EnsureGroups(a: Account, c: string, v: Id, rec: Record, ghost others: Resources) returns (ok: bool)
    requires a.Valid() && v in a.res && Known(rec.groups, a.res)
    modifies a, rec`groups
    ensures a.Valid() && a.refused == old(a.refused) && old(a.next) <= a.next
    ensures Grouped(c, v, old(a.res), old(a.next), a.res, rec.groups, ok)
    ensures Grounded(c, others, v, old(rec.groups), old(a.res)) ==> Grounded(c, others, v, rec.groups, a.res)
    ensures a.reliable && NoGroups(c, v, old(a.res)) ==> ok
  {
    hide Owned, Matches, GroupRes, IngressRules, Refs, Unique, Grounded;
    var found := a.Lookup(c, GroupQ(v, ControlPlane));
    if found.None? {
      ok := SetupGroups(a, c, v, rec, others);
    } else {
      ok := Detect(a, c, v, rec, others);
    }
  }

  /** setupSecurityGroups. */
  method SetupGroups(a: Account, c: string, v: Id, rec: Record, ghost others: Resources) returns (ok: bool)
    requires a.Valid() && v in a.res && Known(rec.groups, a.res)
    modifies a, rec`groups
    ensures a.Valid() && a.refused == old(a.refused) && old(a.next) <= a.next
    ensures Grouped(c, v, old(a.res), old(a.next), a.res, rec.groups, ok)
    ensures Grounded(c, others, v, old(rec.groups), old(a.res)) ==> Grounded(c, others, v, rec.groups, a.res)
    ensures a.reliable && NoGroups(c, v, old(a.res)) ==> ok
  {
    hide Owned, Matches, GroupRes, IngressRules, Refs, Unique, Grounded, GroupsOnly, BlankGroups, Authorized;
    ghost var before := a.res;
    ok := CreateGroups(a, c, v, rec, others);
    if !ok {
      return;
    }
    ghost var made := a.res;
    ok := Detect(a, c, v, rec, others);
    if !ok {
      return;
    }
    ok := AuthorizeAll(a, c, v, rec, others);
    GroupsOnlyTransitive(before, made, a.res);
  }

  /** The creations of setupSecurityGroups. */
  method CreateGroups(a: Account, c: string, v: Id, rec: Record, ghost others: Resources) returns (ok: bool)
    requires a.Valid() && v in a.res && Known(rec.groups, a.res)
    modifies a, rec`groups
    ensures a.Valid() && a.refused == old(a.refused) && old(a.next) <= a.next
    ensures Known(rec.groups, a.res) && GroupsOnly(old(a.res), a.res)
    ensures Unique(c, old(a.res)) ==> Unique(c, a.res)
    ensures Grounded(c, others, v, old(rec.groups), old(a.res)) ==> Grounded(c, others, v, rec.groups, a.res)
    ensures ok && NoGroups(c, v, old(a.res)) ==>
              && a.res == BlankGroups(c, v, old(a.res), old(a.next))
              && ControlPlane !in rec.groups && NodeRole !in rec.groups && BastionRole !in rec.groups
              && Found(c, GroupQ(v, ControlPlane), a.res) == {old(a.next)}
              && Found(c, GroupQ(v, NodeRole), a.res) == {old(a.next) + 1}
              && Found(c, GroupQ(v, BastionRole), a.res) == {old(a.next) + 2}
    ensures a.reliable ==> ok
  {
    hide Owned, Refs, Matches, GroupRes, Found, GroupsOnly, Unique, Grounded;
    BlankFinds(c, v, a.res, a.next);
    ghost var before := a.res;
    ok := EnsureGroup(a, c, v, rec, ControlPlane, others);
    if !ok {
      return;
    }
    ghost var one := a.res;
    ok := EnsureGroup(a, c, v, rec, NodeRole, others);
    if !ok {
      GroupsOnlyTransitive(before, one, a.res);
      return;
    }
    ghost var two := a.res;
    GroupsOnlyTransitive(before, one, two);
    ok := EnsureGroup(a, c, v, rec, BastionRole, others);
    GroupsOnlyTransitive(before, two, a.res);
  }

  lemma GroupsOnlyTransitive(one: Resources, two: Resources, three: Resources)
    requires GroupsOnly(one, two) && GroupsOnly(two, three)
    ensures GroupsOnly(one, three)
  {
  }

  /** Each creation is found by the lookup for its own role, and by no other. */
  lemma BlankFinds(c: string, v: Id, before: Resources, m: Id)
    requires m !in before && m + 1 !in before && m + 2 !in before
    ensures NoGroups(c, v, before) ==>
              var one := before[m := GroupRes(c, v, ControlPlane, {})];
              var two := one[m + 1 := GroupRes(c, v, NodeRole, {})];
              && Found(c, GroupQ(v, ControlPlane), before) == {}
              && Found(c, GroupQ(v, NodeRole), one) == {} && Found(c, GroupQ(v, BastionRole), two) == {}
              && Found(c, GroupQ(v, ControlPlane), BlankGroups(c, v, before, m)) == {m}
              && Found(c, GroupQ(v, NodeRole), BlankGroups(c, v, before, m)) == {m + 1}
              && Found(c, GroupQ(v, BastionRole), BlankGroups(c, v, before, m)) == {m + 2}
  {
    hide Found, Matches, GroupRes;
    if NoGroups(c, v, before) {
      var one := before[m := GroupRes(c, v, ControlPlane, {})];
      var two := one[m + 1 := GroupRes(c, v, NodeRole, {})];
      GroupAddsFound(c, v, before, ControlPlane, m);
      GroupAddsFound(c, v, one, NodeRole, m + 1);
      GroupAddsFound(c, v, two, BastionRole, m + 2);
    }
  }

  lemma GroupAddsFound(c: string, v: Id, before: Resources, role: Role, id: Id)
    requires id !in before
    ensures var after := before[id := GroupRes(c, v, role, {})];
            && Found(c, GroupQ(v, role), after) == Found(c, GroupQ(v, role), before) + {id}
            && forall r :: r != role ==> Found(c, GroupQ(v, r), after) == Found(c, GroupQ(v, r), before)
  {
  }
}
