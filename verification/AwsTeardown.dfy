/** Teardown: the delete methods of cloud/providers/aws/cloud.go, and what they can do to an account at all. */
module AwsTeardown {
  import opened Wrappers
  import opened AwsAccount
  import opened AwsProvision
  import opened AwsGroups

  // ---- What teardown can do at all -------------------------------------------------------------

  /** Resources were deleted, detached, or stripped of rules and links; none was added or renamed. */
  ghost predicate Shrunk(before: Resources, after: Resources) {
    && after.Keys <= before.Keys
    && forall i :: i in after ==>
         && after[i].kind == before[i].kind && after[i].name == before[i].name && after[i].tags == before[i].tags
         && after[i].live == before[i].live && (after[i].vpc == before[i].vpc || after[i].vpc == None)
  }

  ghost predicate InUseOnly(log: seq<Refusal>, log': seq<Refusal>) {
    log <= log' && forall i :: |log| <= i < |log'| ==> log'[i].InUse?
  }

  /** The account shrank, and refused nothing but deletions of resources in use. */
  ghost predicate Fewer(before: Resources, log: seq<Refusal>, after: Resources, log': seq<Refusal>) {
    Shrunk(before, after) && InUseOnly(log, log')
  }

  lemma RemovedIsFewer(res: Resources, gone: set<Id>, log: seq<Refusal>, log': seq<Refusal>)
    requires InUseOnly(log, log')
    ensures Fewer(res, log, res - gone, log')
  {
  }

  lemma FewerSame(res: Resources, log: seq<Refusal>)
    ensures Fewer(res, log, res, log)
  {
  }

  lemma FewerOn(one: Resources, log1: seq<Refusal>, two: Resources, log2: seq<Refusal>,
                three: Resources, log3: seq<Refusal>)
    requires Fewer(one, log1, two, log2) && Fewer(two, log2, three, log3)
    ensures Fewer(one, log1, three, log3)
  {
  }

  lemma ShrunkFinds(c: string, before: Resources, after: Resources, q: Query)
    requires Shrunk(before, after) && Guard(q)
    ensures Found(c, q, after) <= Found(c, q, before)
  {
  }

  /** Teardown never makes a guarding lookup ambiguous. */
  lemma ShrunkKeepsUnique(c: string, before: Resources, after: Resources)
    requires Shrunk(before, after) && Unique(c, before)
    ensures Unique(c, after)
  {
    hide Matches, Found, Shrunk;
    ShrunkFinds(c, before, after, VpcQ);
    ShrunkFinds(c, before, after, KeyQ);
    ShrunkFinds(c, before, after, BalancerQ);
    forall q, v | v in Found(c, VpcQ, after) && InVpc(q, v)
      ensures AtMostOne(c, q, after)
    {
      assert AtMostOne(c, q, before);
      ShrunkFinds(c, before, after, q);
    }
  }

  lemma LighterIsFewer(before: Resources, after: Resources, listed: set<Id>, log: seq<Refusal>)
    requires Lighter(before, after, listed)
    ensures Fewer(before, log, after, log)
  {
  }

  // ---- Deleting a list -------------------------------------------------------------------------

  function Elements(ids: seq<Id>): set<Id> {
    set i | i in ids
  }

  /** One pass of deletions, each carried out unless something still refers to its target. */
  ghost function Sweep(res: Resources, order: seq<Id>): Resources {
    if order == [] then res
    else Sweep(if Referenced(order[0], res) then res else res - {order[0]}, order[1..])
  }

  /** Two groups whose rules name each other survive every order of deletions. */
  lemma {:induction false} CycleSurvives(res: Resources, order: seq<Id>, x: Id, y: Id)
    requires x in res && y in res && x != y
    requires x in Refs(res[y]) && y in Refs(res[x])
    ensures var after := Sweep(res, order);
            x in after && y in after && after[x] == res[x] && after[y] == res[y]
  {
    if order != [] {
      assert Referenced(x, res) && Referenced(y, res);
      CycleSurvives(if Referenced(order[0], res) then res else res - {order[0]}, order[1..], x, y);
    }
  }

  lemma GroupNames(perms: set<Permission>, p: Permission, g: Id)
    requires p in perms && g in p.groups
    ensures g in GroupsOf(perms)
  {
  }

  /**
   The groups that setupSecurityGroups builds are such a pair: the control plane admits the nodes and
   the nodes admit the control plane, so no order of plain deletions clears them.
   */
  lemma BuiltGroupsSurvive(c: string, v: Id, res: Resources, m: Id, groups: map<Role, Id>, order: seq<Id>)
    requires AllRoles(groups) && Known(groups, BlankGroups(c, v, res, m))
    requires groups[ControlPlane] == m && groups[NodeRole] == m + 1 && groups[BastionRole] == m + 2
    ensures var after := Sweep(Authorized(BlankGroups(c, v, res, m), groups), order); m in after && m + 1 in after
  {
    var built := Authorized(BlankGroups(c, v, res, m), groups);
    var bgp := Permission(179, 179, [], [m, m + 1]);
    assert bgp in built[m].ingress && bgp in built[m + 1].ingress;
    GroupNames(built[m].ingress, bgp, m + 1);
    GroupNames(built[m + 1].ingress, bgp, m);
    CycleSurvives(built, order, m, m + 1);
  }

  lemma StillUnreferenced(res: Resources, gone: set<Id>, t: Id)
    requires !Referenced(t, res)
    ensures !Referenced(t, res - gone)
  {
    forall i | i in res - gone && i != t
      ensures t !in Refs((res - gone)[i])
    {
      assert i in res && (res - gone)[i] == res[i];
    }
  }

  /** Targets that nothing refers to are all deleted, in whatever order they are listed. */
  lemma {:induction false} SweepClears(res: Resources, order: seq<Id>)
    requires forall t :: t in order ==> !Referenced(t, res)
    ensures Sweep(res, order) == res - Elements(order)
  {
    if order == [] {
      assert res - Elements(order) == res;
    } else {
      assert order[0] in order;
      var rest := res - {order[0]};
      forall t | t in order[1..]
        ensures !Referenced(t, rest)
      {
        assert t in order;
        StillUnreferenced(res, {order[0]}, t);
      }
      SweepClears(rest, order[1..]);
      assert Elements(order) == {order[0]} + Elements(order[1..]);
      assert rest - Elements(order[1..]) == res - Elements(order);
    }
  }

  /** The delete loops: stop at the first deletion that fails. */
  method DeleteEach(a: Account, ids: seq<Id>) returns (ok: bool, ghost gone: set<Id>)
    requires a.Valid()
    requires forall i, j :: 0 <= i < j < |ids| ==> ids[i] != ids[j]
    requires forall i :: i in ids ==> i in a.res
    modifies a
    ensures a.Valid() && a.next == old(a.next)
    ensures Fewer(old(a.res), old(a.refused), a.res, a.refused)
    ensures gone <= Elements(ids) && a.res == old(a.res) - gone
    ensures ok ==> gone == Elements(ids)
    ensures (forall t :: t in ids ==> !Referenced(t, old(a.res))) ==>
              a.refused == old(a.refused) && (a.reliable ==> ok)
  {
    hide Fewer, Elements, Referenced, Refs;
    ghost var before := a.res;
    gone := {};
    NoElements(before, ids);
    for k := 0 to |ids|
      invariant a.Valid() && a.next == old(a.next) && InUseOnly(old(a.refused), a.refused)
      invariant gone == Elements(ids[..k]) && a.res == before - gone
      invariant (forall t :: t in ids ==> !Referenced(t, before)) ==> a.refused == old(a.refused)
    {
      OneMoreElement(before, ids, k);
      if !Referenced(ids[k], before) {
        StillUnreferenced(before, gone, ids[k]);
      }
      ok := a.Delete(ids[k]);
      if !ok {
        RemovedIsFewer(before, gone, old(a.refused), a.refused);
        return;
      }
      gone := gone + {ids[k]};
    }
    RemovedIsFewer(before, gone, old(a.refused), a.refused);
    assert ids[..|ids|] == ids;
    ok := true;
  }

  lemma NoElements(res: Resources, ids: seq<Id>)
    ensures Elements(ids[..0]) == {} && res - {} == res
  {
  }

  lemma OneMoreElement(res: Resources, ids: seq<Id>, k: nat)
    requires k < |ids| && forall i, j :: 0 <= i < j < |ids| ==> ids[i] != ids[j]
    requires ids[k] in res
    ensures ids[k] in ids && ids[k] in res - Elements(ids[..k]) && Elements(ids[..k]) <= Elements(ids)
    ensures Elements(ids[..k + 1]) == Elements(ids[..k]) + {ids[k]} && Elements(ids[..k + 1]) <= Elements(ids)
    ensures res - Elements(ids[..k]) - {ids[k]} == res - (Elements(ids[..k]) + {ids[k]})
  {
    assert ids[..k + 1] == ids[..k] + [ids[k]];
    assert ids[k] !in ids[..k];
  }

  // ---- Security groups -------------------------------------------------------------------------

  /** The account once the listed groups have no rules left. */
  function Revoked(res: Resources, listed: set<Id>): Resources {
    map i | i in res :: if i in listed then res[i].(ingress := {}, egress := {}) else res[i]
  }

  function Outer(r: Resource): set<Id> {
    (if r.vpc.Some? then {r.vpc.value} else {}) + r.links
  }

  /** Only the rules of listed groups refer to listed groups. */
  ghost predicate OnlyRulesRefer(res: Resources, listed: set<Id>) {
    && (forall i :: i in res && i !in listed ==> Refs(res[i]) !! listed)
    && (forall i :: i in res && i in listed ==> res[i].kind == Group && Outer(res[i]) !! listed)
  }

  /** Whatever cycle the rules formed, once they are revoked no listed group is referred to. */
  lemma RevokedIsFree(res: Resources, listed: set<Id>)
    requires OnlyRulesRefer(res, listed)
    ensures forall t :: t in listed ==> !Referenced(t, Revoked(res, listed))
  {
    var after := Revoked(res, listed);
    forall t, i | t in listed && i in after && i != t
      ensures t !in Refs(after[i])
    {
      if i in listed {
        assert Refs(after[i]) == Outer(res[i]);
      }
    }
  }

  /** What a poll has left to do: one item for each listed group and one for each of its rules. */
  datatype Item = GroupItem(group: Id) | RuleItem(group: Id, incoming: bool, rule: Permission)

  function Burden(res: Resources, listed: set<Id>): set<Item> {
    (set i | i in listed && i in res :: GroupItem(i))
    + (set i, p | i in listed && i in res && p in res[i].ingress :: RuleItem(i, true, p))
    + (set i, p | i in listed && i in res && p in res[i].egress :: RuleItem(i, false, p))
  }

  /** Only listed groups were touched, and they only lost rules or disappeared. */
  ghost predicate Lighter(before: Resources, after: Resources, listed: set<Id>) {
    && before.Keys - listed <= after.Keys <= before.Keys
    && (forall i :: i in after && i !in listed ==> after[i] == before[i])
    && (forall i :: i in after && i in listed ==>
          && after[i] == before[i].(ingress := after[i].ingress, egress := after[i].egress)
          && after[i].ingress <= before[i].ingress && after[i].egress <= before[i].egress)
  }

  lemma LighterBurden(before: Resources, after: Resources, listed: set<Id>)
    requires Lighter(before, after, listed)
    ensures Burden(after, listed) <= Burden(before, listed)
    ensures |Burden(after, listed)| <= |Burden(before, listed)|
  {
    assert Burden(after, listed) <= Burden(before, listed);
    Subset(Burden(after, listed), Burden(before, listed));
  }

  lemma Subset<T>(a: set<T>, b: set<T>)
    requires a <= b
    ensures |a| <= |b|
  {
    assert b == a + (b - a);
  }

  lemma LighterTransitive(one: Resources, two: Resources, three: Resources, listed: set<Id>)
    requires Lighter(one, two, listed) && Lighter(two, three, listed)
    ensures Lighter(one, three, listed)
  {
  }

  lemma FewerRules(r: Resource, less: Resource)
    requires less == r.(ingress := less.ingress, egress := less.egress)
    requires less.ingress <= r.ingress && less.egress <= r.egress
    ensures Refs(less) <= Refs(r)
  {
  }

  method RevokeGroup(a: Account, id: Id) returns (ok: bool)
    requires a.Valid() && id in a.res && a.res[id].kind == Group
    modifies a
    ensures a.Valid() && a.next == old(a.next) && a.refused == old(a.refused)
    ensures Lighter(old(a.res), a.res, {id}) && id in a.res
    ensures ok ==> a.res == old(a.res)[id := old(a.res)[id].(ingress := {}, egress := {})]
    ensures a.reliable ==> ok
  {
    hide Refs;
    assert Refs(a.res[id]) <= a.res.Keys;
    if a.res[id].ingress != {} {
      var r := a.res[id].(ingress := {});
      FewerRules(a.res[id], r);
      ok := a.Modify(id, r);
      if !ok {
        return;
      }
    }
    if a.res[id].egress != {} {
      var r := a.res[id].(egress := {});
      FewerRules(a.res[id], r);
      ok := a.Modify(id, r);
      if !ok {
        return;
      }
    }
    ok := true;
  }

  lemma RevokedFacts(res: Resources, listed: set<Id>)
    ensures Revoked(res, listed).Keys == res.Keys && Lighter(res, Revoked(res, listed), listed)
    ensures forall i :: i in res ==> Revoked(res, listed)[i].kind == res[i].kind
    ensures Revoked(res, {}) == res
  {
  }

  lemma RevokedOneMore(before: Resources, after: Resources, ids: seq<Id>, k: nat)
    requires k < |ids| && ids[k] in before
    requires Lighter(Revoked(before, Elements(ids[..k])), after, {ids[k]}) && ids[k] in after
    ensures Lighter(before, after, Elements(ids)) && after.Keys == before.Keys
    ensures var r := Revoked(before, Elements(ids[..k]));
            r[ids[k] := r[ids[k]].(ingress := {}, egress := {})] == Revoked(before, Elements(ids[..k + 1]))
  {
    assert ids[k] in Elements(ids) && Elements(ids[..k]) <= Elements(ids);
    assert ids[..k + 1] == ids[..k] + [ids[k]];
  }

  method RevokeEach(a: Account, ids: seq<Id>) returns (ok: bool)
    requires a.Valid()
    requires forall i :: i in ids ==> i in a.res && a.res[i].kind == Group
    modifies a
    ensures a.Valid() && a.next == old(a.next) && a.refused == old(a.refused)
    ensures Lighter(old(a.res), a.res, Elements(ids)) && a.res.Keys == old(a.res).Keys
    ensures ok ==> a.res == Revoked(old(a.res), Elements(ids))
    ensures a.reliable ==> ok
  {
    hide Refs, Revoked, Lighter;
    ghost var before := a.res;
    RevokedFacts(before, {});
    assert Elements(ids[..0]) == {};
    for k := 0 to |ids|
      invariant a.Valid() && a.next == old(a.next) && a.refused == old(a.refused)
      invariant a.res == Revoked(before, Elements(ids[..k]))
    {
      RevokedFacts(before, Elements(ids[..k]));
      assert ids[k] in ids;
      ok := RevokeGroup(a, ids[k]);
      RevokedOneMore(before, a.res, ids, k);
      if !ok {
        return;
      }
    }
    assert ids[..|ids|] == ids;
    RevokedFacts(before, Elements(ids));
    ok := true;
  }

  /** One poll of deleteSecurityGroup. */
  method PollGroups(a: Account, c: string, v: Id) returns (done: bool)
    requires a.Valid()
    modifies a
    ensures a.Valid() && a.next == old(a.next)
    ensures Fewer(old(a.res), old(a.refused), a.res, a.refused)
    ensures Lighter(old(a.res), a.res, Found(c, KindQ(Group, v), old(a.res)))
    ensures done ==> a.res == old(a.res) - Found(c, KindQ(Group, v), old(a.res))
    ensures OnlyRulesRefer(old(a.res), Found(c, KindQ(Group, v), old(a.res))) ==>
              a.refused == old(a.refused) && (a.reliable ==> done)
  {
    hide Refs, Matches, Found, Fewer;
    ghost var listed := Found(c, KindQ(Group, v), a.res);
    ListedAreGroups(c, v, a.res);
    FewerSame(a.res, a.refused);
    var fault := a.Fault();
    if fault {
      return false;
    }
    var ids := a.Describe(c, KindQ(Group, v));
    assert Elements(ids) == listed;
    done := RevokeEach(a, ids);
    LighterIsFewer(old(a.res), a.res, listed, a.refused);
    if !done {
      return;
    }
    ghost var revoked := a.res;
    if OnlyRulesRefer(old(a.res), listed) {
      RevokedIsFree(old(a.res), listed);
    }
    ghost var gone;
    done, gone := DeleteEach(a, ids);
    RevokedThenGone(old(a.res), listed, gone);
    FewerOn(old(a.res), old(a.refused), revoked, old(a.refused), a.res, a.refused);
  }

  lemma ListedAreGroups(c: string, v: Id, res: Resources)
    ensures forall i :: i in Found(c, KindQ(Group, v), res) ==> i in res && res[i].kind == Group
  {
  }

  lemma RevokedThenGone(res: Resources, listed: set<Id>, gone: set<Id>)
    requires gone <= listed
    ensures Lighter(res, Revoked(res, listed) - gone, listed)
    ensures gone == listed ==> Revoked(res, listed) - gone == res - listed
  {
  }

  /**
   deleteSecurityGroup: poll until a pass goes through, at most `polls` times. Each poll lists the
   groups again; none of them touches anything else, and the burden never grows.
   */
  method DeleteGroups(a: Account, c: string, v: Id, polls: nat) returns (done: bool)
    requires a.Valid() && polls > 0
    modifies a
    ensures a.Valid() && a.next == old(a.next)
    ensures Fewer(old(a.res), old(a.refused), a.res, a.refused)
    ensures Lighter(old(a.res), a.res, Found(c, KindQ(Group, v), old(a.res)))
    ensures |Burden(a.res, Found(c, KindQ(Group, v), old(a.res)))|
            <= |Burden(old(a.res), Found(c, KindQ(Group, v), old(a.res)))|
    ensures done ==> a.res == old(a.res) - Found(c, KindQ(Group, v), old(a.res))
    ensures a.reliable && OnlyRulesRefer(old(a.res), Found(c, KindQ(Group, v), old(a.res))) ==>
              done && a.refused == old(a.refused)
  {
    hide Refs, Burden, Fewer;
    FewerSame(a.res, a.refused);
    ghost var listed := Found(c, KindQ(Group, v), a.res);
    ghost var before := a.res;
    done := false;
    var left := polls;
    while !done && left > 0
      invariant a.Valid() && a.next == old(a.next)
      invariant Lighter(before, a.res, listed)
      invariant Fewer(old(a.res), old(a.refused), a.res, a.refused)
      invariant done ==> a.res == before - listed
      invariant left <= polls
      invariant left == polls ==> !done && a.res == before && a.refused == old(a.refused)
      invariant left < polls && a.reliable && OnlyRulesRefer(before, listed) ==> done && a.refused == old(a.refused)
    {
      ghost var start, log := a.res, a.refused;
      LighterFinds(c, v, before, start);
      done := PollGroups(a, c, v);
      FewerOn(old(a.res), old(a.refused), start, log, a.res, a.refused);
      LighterTransitive(before, start, a.res, listed);
      left := left - 1;
    }
    LighterBurden(before, a.res, listed);
  }

  /** A later poll lists exactly the groups that are left. */
  lemma LighterFinds(c: string, v: Id, before: Resources, after: Resources)
    requires Lighter(before, after, Found(c, KindQ(Group, v), before))
    ensures Found(c, KindQ(Group, v), after) == Found(c, KindQ(Group, v), before) * after.Keys
    ensures forall x :: Lighter(after, x, Found(c, KindQ(Group, v), after)) ==>
                        Lighter(after, x, Found(c, KindQ(Group, v), before))
  {
  }

  // ---- Everything else -------------------------------------------------------------------------

  /** Nothing outside `listed` was touched. */
  ghost predicate OnlyTouched(before: Resources, after: Resources, listed: set<Id>) {
    forall i :: i !in listed ==> (i in before <==> i in after) && (i in before ==> after[i] == before[i])
  }

  ghost predicate Free(listed: set<Id>, res: Resources) {
    forall t :: t in listed ==> !Referenced(t, res)
  }

  /** List and delete: deleteSubnetID, deleteSSHKey, deleteLoadBalancer. */
  method DeleteFound(a: Account, c: string, q: Query) returns (ok: bool)
    requires a.Valid()
    modifies a
    ensures a.Valid() && a.next == old(a.next)
    ensures Fewer(old(a.res), old(a.refused), a.res, a.refused)
    ensures OnlyTouched(old(a.res), a.res, Found(c, q, old(a.res)))
    ensures ok ==> a.res == old(a.res) - Found(c, q, old(a.res))
    ensures Free(Found(c, q, old(a.res)), old(a.res)) ==> a.refused == old(a.refused) && (a.reliable ==> ok)
  {
    hide Matches, Refs;
    var ids := a.Describe(c, q);
    assert Elements(ids) == Found(c, q, a.res);
    ghost var gone;
    ok, gone := DeleteEach(a, ids);
  }

  /** deleteInstance: terminate, then wait. */
  method DeleteInstances(a: Account, c: string, role: Role) returns (ok: bool)
    requires a.Valid()
    modifies a
    ensures a.Valid() && a.next == old(a.next)
    ensures Fewer(old(a.res), old(a.refused), a.res, a.refused)
    ensures OnlyTouched(old(a.res), a.res, Found(c, InstanceQ(role), old(a.res)))
    ensures ok ==> a.res == old(a.res) - Found(c, InstanceQ(role), old(a.res))
    ensures Free(Found(c, InstanceQ(role), old(a.res)), old(a.res)) ==>
              a.refused == old(a.refused) && (a.reliable ==> ok)
  {
    hide Matches, Refs, Free;
    ok := DeleteFound(a, c, InstanceQ(role));
    var fault := a.Fault();
    ok := ok && !fault;
  }

  /** A gateway off its VPC; a route table off its subnets, its routes still there. */
  function Detached(res: Resources, id: Id): Resource
    requires id in res
  {
    var r := res[id];
    if r.kind == Gateway then r.(vpc := None)
    else if r.kind == Table then r.(links := set t | t in r.links && !(t in res && res[t].kind == Subnet))
    else r
  }

  lemma DetachedKeepsFree(res: Resources, id: Id, t: Id)
    requires id in res && !Referenced(t, res)
    ensures Refs(Detached(res, id)) <= Refs(res[id])
    ensures !Referenced(t, res[id := Detached(res, id)])
  {
    var after := res[id := Detached(res, id)];
    forall i | i in after && i != t
      ensures t !in Refs(after[i])
    {
      assert t !in Refs(res[i]);
    }
  }

  method DetachAndDelete(a: Account, id: Id) returns (ok: bool)
    requires a.Valid() && id in a.res
    modifies a
    ensures a.Valid() && a.next == old(a.next)
    ensures Fewer(old(a.res), old(a.refused), a.res, a.refused)
    ensures OnlyTouched(old(a.res), a.res, {id})
    ensures ok ==> a.res == old(a.res) - {id}
    ensures !Referenced(id, old(a.res)) ==> a.refused == old(a.refused) && (a.reliable ==> ok)
  {
    hide Refs, Detached, Referenced, Closed;
    ghost var before := a.res;
    DetachedIsSmaller(a.res, id);
    DetachedIsFewer(a.res, id, a.refused);
    ok := a.Modify(id, Detached(a.res, id));
    if !ok {
      return;
    }
    if !Referenced(id, before) {
      DetachedKeepsFree(before, id, id);
    }
    ok := a.Delete(id);
  }

  lemma DetachedIsFewer(res: Resources, id: Id, log: seq<Refusal>)
    requires id in res
    ensures Fewer(res, log, res[id := Detached(res, id)], log)
  {
  }

  lemma DetachedIsSmaller(res: Resources, id: Id)
    requires Closed(res) && id in res
    ensures Refs(Detached(res, id)) <= res.Keys
  {
    assert Refs(res[id]) <= res.Keys;
  }

  /** deleteRouteTable and deleteInternetGateway. */
  method DetachAndDeleteFound(a: Account, c: string, q: Query) returns (ok: bool)
    requires a.Valid()
    modifies a
    ensures a.Valid() && a.next == old(a.next)
    ensures Fewer(old(a.res), old(a.refused), a.res, a.refused)
    ensures OnlyTouched(old(a.res), a.res, Found(c, q, old(a.res)))
    ensures ok ==> a.res == old(a.res) - Found(c, q, old(a.res))
    ensures Free(Found(c, q, old(a.res)), old(a.res)) ==> a.refused == old(a.refused) && (a.reliable ==> ok)
  {
    hide Matches, Refs, Found, Referenced, Fewer;
    FewerSame(a.res, a.refused);
    ghost var before, listed := a.res, Found(c, q, a.res);
    FoundExists(c, q, a.res);
    var ids := a.Describe(c, q);
    for k := 0 to |ids|
      invariant a.Valid() && a.next == old(a.next)
      invariant a.res == before - Elements(ids[..k])
      invariant Fewer(old(a.res), old(a.refused), a.res, a.refused)
      invariant Free(listed, before) ==> a.refused == old(a.refused)
    {
      ghost var here, log := a.res, a.refused;
      if Free(listed, before) {
        StillUnreferenced(before, Elements(ids[..k]), ids[k]);
      }
      assert ids[k] in ids && ids[k] !in ids[..k];
      assert ids[..k + 1] == ids[..k] + [ids[k]];
      ok := DetachAndDelete(a, ids[k]);
      FewerOn(old(a.res), old(a.refused), here, log, a.res, a.refused);
      if !ok {
        return;
      }
    }
    assert ids[..|ids|] == ids && Elements(ids) == listed;
    ok := true;
  }

  lemma FoundExists(c: string, q: Query, res: Resources)
    ensures Found(c, q, res) <= res.Keys
  {
  }

  /** deleteNatGateway, with the id the cluster spec recorded; no id means nothing to do. */
  method DeleteNat(a: Account, id: Option<Id>) returns (ok: bool)
    requires a.Valid()
    modifies a
    ensures a.Valid() && a.next == old(a.next)
    ensures Fewer(old(a.res), old(a.refused), a.res, a.refused)
    ensures id.None? ==> ok && a.res == old(a.res) && a.refused == old(a.refused)
    ensures id.Some? && !IsNat(id.value, old(a.res)) ==> !ok && a.res == old(a.res)
    ensures id.Some? ==> a.res == old(a.res) || a.res == old(a.res) - {id.value}
    ensures id.Some? && ok ==> a.res == old(a.res) - {id.value}
    ensures id.Some? && IsNat(id.value, old(a.res)) && !Referenced(id.value, old(a.res)) ==>
              a.refused == old(a.refused) && (a.reliable ==> ok)
  {
    if id.None? {
      return true;
    }
    if !IsNat(id.value, a.res) {
      return false;
    }
    ok := a.Delete(id.value);
    var fault := a.Fault();
    ok := ok && !fault;
  }

  predicate IsNat(id: Id, res: Resources) {
    id in res && res[id].kind == Nat
  }

  /**
   releaseReservedIP: only the first address is released, then all of them are waited for. So it succeeds
   from at most one address, and never while something holds an address.
   */
  method ReleaseAddress(a: Account, c: string) returns (ok: bool)
    requires a.Valid()
    modifies a
    ensures a.Valid() && a.next == old(a.next)
    ensures Fewer(old(a.res), old(a.refused), a.res, a.refused)
    ensures ok ==> a.res == old(a.res) - Found(c, AddressQ, old(a.res))
    ensures ok <==> Found(c, AddressQ, a.res) == {}
    ensures ok ==> AtMostOne(c, AddressQ, old(a.res)) && Free(Found(c, AddressQ, old(a.res)), old(a.res))
    ensures OnlyTouched(old(a.res), a.res, Found(c, AddressQ, old(a.res)))
    ensures Free(Found(c, AddressQ, old(a.res)), old(a.res)) ==> a.refused == old(a.refused)
    ensures Free(Found(c, AddressQ, old(a.res)), old(a.res)) && AtMostOne(c, AddressQ, old(a.res)) && a.reliable ==> ok
  {
    hide Refs, Matches;
    var first := a.Lookup(c, AddressQ);
    if first.None? {
      assert a.res - {} == a.res;
      return true;
    }
    ghost var before := a.res;
    var released := a.Delete(first.value);
    FoundAfter(c, AddressQ, before, if released then {first.value} else {});
    assert before - {} == before;
    var left := a.Lookup(c, AddressQ);
    ok := left.None?;
  }

  lemma FoundAfter(c: string, q: Query, res: Resources, gone: set<Id>)
    ensures Found(c, q, res - gone) == Found(c, q, res) - gone
  {
  }
}
