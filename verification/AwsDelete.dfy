/**
 ApplyDelete of cloud/providers/aws/apply.go: the order of the deletions, when a teardown can succeed at all,
 and that a failure-free one then does, without a refusal.
 */
module AwsDelete {
  import opened Wrappers
  import opened AwsAccount
  import opened AwsProvision
  import opened AwsStack
  import opened AwsGroups
  import opened AwsPrepare
  import opened AwsTeardown
  import opened AwsRun
  import Iam

  // ---- What stands in the way ------------------------------------------------------------------

  /** No lookup of a teardown lists the resource: it lacks the tag, or it is a NAT gateway nobody recorded. */
  predicate Unlisted(c: string, recorded: Option<Id>, i: Id, r: Resource) {
    Untagged(c, r) || (r.kind == Nat && recorded != Some(i))
  }

  /**
   When teardown can clear the VPC: nothing in it is unlisted, there is at most one address, and the NAT
   gateway that was recorded, if one was, is there.
   */
  ghost predicate Clearable(c: string, recorded: Option<Id>, v: Id, res: Resources) {
    && (forall i :: i in res && res[i].vpc == Some(v) ==> !Unlisted(c, recorded, i, res[i]))
    && AtMostOne(c, AddressQ, res)
    && (recorded.Some? ==> IsNat(recorded.value, res))
  }

  /** The same for the VPC that teardown finds; without one there is nothing to clear. */
  ghost predicate Clear(c: string, recorded: Option<Id>, res: Resources) {
    forall v :: v in Found(c, VpcQ, res) ==> Clearable(c, recorded, v, res)
  }

  /** What is unlisted was left alone. */
  ghost predicate StraysKept(c: string, recorded: Option<Id>, before: Resources, after: Resources) {
    forall i :: i in before && Unlisted(c, recorded, i, before[i]) ==> i in after && after[i] == before[i]
  }

  /** What is unlisted, the VPCs and the addresses were left alone. */
  ghost predicate Spared(c: string, recorded: Option<Id>, before: Resources, after: Resources) {
    && StraysKept(c, recorded, before, after)
    && forall i :: i in before && (before[i].kind == Vpc || before[i].kind == Address) ==>
         i in after && after[i] == before[i]
  }

  lemma StraysOn(c: string, recorded: Option<Id>, one: Resources, two: Resources, three: Resources)
    requires StraysKept(c, recorded, one, two) && StraysKept(c, recorded, two, three)
    ensures StraysKept(c, recorded, one, three)
  {
  }

  lemma SparedOn(c: string, recorded: Option<Id>, one: Resources, two: Resources, three: Resources)
    requires Spared(c, recorded, one, two) && Spared(c, recorded, two, three)
    ensures Spared(c, recorded, one, three)
  {
    hide Unlisted;
  }

  /** The kind a teardown lookup is about. */
  function KindOf(q: Query): Kind {
    match q
    case InstanceQ(_) => Instance
    case KeyQ => KeyPair
    case BalancerQ => Balancer
    case KindQ(k, _) => k
    case GatewayQ(_) => Gateway
    case AddressQ => Address
    case _ => Vpc
  }

  predicate Teardown(q: Query) {
    || q.InstanceQ? || q.KeyQ? || q.BalancerQ? || q.GatewayQ? || q.AddressQ?
    || (q.KindQ? && (q.kind == Subnet || q.kind == Table || q.kind == Group))
  }

  lemma TeardownFinds(c: string, q: Query, res: Resources)
    requires Teardown(q)
    ensures forall i :: i in Found(c, q, res) ==> i in res && res[i].kind == KindOf(q) && !Untagged(c, res[i])
  {
  }

  lemma TouchedKeepsStrays(c: string, recorded: Option<Id>, q: Query, before: Resources, after: Resources)
    requires Teardown(q) && OnlyTouched(before, after, Found(c, q, before))
    ensures StraysKept(c, recorded, before, after)
  {
    hide Matches, Found, Untagged;
    TeardownFinds(c, q, before);
  }

  /** A step that touches only what its lookup lists. */
  lemma TouchedSpares(c: string, recorded: Option<Id>, q: Query, before: Resources, after: Resources)
    requires Teardown(q) && OnlyTouched(before, after, Found(c, q, before))
    ensures StraysKept(c, recorded, before, after)
    ensures q != AddressQ ==> Spared(c, recorded, before, after)
  {
    TouchedKeepsStrays(c, recorded, q, before, after);
    hide Matches, Found, StraysKept;
    TeardownFinds(c, q, before);
  }

  lemma LighterSpares(c: string, recorded: Option<Id>, v: Id, before: Resources, after: Resources)
    requires Lighter(before, after, Found(c, KindQ(Group, v), before))
    ensures Spared(c, recorded, before, after)
  {
    hide Matches, Found;
    TeardownFinds(c, KindQ(Group, v), before);
  }

  lemma NatSpares(c: string, recorded: Option<Id>, before: Resources, after: Resources)
    requires after == before || (recorded.Some? && IsNat(recorded.value, before) && after == before - {recorded.value})
    ensures Spared(c, recorded, before, after)
  {
  }

  /** What is clear after some steps was clear before them. */
  lemma ClearableBack(c: string, recorded: Option<Id>, v: Id, before: Resources, after: Resources)
    requires Spared(c, recorded, before, after) && Shrunk(before, after) && Clearable(c, recorded, v, after)
    ensures Clearable(c, recorded, v, before)
  {
    AddressesBack(c, recorded, before, after);
    hide Unlisted, Found;
  }

  lemma AddressesBack(c: string, recorded: Option<Id>, before: Resources, after: Resources)
    requires Spared(c, recorded, before, after)
    ensures Found(c, AddressQ, before) <= Found(c, AddressQ, after)
  {
  }

  /** Once the VPC is gone, nothing in it was left: so nothing in it was unlisted. */
  lemma GoneMeansClear(c: string, recorded: Option<Id>, v: Id, before: Resources, after: Resources)
    requires StraysKept(c, recorded, before, after) && Closed(after) && v !in after
    ensures forall i :: i in before && before[i].vpc == Some(v) ==> !Unlisted(c, recorded, i, before[i])
  {
    hide Unlisted;
    forall i | i in after
      ensures after[i].vpc != Some(v)
    {
      assert Refs(after[i]) <= after.Keys;
    }
  }

  // ---- A failure-free teardown of a clear stack ------------------------------------------------

  /**
   A teardown seen from outside: the account it is to restore, what attempts made and the recorded NAT
   gateway. A `calm` one meets no failure, over a stack that is clear.
   */
  datatype Case = Case(base: Resources, net: Net, recorded: Option<Id>, calm: bool)

  /** No resource of this cluster ranks above `k`. */
  ghost predicate Top(base: Resources, res: Resources, k: nat) {
    forall i :: i in res && i !in base ==> Rank(res[i].kind) <= k
  }

  /** Halfway through a calm teardown: everything above rank `k` is gone. */
  ghost predicate Falling(c: string, t: Case, res: Resources, k: nat) {
    && Shaped(c, t.base, t.net, res) && Top(t.base, res, k)
    && (forall i :: i in res && i !in t.base ==> !Unlisted(c, t.recorded, i, res[i]))
    && AtMostOne(c, AddressQ, res)
    && (k >= 4 && t.net.vpc.Some? && t.recorded.Some? ==> New(t.recorded.value, Nat, t.base, res))
  }

  /** A calm teardown has cleared everything above rank `k`, and nothing was refused. */
  ghost predicate Down(c: string, t: Case, a: Account, k: nat)
    reads a
  {
    t.calm ==> a.reliable && Falling(c, t, a.res, k)
  }

  /** Nothing refers to the highest rank. */
  lemma HighestIsFree(c: string, base: Resources, net: Net, res: Resources, k: nat, listed: set<Id>)
    requires Closed(base) && Stack(c, base, net, res) && Top(base, res, k)
    requires forall t :: t in listed ==> t in res && t !in base && res[t].kind != Group && Rank(res[t].kind) == k
    ensures Free(listed, res)
  {
    forall t, i | t in listed && i in res && i != t
      ensures t !in Refs(res[i])
    {
      if i in base {
        assert Refs(base[i]) <= base.Keys;
      } else {
        assert RefersDown(base, res, res[i]);
      }
    }
  }

  lemma StackShrinks(c: string, base: Resources, net: Net, res: Resources, gone: set<Id>)
    requires Stack(c, base, net, res) && gone !! base.Keys && Closed(res - gone)
    ensures Stack(c, base, net, res - gone)
  {
    var after := res - gone;
    forall i | i in after && i !in base
      ensures Mine(c, net, i, after[i]) && RefersDown(base, after, after[i])
    {
      assert Refs(after[i]) <= after.Keys;
      assert RefersDown(base, res, res[i]);
    }
  }

  /** The lookups of a teardown found nothing in the account at the start. */
  lemma BaseHasNone(c: string, base: Resources, q: Query)
    requires Closed(base) && Apart(c, base) && Teardown(q)
    requires q.KindQ? || q.GatewayQ? ==> q.v !in base
    ensures Found(c, q, base) == {}
  {
    if q.KindQ? || q.GatewayQ? {
      forall i | i in base
        ensures base[i].vpc != Some(q.v)
      {
        assert Refs(base[i]) <= base.Keys;
      }
    }
  }

  /** One calm step: nothing refers to what is listed, and all of it is the cluster's. */
  lemma StepTargets(c: string, t: Case, res: Resources, k: nat, q: Query)
    requires Falling(c, t, res, k) && Teardown(q)
    requires q.KindQ? || q.GatewayQ? ==> t.net.vpc == Some(q.v)
    requires Rank(KindOf(q)) == k && KindOf(q) != Group
    ensures Free(Found(c, q, res), res) && Found(c, q, res) !! t.base.Keys
  {
    hide Matches, Refs, Apart, Unlisted;
    BaseHasNone(c, t.base, q);
    FindsOnlyNew(c, t.base, t.net, res, q);
    TeardownFinds(c, q, res);
    HighestIsFree(c, t.base, t.net, res, k, Found(c, q, res));
  }

  lemma StillOneAddress(c: string, res: Resources, gone: set<Id>)
    requires AtMostOne(c, AddressQ, res)
    ensures AtMostOne(c, AddressQ, res - gone)
  {
    FoundAfter(c, AddressQ, res, gone);
  }

  lemma StepKeepsFalling(c: string, t: Case, res: Resources, k: nat, q: Query)
    requires Falling(c, t, res, k) && Teardown(q)
    requires Found(c, q, res) !! t.base.Keys && Closed(res - Found(c, q, res))
    ensures Falling(c, t, res - Found(c, q, res), k)
  {
    hide Matches, Refs, Apart, Found, Unlisted, AtMostOne, Stack, Closed;
    TeardownFinds(c, q, res);
    StillOneAddress(c, res, Found(c, q, res));
    StackShrinks(c, t.base, t.net, res, Found(c, q, res));
  }

  lemma NextRank(c: string, t: Case, res: Resources, k: nat)
    requires Falling(c, t, res, k) && k > 0
    requires forall i :: i in res && i !in t.base ==> Rank(res[i].kind) != k
    ensures Falling(c, t, res, k - 1)
  {
    hide Matches, Refs, Apart, Stack, Unlisted;
  }

  // ---- Instances, key pair, balancer -----------------------------------------------------------

  lemma NotFound(c: string, q: Query, res: Resources, i: Id)
    requires Found(c, q, res) == {} && i in res
    ensures !Matches(c, q, res[i])
  {
    assert i !in Found(c, q, res);
  }

  lemma NoServersLeft(c: string, t: Case, res: Resources)
    requires Falling(c, t, res, 7)
    requires Found(c, InstanceQ(ControlPlane), res) == {} && Found(c, InstanceQ(BastionRole), res) == {}
    requires Found(c, KeyQ, res) == {} && Found(c, BalancerQ, res) == {}
    ensures Falling(c, t, res, 6)
  {
    hide Matches, Found, Refs, Apart, RefersDown, Unlisted, AtMostOne;
    forall i | i in res && i !in t.base
      ensures Rank(res[i].kind) != 7
    {
      NotFound(c, InstanceQ(ControlPlane), res, i);
      NotFound(c, InstanceQ(BastionRole), res, i);
      NotFound(c, KeyQ, res, i);
      NotFound(c, BalancerQ, res, i);
      assert Mine(c, t.net, i, res[i]);
    }
    NextRank(c, t, res, 7);
  }

  /** A lookup that found nothing still finds nothing. */
  ghost predicate StayEmpty(c: string, before: Resources, after: Resources) {
    forall p :: Found(c, p, before) == {} ==> Found(c, p, after) == {}
  }

  lemma StillNone(c: string, res: Resources, gone: set<Id>)
    ensures StayEmpty(c, res, res - gone)
  {
    hide Matches;
    forall p, i | Found(c, p, res) == {} && i in res - gone
      ensures i !in Found(c, p, res - gone)
    {
      assert i !in Found(c, p, res) && (res - gone)[i] == res[i];
    }
  }

  lemma NoneAfter(c: string, res: Resources, q: Query)
    ensures Found(c, q, res - Found(c, q, res)) == {}
  {
  }

  /** deleteInstance, deleteSSHKey or deleteLoadBalancer. */
  method DeleteServer(a: Account, c: string, q: Query) returns (ok: bool)
    requires a.Valid() && (q.InstanceQ? || q.KeyQ? || q.BalancerQ?)
    modifies a
    ensures a.Valid() && a.next == old(a.next)
    ensures Fewer(old(a.res), old(a.refused), a.res, a.refused)
    ensures OnlyTouched(old(a.res), a.res, Found(c, q, old(a.res)))
    ensures ok ==> a.res == old(a.res) - Found(c, q, old(a.res))
    ensures Free(Found(c, q, old(a.res)), old(a.res)) ==> a.refused == old(a.refused) && (a.reliable ==> ok)
  {
    if q.InstanceQ? {
      ok := DeleteInstances(a, c, q.role);
    } else {
      ok := DeleteFound(a, c, q);
    }
  }

  method ServerStep(a: Account, c: string, q: Query, ghost t: Case) returns (ok: bool)
    requires a.Valid() && (q.InstanceQ? || q.KeyQ? || q.BalancerQ?) && Down(c, t, a, 7)
    modifies a
    ensures a.Valid() && a.next == old(a.next)
    ensures Fewer(old(a.res), old(a.refused), a.res, a.refused) && Spared(c, t.recorded, old(a.res), a.res)
    ensures Down(c, t, a, 7)
    ensures t.calm ==>
              ok && a.refused == old(a.refused) && Found(c, q, a.res) == {} && StayEmpty(c, old(a.res), a.res)
  {
    hide Matches, Refs, Found, Falling, Free, StayEmpty, Fewer, Spared, OnlyTouched;
    ghost var before := a.res;
    if t.calm {
      StepTargets(c, t, a.res, 7, q);
    }
    ok := DeleteServer(a, c, q);
    TouchedSpares(c, t.recorded, q, before, a.res);
    if t.calm {
      StepKeepsFalling(c, t, before, 7, q);
      NoneAfter(c, before, q);
      StillNone(c, before, Found(c, q, before));
    }
  }

  /** Master, key pair, IAM, balancer and bastion; failures of the first three are only logged. */
  method DeleteServers(a: Account, iam: Iam.Store, c: string, ghost t: Case) returns (ok: bool)
    requires a.Valid() && Iam.Bounded(c, iam.roles, iam.profiles) && Down(c, t, a, 7)
    modifies a, iam
    ensures a.Valid()
    ensures Fewer(old(a.res), old(a.refused), a.res, a.refused) && Spared(c, t.recorded, old(a.res), a.res)
    ensures Iam.Bounded(c, iam.roles, iam.profiles)
    ensures Iam.OthersKept(c, old(iam.roles), iam.roles) && Iam.OthersKept(c, old(iam.profiles), iam.profiles)
    ensures a.reliable ==> Iam.Absent(c, iam.roles, iam.profiles) && iam.refused == old(iam.refused)
    ensures t.calm ==> ok && a.refused == old(a.refused)
    ensures ok ==> Down(c, t, a, 6)
  {
    hide Matches, Refs, Found, Iam.Bounded, Iam.OthersKept, Iam.Absent, Falling, Fewer, Spared;
    var logged := ServerStep(a, c, InstanceQ(ControlPlane), t);
    ghost var res, log := a.res, a.refused;
    logged := ServerStep(a, c, KeyQ, t);
    FewerOn(old(a.res), old(a.refused), res, log, a.res, a.refused);
    SparedOn(c, t.recorded, old(a.res), res, a.res);
    iam.DeleteProfiles(c, a.reliable);
    res, log := a.res, a.refused;
    ok := ServerStep(a, c, BalancerQ, t);
    FewerOn(old(a.res), old(a.refused), res, log, a.res, a.refused);
    SparedOn(c, t.recorded, old(a.res), res, a.res);
    if !ok {
      return;
    }
    res, log := a.res, a.refused;
    ok := ServerStep(a, c, InstanceQ(BastionRole), t);
    FewerOn(old(a.res), old(a.refused), res, log, a.res, a.refused);
    SparedOn(c, t.recorded, old(a.res), res, a.res);
    if t.calm {
      NoServersLeft(c, t, a.res);
    }
  }

  // ---- Inside the VPC --------------------------------------------------------------------------

  /** In a clear stack every resource answers the lookup by which teardown lists its kind. */
  lemma ListedInFull(c: string, t: Case, res: Resources, q: Query, v: Id)
    requires Falling(c, t, res, Rank(KindOf(q))) && t.net.vpc == Some(v)
    requires q == KindQ(Subnet, v) || q == KindQ(Table, v) || q == KindQ(Group, v) || q == GatewayQ(v) || q == AddressQ
    ensures forall i :: i in res && i !in t.base && res[i].kind == KindOf(q) ==> i in Found(c, q, res)
  {
    forall i | i in res && i !in t.base && res[i].kind == KindOf(q)
      ensures i in Found(c, q, res)
    {
      assert Mine(c, t.net, i, res[i]) && !Unlisted(c, t.recorded, i, res[i]);
    }
  }

  /** Deleting everything a lookup lists empties the rank of its kind. */
  lemma RankEmptied(base: Resources, before: Resources, listed: set<Id>, q: Query)
    requires Rank(KindOf(q)) < 7
    requires forall i :: i in before && i !in base && before[i].kind == KindOf(q) ==> i in listed
    ensures forall i :: i in before - listed && i !in base ==> Rank((before - listed)[i].kind) != Rank(KindOf(q))
  {
  }

  /** deleteSubnetID, deleteInternetGateway or deleteRouteTable. */
  method ListStep(a: Account, c: string, q: Query, v: Id, ghost k: nat, ghost t: Case) returns (ok: bool)
    requires a.Valid() && (q == KindQ(Subnet, v) || q == KindQ(Table, v) || q == GatewayQ(v))
    requires k == Rank(KindOf(q)) && k > 0 && Down(c, t, a, k) && (t.calm ==> t.net.vpc == Some(v))
    modifies a
    ensures a.Valid() && a.next == old(a.next)
    ensures Fewer(old(a.res), old(a.refused), a.res, a.refused) && Spared(c, t.recorded, old(a.res), a.res)
    ensures t.calm ==> ok && a.refused == old(a.refused)
    ensures ok ==> Down(c, t, a, k - 1)
  {
    hide Matches, Refs, Found, Falling, Free, Fewer, Spared, OnlyTouched;
    ghost var before := a.res;
    if t.calm {
      StepTargets(c, t, a.res, k, q);
      ListedInFull(c, t, a.res, q, v);
    }
    if q.KindQ? && q.kind == Subnet {
      ok := DeleteFound(a, c, q);
    } else {
      ok := DetachAndDeleteFound(a, c, q);
    }
    TouchedSpares(c, t.recorded, q, before, a.res);
    if t.calm {
      StepKeepsFalling(c, t, before, k, q);
      RankEmptied(t.base, before, Found(c, q, before), q);
      NextRank(c, t, a.res, k);
    }
  }

  /** Groups are the one rank whose members refer to one another. */
  lemma GroupTargets(c: string, t: Case, res: Resources, v: Id)
    requires Falling(c, t, res, 6) && t.net.vpc == Some(v)
    ensures OnlyRulesRefer(res, Found(c, KindQ(Group, v), res)) && Found(c, KindQ(Group, v), res) !! t.base.Keys
  {
    hide Matches, Refs, Apart, Unlisted;
    var q := KindQ(Group, v);
    var listed := Found(c, q, res);
    BaseHasNone(c, t.base, q);
    FindsOnlyNew(c, t.base, t.net, res, q);
    TeardownFinds(c, q, res);
    ListedInFull(c, t, res, q, v);
    forall i | i in res && i !in listed
      ensures Refs(res[i]) !! listed
    {
      if i in t.base {
        assert Refs(t.base[i]) <= t.base.Keys;
      } else {
        assert RefersDown(t.base, res, res[i]) && Rank(res[i].kind) <= 6;
      }
    }
  }

  method GroupsDown(a: Account, c: string, v: Id, polls: nat, ghost t: Case) returns (ok: bool)
    requires a.Valid() && polls > 0 && Down(c, t, a, 6) && (t.calm ==> t.net.vpc == Some(v))
    modifies a
    ensures a.Valid() && a.next == old(a.next)
    ensures Fewer(old(a.res), old(a.refused), a.res, a.refused) && Spared(c, t.recorded, old(a.res), a.res)
    ensures t.calm ==> ok && a.refused == old(a.refused)
    ensures ok ==> Down(c, t, a, 5)
  {
    hide Matches, Refs, Found, Falling, OnlyRulesRefer, Lighter, Burden, Fewer, Spared;
    ghost var before := a.res;
    if t.calm {
      GroupTargets(c, t, a.res, v);
      ListedInFull(c, t, a.res, KindQ(Group, v), v);
    }
    ok := DeleteGroups(a, c, v, polls);
    LighterSpares(c, t.recorded, v, before, a.res);
    if t.calm {
      StepKeepsFalling(c, t, before, 6, KindQ(Group, v));
      RankEmptied(t.base, before, Found(c, KindQ(Group, v), before), KindQ(Group, v));
      NextRank(c, t, a.res, 6);
    }
  }

  lemma OnlyRecorded(c: string, t: Case, res: Resources)
    requires Falling(c, t, res, 4)
    ensures forall i :: i in res && i !in t.base && Rank(res[i].kind) == 4 ==> t.recorded == Some(i)
  {
    hide Matches;
    forall i | i in res && i !in t.base && Rank(res[i].kind) == 4
      ensures t.recorded == Some(i)
    {
      assert res[i].kind == Nat && !Unlisted(c, t.recorded, i, res[i]);
    }
  }

  /** Without its NAT gateway, if it has one, the stack is down to the addresses. */
  lemma NatGone(c: string, t: Case, res: Resources, after: Resources)
    requires Falling(c, t, res, 4) && Closed(after) && t.net.vpc.Some?
    requires after == if t.recorded.Some? then res - {t.recorded.value} else res
    ensures Falling(c, t, after, 3)
  {
    hide Matches, Refs, Apart, Found, AtMostOne;
    OnlyRecorded(c, t, res);
    if t.recorded.Some? {
      StillOneAddress(c, res, {t.recorded.value});
      StackShrinks(c, t.base, t.net, res, {t.recorded.value});
    } else {
      NextRank(c, t, res, 4);
    }
  }

  method NatDown(a: Account, c: string, rec: Record, ghost t: Case) returns (ok: bool)
    requires a.Valid() && rec.natGateway == t.recorded && Down(c, t, a, 4) && (t.calm ==> t.net.vpc.Some?)
    modifies a
    ensures a.Valid() && a.next == old(a.next)
    ensures Fewer(old(a.res), old(a.refused), a.res, a.refused) && Spared(c, t.recorded, old(a.res), a.res)
    ensures ok && t.recorded.Some? ==> IsNat(t.recorded.value, old(a.res))
    ensures t.calm ==> ok && a.refused == old(a.refused)
    ensures ok ==> Down(c, t, a, 3)
  {
    hide Matches, Refs, Found, Fewer, Spared, Unlisted, Apart;
    ghost var before := a.res;
    if t.calm && t.recorded.Some? {
      HighestIsFree(c, t.base, t.net, a.res, 4, {t.recorded.value});
    }
    ok := DeleteNat(a, rec.natGateway);
    NatSpares(c, t.recorded, before, a.res);
    if t.calm {
      NatGone(c, t, before, a.res);
    }
  }

  lemma AllAddresses(c: string, t: Case, res: Resources)
    requires Falling(c, t, res, 3)
    ensures forall i :: i in res && i !in t.base && Rank(res[i].kind) == 3 ==> i in Found(c, AddressQ, res)
  {
    forall i | i in res && i !in t.base && Rank(res[i].kind) == 3
      ensures i in Found(c, AddressQ, res)
    {
      assert res[i].kind == Address && Mine(c, t.net, i, res[i]);
    }
  }

  method AddressDown(a: Account, c: string, ghost t: Case) returns (ok: bool)
    requires a.Valid() && Down(c, t, a, 3)
    modifies a
    ensures a.Valid() && a.next == old(a.next)
    ensures Fewer(old(a.res), old(a.refused), a.res, a.refused) && StraysKept(c, t.recorded, old(a.res), a.res)
    ensures ok ==> AtMostOne(c, AddressQ, old(a.res))
    ensures t.calm ==> ok && a.refused == old(a.refused)
    ensures ok ==> Down(c, t, a, 2)
  {
    hide Matches, Refs, Found, Free, Fewer, StraysKept, Unlisted, Apart, Stack, OnlyTouched, AtMostOne;
    ghost var before := a.res;
    if t.calm {
      StepTargets(c, t, a.res, 3, AddressQ);
      AllAddresses(c, t, a.res);
    }
    ok := ReleaseAddress(a, c);
    TouchedSpares(c, t.recorded, AddressQ, before, a.res);
    if t.calm {
      StepKeepsFalling(c, t, before, 3, AddressQ);
      RankEmptied(t.base, before, Found(c, AddressQ, before), AddressQ);
      NextRank(c, t, a.res, 3);
    }
  }

  /** deleteVpc, the last step. */
  method VpcDown(a: Account, c: string, v: Id, ghost t: Case) returns (ok: bool)
    requires a.Valid() && Down(c, t, a, 0) && (t.calm ==> t.net.vpc == Some(v))
    modifies a
    ensures a.Valid() && a.next == old(a.next)
    ensures Fewer(old(a.res), old(a.refused), a.res, a.refused)
    ensures ok ==> a.res == old(a.res) - {v}
    ensures t.calm ==> ok && a.refused == old(a.refused) && a.res == t.base
  {
    hide Matches, Refs, Apart, Unlisted;
    if t.calm {
      HighestIsFree(c, t.base, t.net, a.res, 0, {v});
      LastVpc(c, t, a.res);
    }
    ok := a.Delete(v);
  }

  lemma LastVpc(c: string, t: Case, res: Resources)
    requires Falling(c, t, res, 0) && t.net.vpc.Some?
    ensures res - {t.net.vpc.value} == t.base
  {
    hide Matches, Refs, Apart, Unlisted;
    forall i | i in res && i !in t.base
      ensures i == t.net.vpc.value
    {
      assert res[i].kind == Vpc && Mine(c, t.net, i, res[i]);
    }
  }

  lemma NatBack(before: Resources, log: seq<Refusal>, after: Resources, log': seq<Refusal>)
    requires Fewer(before, log, after, log')
    ensures forall id :: IsNat(id, after) ==> IsNat(id, before)
  {
  }

  /** Groups, route tables and NAT gateway. */
  method DeleteAttached(a: Account, rec: Record, c: string, v: Id, polls: nat, ghost t: Case) returns (ok: bool)
    requires a.Valid() && polls > 0 && rec.natGateway == t.recorded
    requires Down(c, t, a, 6) && (t.calm ==> t.net.vpc == Some(v))
    modifies a
    ensures a.Valid()
    ensures Fewer(old(a.res), old(a.refused), a.res, a.refused) && Spared(c, t.recorded, old(a.res), a.res)
    ensures ok && t.recorded.Some? ==> IsNat(t.recorded.value, old(a.res))
    ensures t.calm ==> ok && a.refused == old(a.refused)
    ensures ok ==> Down(c, t, a, 3)
  {
    hide Matches, Refs, Found, Falling, Fewer, Spared;
    ok := GroupsDown(a, c, v, polls, t);
    if !ok {
      return;
    }
    ghost var res, log := a.res, a.refused;
    ok := ListStep(a, c, KindQ(Table, v), v, 5, t);
    FewerOn(old(a.res), old(a.refused), res, log, a.res, a.refused);
    SparedOn(c, t.recorded, old(a.res), res, a.res);
    if !ok {
      return;
    }
    res, log := a.res, a.refused;
    NatBack(old(a.res), old(a.refused), res, log);
    ok := NatDown(a, c, rec, t);
    FewerOn(old(a.res), old(a.refused), res, log, a.res, a.refused);
    SparedOn(c, t.recorded, old(a.res), res, a.res);
  }

  lemma SparedStrays(c: string, recorded: Option<Id>, before: Resources, after: Resources)
    requires Spared(c, recorded, before, after)
    ensures StraysKept(c, recorded, before, after)
  {
  }

  /** Address, internet gateway, subnets and the VPC itself. */
  method DeleteRest(a: Account, c: string, v: Id, ghost t: Case) returns (ok: bool)
    requires a.Valid() && Down(c, t, a, 3) && (t.calm ==> t.net.vpc == Some(v))
    requires v in a.res && a.res[v].kind == Vpc
    modifies a
    ensures a.Valid()
    ensures Fewer(old(a.res), old(a.refused), a.res, a.refused)
    ensures ok ==> AtMostOne(c, AddressQ, old(a.res)) && v !in a.res && StraysKept(c, t.recorded, old(a.res), a.res)
    ensures t.calm ==> ok && a.refused == old(a.refused) && a.res == t.base
  {
    hide Matches, Refs, Found, Falling, Fewer, Spared, StraysKept, AtMostOne;
    ghost var start := a.res;
    ok := AddressDown(a, c, t);
    if !ok {
      return;
    }
    ghost var res, log := a.res, a.refused;
    ok := ListStep(a, c, GatewayQ(v), v, 2, t);
    FewerOn(old(a.res), old(a.refused), res, log, a.res, a.refused);
    SparedStrays(c, t.recorded, res, a.res);
    StraysOn(c, t.recorded, start, res, a.res);
    if !ok {
      return;
    }
    res, log := a.res, a.refused;
    ok := ListStep(a, c, KindQ(Subnet, v), v, 1, t);
    FewerOn(old(a.res), old(a.refused), res, log, a.res, a.refused);
    SparedStrays(c, t.recorded, res, a.res);
    StraysOn(c, t.recorded, start, res, a.res);
    if !ok {
      return;
    }
    res, log := a.res, a.refused;
    ok := VpcDown(a, c, v, t);
    FewerOn(old(a.res), old(a.refused), res, log, a.res, a.refused);
    StraysOutlive(c, t.recorded, v, start, res);
  }

  lemma StraysOutlive(c: string, recorded: Option<Id>, v: Id, before: Resources, after: Resources)
    requires StraysKept(c, recorded, before, after) && v in before && before[v].kind == Vpc
    ensures StraysKept(c, recorded, before, after - {v})
  {
  }

  /** The steps of ApplyDelete inside the VPC: whoever gets through them all had nothing in the way. */
  method DeleteNetwork(a: Account, rec: Record, c: string, v: Id, polls: nat, ghost t: Case) returns (ok: bool)
    requires a.Valid() && polls > 0 && rec.natGateway == t.recorded && v in a.res && a.res[v].kind == Vpc
    requires Down(c, t, a, 6) && (t.calm ==> t.net.vpc == Some(v))
    modifies a
    ensures a.Valid()
    ensures Fewer(old(a.res), old(a.refused), a.res, a.refused)
    ensures ok ==> v !in a.res && Clearable(c, t.recorded, v, old(a.res))
    ensures t.calm ==> ok && a.refused == old(a.refused) && a.res == t.base
  {
    hide Matches, Refs, Found, Falling, Fewer, Spared, StraysKept, AtMostOne, Unlisted, Closed;
    ghost var start := a.res;
    ok := DeleteAttached(a, rec, c, v, polls, t);
    if !ok {
      return;
    }
    ghost var res, log := a.res, a.refused;
    VpcSpared(c, t.recorded, v, start, res);
    ok := DeleteRest(a, c, v, t);
    FewerOn(old(a.res), old(a.refused), res, log, a.res, a.refused);
    if ok {
      OneAddressBack(c, t.recorded, start, res);
      SparedStrays(c, t.recorded, start, res);
      StraysOn(c, t.recorded, start, res, a.res);
      GoneMeansClear(c, t.recorded, v, start, a.res);
    }
  }

  lemma VpcSpared(c: string, recorded: Option<Id>, v: Id, before: Resources, after: Resources)
    requires Spared(c, recorded, before, after) && v in before && before[v].kind == Vpc
    ensures v in after && after[v].kind == Vpc
  {
  }

  lemma OneAddressBack(c: string, recorded: Option<Id>, before: Resources, after: Resources)
    requires Spared(c, recorded, before, after) && AtMostOne(c, AddressQ, after)
    ensures AtMostOne(c, AddressQ, before)
  {
    AddressesBack(c, recorded, before, after);
  }

  // ---- The whole teardown ----------------------------------------------------------------------

  /** The record names a NAT gateway of the cluster, if it names one that exists. */
  ghost predicate Honest(base: Resources, recorded: Option<Id>, res: Resources) {
    recorded.Some? && IsNat(recorded.value, res) ==> recorded.value !in base
  }

  /**
   ApplyDelete. Whatever fails and whatever is in the account, success means that the VPC it found, if there
   was only one, is gone, and that nothing had stood in its way. A failure-free run over what attempts
   leave, complete or not, tagged or not, succeeds exactly when nothing stands in its way; then no deletion
   is refused, because each rank goes only after every rank that refers to it, and the account is as it was.
   */
  method ApplyDelete(a: Account, iam: Iam.Store, rec: Record, c: string, polls: nat,
                     ghost base: Resources, ghost net: Net, ghost shaped: bool)
    returns (ok: bool)
    requires a.Valid() && polls > 0 && Iam.Bounded(c, iam.roles, iam.profiles)
    requires shaped ==>
               a.reliable && Shaped(c, base, net, a.res) && Honest(base, rec.natGateway, a.res)
    modifies a, iam
    ensures a.Valid()
    ensures Fewer(old(a.res), old(a.refused), a.res, a.refused)
    ensures Iam.Bounded(c, iam.roles, iam.profiles)
    ensures Iam.OthersKept(c, old(iam.roles), iam.roles) && Iam.OthersKept(c, old(iam.profiles), iam.profiles)
    ensures a.reliable ==> Iam.Absent(c, iam.roles, iam.profiles) && iam.refused == old(iam.refused)
    ensures ok && AtMostOne(c, VpcQ, old(a.res)) ==>
              Found(c, VpcQ, a.res) == {} && Clear(c, rec.natGateway, old(a.res))
    ensures shaped ==> (ok <==> Clear(c, rec.natGateway, old(a.res)))
    ensures shaped && ok ==> a.refused == old(a.refused) && a.res == base
  {
    hide Matches, Refs, Found, Apart, Unlisted, Stack, Iam.Bounded, Iam.OthersKept, Iam.Absent, Shaped, Falling, Fewer;
    hide Spared, Shrunk, Clearable, Clear, AtMostOne, Honest, Closed;
    ghost var calm := shaped && Clear(c, rec.natGateway, a.res);
    ghost var t := Case(base, net, rec.natGateway, calm);
    ghost var start := a.res;
    if shaped {
      ShapedVpc(c, base, net, a.res);
      if calm {
        ClearFalls(c, t, a.res);
      }
    }
    ok := DeleteServers(a, iam, c, t);
    if !ok {
      return;
    }
    ghost var res, log := a.res, a.refused;
    SameVpcs(c, rec.natGateway, start, old(a.refused), res, log);
    FoundExist(c, VpcQ, res);
    VpcKind(c, res);
    var v := a.Lookup(c, VpcQ);
    if calm {
      ShapedVpc(c, base, net, start);
    }
    if v.None? {
      NothingToClear(c, rec.natGateway, start);
      if calm {
        NothingLeft(c, t, res);
      }
      return true;
    }
    ok := DeleteNetwork(a, rec, c, v.value, polls, t);
    FewerOn(old(a.res), old(a.refused), res, log, a.res, a.refused);
    if ok {
      ClearOfOne(c, rec.natGateway, v.value, start, old(a.refused), res, log, a.res, a.refused);
    }
  }

  /** At most one VPC is found over what attempts leave, and it is theirs. */
  lemma ShapedVpc(c: string, base: Resources, net: Net, res: Resources)
    requires Shaped(c, base, net, res)
    ensures Found(c, VpcQ, res) == if net.vpc.Some? then {net.vpc.value} else {}
    ensures AtMostOne(c, VpcQ, res)
  {
    FindsOnlyNew(c, base, net, res, VpcQ);
    if net.vpc.Some? {
      assert Mine(c, net, net.vpc.value, res[net.vpc.value]);
    }
  }

  lemma VpcKind(c: string, res: Resources)
    ensures forall v :: v in Found(c, VpcQ, res) ==> v in res && res[v].kind == Vpc
  {
  }

  lemma NothingToClear(c: string, recorded: Option<Id>, res: Resources)
    requires Found(c, VpcQ, res) == {}
    ensures Clear(c, recorded, res)
  {
  }

  /** What attempts leave unlisted lies in their VPC. */
  lemma UnlistedInVpc(c: string, recorded: Option<Id>, net: Net, i: Id, r: Resource)
    requires Mine(c, net, i, r) && Unlisted(c, recorded, i, r)
    ensures net.vpc.Some? && r.vpc == net.vpc
  {
  }

  lemma ClearHasNoStrays(c: string, t: Case, res: Resources)
    requires Stack(c, t.base, t.net, res)
    requires t.net.vpc.Some? ==> Clearable(c, t.recorded, t.net.vpc.value, res)
    ensures forall i :: i in res && i !in t.base ==> !Unlisted(c, t.recorded, i, res[i])
  {
    hide Mine, RefersDown, Unlisted, AtMostOne;
    forall i | i in res && i !in t.base
      ensures Unlisted(c, t.recorded, i, res[i]) ==> t.net.vpc.Some? && res[i].vpc == t.net.vpc
    {
      if Unlisted(c, t.recorded, i, res[i]) {
        UnlistedInVpc(c, t.recorded, t.net, i, res[i]);
      }
    }
  }

  lemma ClearHasOneAddress(c: string, t: Case, res: Resources)
    requires Stack(c, t.base, t.net, res) && Found(c, AddressQ, t.base) == {}
    requires t.net.vpc.Some? ==> Clearable(c, t.recorded, t.net.vpc.value, res)
    ensures AtMostOne(c, AddressQ, res)
  {
    hide Unlisted, RefersDown;
    FindsOnlyNew(c, t.base, t.net, res, AddressQ);
    AddressNeedsVpc(c, t.net, res);
    hide Mine, Stack, Found;
  }

  lemma AddressNeedsVpc(c: string, net: Net, res: Resources)
    ensures forall i :: i in Found(c, AddressQ, res) && Mine(c, net, i, res[i]) ==> net.vpc.Some?
  {
  }

  /** What attempts leave, with nothing in the way, is ready to fall. */
  lemma ClearFalls(c: string, t: Case, res: Resources)
    requires Shaped(c, t.base, t.net, res) && Honest(t.base, t.recorded, res) && Clear(c, t.recorded, res)
    ensures Falling(c, t, res, 7)
  {
    hide Mine, Unlisted, Matches, Stack, Found, AtMostOne, Refs, Closed;
    ShapedVpc(c, t.base, t.net, res);
    ClearHasNoStrays(c, t, res);
    ClearHasOneAddress(c, t, res);
  }

  /** Without a VPC attempts leave only what has no need of one. */
  lemma OnlyServers(c: string, base: Resources, net: Net, res: Resources)
    requires Stack(c, base, net, res) && net.vpc.None?
    ensures forall i :: i in res && i !in base ==> Rank(res[i].kind) == 7
  {
    hide Matches, Refs;
    forall i | i in res && i !in base
      ensures Rank(res[i].kind) == 7
    {
      assert Mine(c, net, i, res[i]);
    }
  }

  lemma NothingLeft(c: string, t: Case, res: Resources)
    requires Falling(c, t, res, 6) && t.net.vpc.None?
    ensures res == t.base
  {
    hide Matches, Refs, Apart, Unlisted, Mine;
    OnlyServers(c, t.base, t.net, res);
  }

  lemma SameVpcs(c: string, recorded: Option<Id>, before: Resources, log: seq<Refusal>, after: Resources,
                 log': seq<Refusal>)
    requires Spared(c, recorded, before, after) && Fewer(before, log, after, log')
    ensures Found(c, VpcQ, after) == Found(c, VpcQ, before)
  {
    ShrunkFinds(c, before, after, VpcQ);
  }

  lemma ClearOfOne(c: string, recorded: Option<Id>, v: Id, start: Resources, log0: seq<Refusal>,
                   res: Resources, log1: seq<Refusal>, after: Resources, log2: seq<Refusal>)
    requires Spared(c, recorded, start, res) && Fewer(start, log0, res, log1) && Fewer(start, log0, after, log2)
    requires Clearable(c, recorded, v, res) && v !in after
    requires Found(c, VpcQ, res) == Found(c, VpcQ, start) && v in Found(c, VpcQ, start)
    ensures AtMostOne(c, VpcQ, start) ==> Found(c, VpcQ, after) == {} && Clear(c, recorded, start)
  {
    ClearableBack(c, recorded, v, start, res);
    ShrunkFinds(c, start, after, VpcQ);
    FoundExist(c, VpcQ, after);
    hide Clearable, Spared;
  }

  // ---- Two things that stand in the way --------------------------------------------------------

  /** Resources that no VPC or NAT gateway lookup sees. */
  lemma UnseenByVpcAndNat(c: string, v: Id, res: Resources, id: Id, r: Resource)
    requires id !in res && r.kind != Vpc && r.kind != Nat
    ensures Found(c, VpcQ, res[id := r]) == Found(c, VpcQ, res)
    ensures Found(c, NatQ(v), res[id := r]) == Found(c, NatQ(v), res)
  {
  }

  lemma TwoAddresses(c: string, recorded: Option<Id>, v: Id, one: Id, two: Id, res: Resources)
    requires v in Found(c, VpcQ, res) && one in res && two in res && one != two
    requires res[one] == AddressRes(c) && res[two] == AddressRes(c)
    ensures !Clear(c, recorded, res)
  {
    hide Unlisted;
    assert one in Found(c, AddressQ, res) && two in Found(c, AddressQ, res);
  }

  /**
   Addresses pile up: two attempts to make a NAT gateway that crash, because its creation fails, leave an
   address each, and then a teardown in which no call fails does not get past them.
   */
  method AddressesPileUp(a: Account, iam: Iam.Store, rec: Record, c: string, v: Id, subnet: Id, polls: nat)
    returns (first: NatOutcome, second: NatOutcome, deleted: bool)
    requires a.Valid() && a.reliable && AtMostOne(c, VpcQ, a.res) && polls > 0
    requires v in Found(c, VpcQ, a.res) && subnet in a.res && Found(c, NatQ(v), a.res) == {}
    requires Iam.Bounded(c, iam.roles, iam.profiles)
    modifies a, iam
    ensures first.Crashed? && second.Crashed? && !deleted
  {
    hide Matches, Found, Refs, AddressRes, Iam.Bounded, Fewer, Clear;
    VpcKind(c, a.res);
    AddressKind(c);
    ghost var one := a.next;
    UnseenByVpcAndNat(c, v, a.res, one, AddressRes(c));
    ghost var mid;
    first, mid := EnsureNat(a, c, v, subnet, CreateFails);
    ghost var two := a.next;
    assert one in a.res && two !in a.res;
    UnseenByVpcAndNat(c, v, a.res, two, AddressRes(c));
    second, mid := EnsureNat(a, c, v, subnet, CreateFails);
    TwoAddresses(c, rec.natGateway, v, one, two, a.res);
    deleted := ApplyDelete(a, iam, rec, c, polls, map[], Net(None, None, None), false);
  }

  lemma AddressKind(c: string)
    ensures AddressRes(c).kind == Address
  {
  }

  lemma UntaggedIsUnlisted(c: string, recorded: Option<Id>, v: Id, side: Side, id: Id, res: Resources)
    requires v in Found(c, VpcQ, res) && id in res && res[id] == SubnetRes(c, v, side).(tags := map[])
    ensures !Clear(c, recorded, res)
  {
    assert res[id].vpc == Some(v) && Unlisted(c, recorded, id, res[id]);
  }

  /**
   A leftover that teardown does not see: a subnet is created and the first call that tags it fails, as in
   setupPublicSubnet and setupPrivateSubnet. A teardown in which no call fails never lists it, so the VPC
   stays in use.
   */
  method UntaggedSubnet(a: Account, iam: Iam.Store, rec: Record, c: string, v: Id, side: Side, polls: nat)
    returns (made: Option<Id>, deleted: bool)
    requires a.Valid() && a.reliable && AtMostOne(c, VpcQ, a.res) && v in Found(c, VpcQ, a.res) && polls > 0
    requires Iam.Bounded(c, iam.roles, iam.profiles)
    modifies a, iam
    ensures made.Some? && !deleted
  {
    hide Matches, Found, Iam.Bounded, Fewer, Clear;
    VpcKind(c, a.res);
    var blank := SubnetRes(c, v, side).(tags := map[]);
    UnseenByVpcAndNat(c, v, a.res, a.next, blank);
    made := a.Create(blank);
    UntaggedIsUnlisted(c, rec.natGateway, v, side, made.value, a.res);
    deleted := ApplyDelete(a, iam, rec, c, polls, map[], Net(None, None, None), false);
  }
}
