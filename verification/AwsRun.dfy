/**
 Whole runs on AWS: PrepareCloud, EnsureMaster and ApplyDelete of cloud/providers/aws/apply.go.

 A run is `pristine` when no call fails and the account carries nothing of this cluster; for such a
 run each step also says how it advances the `Progress` from the account `base` it started from.
 */
module AwsRun {
  import opened Wrappers
  import opened AwsAccount
  import opened AwsProvision
  import opened AwsStack
  import opened AwsGroups
  import opened AwsPrepare
  import opened AwsTeardown
  import Iam

  /** The ids that the steps of PrepareCloud hand to one another. */
  datatype Ids = Ids(vpc: Id, public: Id, private: Id)

  /**
   What is neither a fault nor a state of the account: whether an AWS session opens, what becomes of a NAT
   gateway, and whether the master is seen to run.
   */
  datatype Env = Env(session: bool, fate: NatFate, comesUp: bool)

  const CALM: Env := Env(true, Comes, true)

  ghost predicate Placed(c: string, ids: Ids, base: Resources, res: Resources) {
    New(ids.vpc, Vpc, base, res) && New(ids.public, Subnet, base, res) && New(ids.private, Subnet, base, res)
    && Matches(c, SubnetQ(ids.vpc, Private), res[ids.private])
  }

  /**
   A run seen from its start: what was there, the master's name, and whether the run is pristine; and, for
   attempts in general, the account before the first of them.
   */
  datatype View = View(base: Resources, machine: Text, pristine: bool, others: Resources)

  /** The VPC that is found, and two subnets in it. */
  predicate Site(c: string, ids: Ids, res: Resources) {
    && ids.vpc in Found(c, VpcQ, res)
    && Inside(ids.vpc, Subnet, ids.public, res) && Inside(ids.vpc, Subnet, ids.private, res)
  }

  lemma SiteKept(c: string, ids: Ids, before: Resources, after: Resources)
    requires Kept(before, after)
    ensures Site(c, ids, before) ==> Site(c, ids, after)
    ensures forall kind, i :: Inside(ids.vpc, kind, i, before) ==> Inside(ids.vpc, kind, i, after)
  {
    KeptInside(c, before, after);
    hide Found;
  }

  lemma SiteFound(c: string, ids: Ids, res: Resources)
    requires Site(c, ids, res)
    ensures ids.vpc in Found(c, VpcQ, res) && Inside(ids.vpc, Subnet, ids.public, res)
  {
  }

  /** A pristine run has answered exactly the lookups in `done`. */
  ghost predicate On(c: string, w: View, net: Net, v: Id, a: Account, done: set<Query>)
    reads a
  {
    w.pristine ==>
      && a.reliable && (forall i :: i in w.base ==> i < a.next)
      && Progress(c, w.base, net, v, w.machine, a.res, done)
  }

  lemma NotFoundYet(c: string, w: View, net: Net, v: Id, a: Account, done: set<Query>, q: Query)
    requires On(c, w, net, v, a, done)
    requires Step(q) && Relevant(q, v, w.machine) && q !in done
    ensures w.pristine ==> Found(c, q, a.res) == {}
  {
  }

  lemma Kinds(c: string)
    ensures VpcRes(c).kind == Vpc && AddressRes(c).kind == Address
    ensures forall v: Id, side :: SubnetRes(c, v, side).kind == Subnet && SubnetRes(c, v, side).vpc == Some(v)
    ensures forall v: Id :: GatewayRes(c, v) == Bare(Gateway, Some(v), {}, GatewayRes(c, v).tags)
    ensures forall v, s, e :: NatRes(c, v, s, e).kind == Nat
    ensures forall v: Id, side, t, u ::
              TableRes(c, v, side, t, u).kind == Table && TableRes(c, v, side, t, u).vpc == Some(v)
  {
  }

  // ---- The steps of PrepareCloud ---------------------------------------------------------------

  method KeyStep(a: Account, c: string, ghost w: View) returns (ok: bool)
    requires a.Valid() && Unique(c, a.res)
    requires w.pristine ==> a.reliable && w.base == a.res && Clean(c, w.machine, a.res)
    modifies a
    ensures a.Valid() && a.refused == old(a.refused) && Unique(c, a.res) && Kept(old(a.res), a.res)
    ensures Tended(c, w.others, old(a.res)) ==> Tended(c, w.others, a.res)
    ensures w.pristine ==> ok
    ensures On(c, w, Net(None, None, None), a.next, a, {KeyQ})
  {
    hide Matches, Refs, Found, Unique, Partly, Progress, KeyRes, Tended;
    ghost var k := a.next;
    ok := EnsureKey(a, c);
    KeyTended(c, w.others, old(a.res), k);
    if w.pristine {
      KeyProgress(c, w.base, a.next, w.machine, k);
    }
  }

  method VpcStep(a: Account, c: string, ghost w: View, ghost done: set<Query>) returns (id: Option<Id>)
    requires a.Valid() && Unique(c, a.res) && VpcQ !in done
    requires On(c, w, Net(None, None, None), a.next, a, done)
    modifies a
    ensures a.Valid() && a.refused == old(a.refused) && Unique(c, a.res) && Kept(old(a.res), a.res)
    ensures Tended(c, w.others, old(a.res)) ==> Tended(c, w.others, a.res)
    ensures id.Some? ==> id.value in Found(c, VpcQ, a.res) && id.value in a.res
    ensures w.pristine ==>
              && id == Some(old(a.next)) && New(id.value, Vpc, w.base, a.res)
              && On(c, w, Net(id, None, None), id.value, a, done + {VpcQ})
  {
    hide Matches, Refs, Owned, Found, Unique, Partly, Progress, Bare, VpcRes, Tended, Added;
    ghost var res, v := a.res, a.next;
    NotFoundYet(c, w, Net(None, None, None), v, a, done, VpcQ);
    id := EnsureVpc(a, c);
    if Found(c, VpcQ, res) == {} {
      VpcTended(c, w.others, res, a.res, v);
    }
    FoundExist(c, VpcQ, a.res);
    Kinds(c);
    if w.pristine {
      VpcProgress(c, w.base, Net(None, None, None), v, w.machine, res, done);
    }
  }

  method SubnetStep(a: Account, c: string, v: Id, side: Side, ghost w: View, ghost net: Net, ghost done: set<Query>)
    returns (id: Option<Id>)
    requires a.Valid() && Unique(c, a.res) && v in Found(c, VpcQ, a.res)
    requires On(c, w, net, v, a, done) && SubnetQ(v, side) !in done
    requires w.pristine ==> net.vpc == Some(v) && New(v, Vpc, w.base, a.res)
    modifies a
    ensures a.Valid() && a.refused == old(a.refused) && Unique(c, a.res) && Kept(old(a.res), a.res)
    ensures Tended(c, w.others, old(a.res)) ==> Tended(c, w.others, a.res)
    ensures id.Some? ==> Inside(v, Subnet, id.value, a.res) && Matches(c, SubnetQ(v, side), a.res[id.value])
    ensures w.pristine ==> id.Some? && New(id.value, Subnet, w.base, a.res)
    ensures On(c, w, net, v, a, done + {SubnetQ(v, side)})
  {
    hide Matches, Refs, Owned, Found, Unique, Partly, Progress, Bare, SubnetRes, Tended, Added, Founded;
    ghost var res, i := a.res, a.next;
    NotFoundYet(c, w, net, v, a, done, SubnetQ(v, side));
    FoundExist(c, VpcQ, res);
    id := EnsureSubnet(a, c, v, side);
    FoundExist(c, SubnetQ(v, side), a.res);
    FoundInside(c, v, a.res);
    if Found(c, SubnetQ(v, side), res) == {} {
      SubnetFounded(c, v, side, res);
      Kinds(c);
      InternalTended(c, w.others, v, res, a.res, i, SubnetRes(c, v, side));
    }
    Kinds(c);
    if w.pristine {
      SubnetProgress(c, w.base, net, v, w.machine, res, done, i, side);
    }
  }

  method GatewayStep(a: Account, c: string, v: Id, ghost w: View, ghost net: Net, ghost done: set<Query>)
    returns (id: Option<Id>)
    requires a.Valid() && Unique(c, a.res) && v in Found(c, VpcQ, a.res)
    requires On(c, w, net, v, a, done) && GatewayQ(v) !in done
    requires w.pristine ==> net.vpc == Some(v) && New(v, Vpc, w.base, a.res)
    modifies a
    ensures a.Valid() && a.refused == old(a.refused) && Unique(c, a.res) && Kept(old(a.res), a.res)
    ensures Tended(c, w.others, old(a.res)) ==> Tended(c, w.others, a.res)
    ensures id.Some? ==> Inside(v, Gateway, id.value, a.res)
    ensures w.pristine ==> id.Some? && New(id.value, Gateway, w.base, a.res)
    ensures On(c, w, net, v, a, done + {GatewayQ(v)})
  {
    hide Matches, Refs, Owned, Found, Unique, Partly, Progress, GatewayRes, Tended, Added, Founded;
    ghost var res, i := a.res, a.next;
    NotFoundYet(c, w, net, v, a, done, GatewayQ(v));
    FoundExist(c, VpcQ, res);
    id := EnsureGateway(a, c, v);
    FoundExist(c, GatewayQ(v), a.res);
    FoundInside(c, v, a.res);
    if Found(c, GatewayQ(v), res) == {} {
      GatewayFounded(c, v, res);
      Kinds(c);
      InternalTended(c, w.others, v, res, a.res, i, GatewayRes(c, v));
    }
    Kinds(c);
    if w.pristine {
      GatewayProgress(c, w.base, net, v, w.machine, res, done, i);
    }
  }

  method NatStep(a: Account, c: string, v: Id, subnet: Id, fate: NatFate, ghost w: View, ghost done: set<Query>)
    returns (id: Option<Id>, ghost net: Net)
    requires a.Valid() && Unique(c, a.res) && v in Found(c, VpcQ, a.res)
    requires Inside(v, Subnet, subnet, a.res)
    requires w.pristine ==> fate.Comes?
    requires On(c, w, Net(Some(v), None, None), v, a, done) && NatQ(v) !in done
    requires w.pristine ==> New(v, Vpc, w.base, a.res) && New(subnet, Subnet, w.base, a.res)
    modifies a
    ensures a.Valid() && a.refused == old(a.refused) && Unique(c, a.res) && Kept(old(a.res), a.res)
    ensures Tended(c, w.others, old(a.res)) ==> Tended(c, w.others, a.res)
    ensures id.Some? ==> Inside(v, Nat, id.value, a.res)
    ensures w.pristine ==>
              && id.Some? && New(id.value, Nat, w.base, a.res)
              && net.vpc == Some(v) && net.natGateway == id && net.address.Some?
    ensures On(c, w, net, v, a, done + {NatQ(v)})
  {
    hide Matches, Refs, Owned, Found, Unique, Partly, Progress, Bare, AddressRes, NatRes, Tended, Added;
    ghost var res, i := a.res, a.next;
    NotFoundYet(c, w, Net(Some(v), None, None), v, a, done, NatQ(v));
    FoundExist(c, VpcQ, res);
    var outcome;
    ghost var mid;
    outcome, mid := EnsureNat(a, c, v, subnet, fate);
    NatTended(c, w.others, v, subnet, res, mid, a.res, i);
    id := if outcome.Made? then Some(outcome.id) else None;
    FoundExist(c, NatQ(v), a.res);
    FoundInside(c, v, a.res);
    Kinds(c);
    net := Net(Some(v), Some(i), Some(i + 1));
    if w.pristine {
      AddressProgress(c, w.base, Net(Some(v), None, None), v, w.machine, res, done, i);
      NatProgress(c, w.base, v, w.machine, res[i := AddressRes(c)], done + {NatQ(v)}, i + 1, subnet, i);
    }
  }

  method TableStep(a: Account, c: string, v: Id, side: Side, target: Id, subnet: Id,
                   ghost w: View, ghost net: Net, ghost done: set<Query>)
    returns (ok: bool)
    requires a.Valid() && Unique(c, a.res) && v in Found(c, VpcQ, a.res)
    requires Inside(v, Subnet, subnet, a.res) && (Inside(v, Gateway, target, a.res) || Inside(v, Nat, target, a.res))
    requires On(c, w, net, v, a, done) && TableQ(v, side) !in done
    requires w.pristine ==>
               && net.vpc == Some(v) && New(v, Vpc, w.base, a.res) && New(subnet, Subnet, w.base, a.res)
               && (New(target, Gateway, w.base, a.res) || New(target, Nat, w.base, a.res))
    modifies a
    ensures a.Valid() && a.refused == old(a.refused) && Unique(c, a.res) && Kept(old(a.res), a.res)
    ensures Tended(c, w.others, old(a.res)) ==> Tended(c, w.others, a.res)
    ensures w.pristine ==> ok
    ensures On(c, w, net, v, a, done + {TableQ(v, side)})
  {
    hide Matches, Refs, Owned, Found, Unique, Partly, Progress, Bare, TableRes, Tended, Added, Founded;
    ghost var res, i := a.res, a.next;
    NotFoundYet(c, w, net, v, a, done, TableQ(v, side));
    var table;
    FoundExist(c, VpcQ, res);
    ok, table := EnsureTable(a, c, v, side, target, subnet);
    if Found(c, TableQ(v, side), res) == {} {
      TableFounded(c, v, side, target, subnet, res);
      Kinds(c);
      InternalTended(c, w.others, v, res, a.res, i, TableRes(c, v, side, target, subnet));
    }
    if w.pristine {
      TableProgress(c, w.base, net, v, w.machine, res, done, i, side, target, subnet);
    }
  }

  lemma FoundExist(c: string, q: Query, res: Resources)
    ensures Found(c, q, res) <= res.Keys
    ensures forall i :: i in Found(c, q, res) ==> Matches(c, q, res[i])
  {
  }

  /** What a lookup inside the VPC finds is there. */
  lemma FoundInside(c: string, v: Id, res: Resources)
    ensures forall side, i :: i in Found(c, SubnetQ(v, side), res) ==> Inside(v, Subnet, i, res)
    ensures forall i :: i in Found(c, GatewayQ(v), res) ==> Inside(v, Gateway, i, res)
    ensures forall i :: i in Found(c, NatQ(v), res) ==> Inside(v, Nat, i, res)
  {
  }

  lemma NoGroupsYet(c: string, w: View, net: Net, v: Id, a: Account, done: set<Query>)
    requires On(c, w, net, v, a, done) && forall role :: GroupQ(v, role) !in done
    ensures w.pristine ==> NoGroups(c, v, a.res)
  {
    forall role | w.pristine
      ensures Found(c, GroupQ(v, role), a.res) == {}
    {
      NotFoundYet(c, w, net, v, a, done, GroupQ(v, role));
    }
  }

  function GroupQueries(v: Id): set<Query> {
    {GroupQ(v, ControlPlane), GroupQ(v, NodeRole), GroupQ(v, BastionRole)}
  }

  method GroupsStep(a: Account, c: string, v: Id, rec: Record, ghost w: View, ghost net: Net, ghost done: set<Query>)
    returns (ok: bool)
    requires a.Valid() && Unique(c, a.res) && v in Found(c, VpcQ, a.res) && Known(rec.groups, a.res)
    requires On(c, w, net, v, a, done) && forall role :: GroupQ(v, role) !in done
    requires w.pristine ==> net.vpc == Some(v) && New(v, Vpc, w.base, a.res)
    modifies a, rec`groups
    ensures a.Valid() && a.refused == old(a.refused) && Unique(c, a.res) && GroupsOnly(old(a.res), a.res)
    ensures Grounded(c, w.others, v, old(rec.groups), old(a.res)) ==> Grounded(c, w.others, v, rec.groups, a.res)
    ensures Known(rec.groups, a.res) && (ok ==> AllRoles(rec.groups))
    ensures w.pristine ==>
              && ok && New(rec.groups[ControlPlane], Group, w.base, a.res)
              && New(rec.groups[BastionRole], Group, w.base, a.res)
    ensures On(c, w, net, v, a, done + GroupQueries(v))
  {
    hide Matches, Refs, Owned, Found, Unique, Partly, Progress, Bare, GroupRes, BlankGroups, Authorized, Grounded;
    ghost var res, i := a.res, a.next;
    NoGroupsYet(c, w, net, v, a, done);
    FoundExist(c, VpcQ, res);
    ok := EnsureGroups(a, c, v, rec, w.others);
    if w.pristine {
      AuthorizedProgress(c, w.base, net, v, w.machine, res, done, i, rec.groups);
    }
  }

  lemma ServersMatch(c: string, v: Id, subnet: Id, group: Id)
    ensures Matches(c, InstanceQ(BastionRole), BastionRes(c, v, subnet, group))
    ensures Matches(c, BalancerQ, BalancerRes(c, v, subnet, group))
  {
  }

  method BastionStep(a: Account, c: string, v: Id, subnet: Id, group: Id,
                     ghost w: View, ghost net: Net, ghost done: set<Query>) returns (ok: bool)
    requires a.Valid() && Unique(c, a.res) && v in Found(c, VpcQ, a.res)
    requires Inside(v, Subnet, subnet, a.res) && group in a.res
    requires On(c, w, net, v, a, done) && BastionQ !in done
    requires w.pristine ==>
               && net.vpc == Some(v) && New(v, Vpc, w.base, a.res)
               && New(subnet, Subnet, w.base, a.res) && New(group, Group, w.base, a.res)
    modifies a
    ensures a.Valid() && a.refused == old(a.refused) && Unique(c, a.res) && Kept(old(a.res), a.res)
    ensures Inside(v, Group, group, old(a.res)) && Tended(c, w.others, old(a.res)) ==> Tended(c, w.others, a.res)
    ensures w.pristine ==> ok
    ensures On(c, w, net, v, a, done + {BastionQ})
  {
    hide Matches, Refs, Owned, Found, Unique, Partly, Progress, Bare, BastionRes, Tended, Founded, Alone, Bearers;
    ghost var res, i := a.res, a.next;
    NotFoundYet(c, w, net, v, a, done, BastionQ);
    FoundExist(c, VpcQ, res);
    ok := EnsureBastion(a, c, v, subnet, group);
    if Inside(v, Group, group, res) {
      ServersFounded(c, v, subnet, group, res);
      ServersMatch(c, v, subnet, group);
      ServerTended(c, w.others, v, res, i, BastionRes(c, v, subnet, group));
    }
    if w.pristine {
      BastionProgress(c, w.base, net, v, w.machine, res, done, i, subnet, group);
    }
  }

  method BalancerStep(a: Account, c: string, v: Id, subnet: Id, group: Id,
                      ghost w: View, ghost net: Net, ghost done: set<Query>) returns (ok: bool)
    requires a.Valid() && Unique(c, a.res) && v in Found(c, VpcQ, a.res)
    requires Inside(v, Subnet, subnet, a.res) && group in a.res
    requires On(c, w, net, v, a, done) && BalancerQ !in done
    requires w.pristine ==>
               && net.vpc == Some(v) && New(v, Vpc, w.base, a.res)
               && New(subnet, Subnet, w.base, a.res) && New(group, Group, w.base, a.res)
    modifies a
    ensures a.Valid() && a.refused == old(a.refused) && Unique(c, a.res) && Kept(old(a.res), a.res)
    ensures Inside(v, Group, group, old(a.res)) && Tended(c, w.others, old(a.res)) ==> Tended(c, w.others, a.res)
    ensures w.pristine ==> ok
    ensures On(c, w, net, v, a, done + {BalancerQ})
  {
    hide Matches, Refs, Owned, Found, Unique, Partly, Progress, Bare, BalancerRes, Tended, Founded;
    ghost var res, i := a.res, a.next;
    NotFoundYet(c, w, net, v, a, done, BalancerQ);
    FoundExist(c, VpcQ, res);
    ok := EnsureBalancer(a, c, v, subnet, group);
    if Inside(v, Group, group, res) {
      ServersFounded(c, v, subnet, group, res);
      ServersMatch(c, v, subnet, group);
      ServerTended(c, w.others, v, res, i, BalancerRes(c, v, subnet, group));
    }
    if w.pristine {
      BalancerProgress(c, w.base, net, v, w.machine, res, done, i, subnet, group);
    }
  }

  // ---- PrepareCloud ----------------------------------------------------------------------------

  function SubnetQueries(v: Id): set<Query> {
    {KeyQ} + {VpcQ} + {SubnetQ(v, Public)} + {SubnetQ(v, Private)}
  }

  function NetworkQueries(v: Id): set<Query> {
    SubnetQueries(v) + {GatewayQ(v)} + {NatQ(v)} + {TableQ(v, Public)} + {TableQ(v, Private)}
  }

  lemma OneVpc(c: string, res: Resources, v: Id, again: Option<Id>)
    requires Unique(c, res) && v in Found(c, VpcQ, res)
    requires again.None? <==> Found(c, VpcQ, res) == {}
    requires again.Some? ==> again.value in Found(c, VpcQ, res)
    ensures again == Some(v)
  {
  }

  /** Key pair, VPC and subnets; the subnets look their VPC up again. */
  method PrepareSubnets(a: Account, c: string, ghost w: View) returns (ids: Option<Ids>)
    requires a.Valid() && Unique(c, a.res)
    requires w.pristine ==> a.reliable && w.base == a.res && Clean(c, w.machine, a.res)
    modifies a
    ensures a.Valid() && a.refused == old(a.refused) && Unique(c, a.res) && Kept(old(a.res), a.res)
    ensures Tended(c, w.others, old(a.res)) ==> Tended(c, w.others, a.res)
    ensures ids.Some? ==> Site(c, ids.value, a.res)
    ensures w.pristine ==>
              && ids.Some? && Placed(c, ids.value, w.base, a.res)
              && On(c, w, Net(Some(ids.value.vpc), None, None), ids.value.vpc, a, SubnetQueries(ids.value.vpc))
  {
    hide Matches, Refs, Found, Unique, Progress, Tended;
    ids := None;
    var ok := KeyStep(a, c, w);
    if !ok {
      return;
    }
    var vpc := VpcStep(a, c, w, {KeyQ});
    if vpc.None? {
      return;
    }
    var found := a.Lookup(c, VpcQ);
    OneVpc(c, a.res, vpc.value, found);
    var v := found.value;
    ghost var net, res := Net(Some(v), None, None), a.res;
    var public := SubnetStep(a, c, v, Public, w, net, {KeyQ} + {VpcQ});
    KeptInside(c, res, a.res);
    if public.None? {
      return;
    }
    res := a.res;
    var private := SubnetStep(a, c, v, Private, w, net, {KeyQ} + {VpcQ} + {SubnetQ(v, Public)});
    KeptInside(c, res, a.res);
    if private.None? {
      return;
    }
    ids := Some(Ids(vpc.value, public.value, private.value));
  }

  /**
   Internet gateway, NAT gateway and both route tables. A crash over the NAT gateway ends the attempt like
   any error.
   */
  method PrepareGateways(a: Account, c: string, ids: Ids, fate: NatFate, ghost w: View)
    returns (natGateway: Option<Id>, ghost net: Net)
    requires a.Valid() && Unique(c, a.res)
    requires w.pristine ==> fate.Comes?
    requires Site(c, ids, a.res)
    requires On(c, w, Net(Some(ids.vpc), None, None), ids.vpc, a, SubnetQueries(ids.vpc))
    requires w.pristine ==> Placed(c, ids, w.base, a.res)
    modifies a
    ensures a.Valid() && a.refused == old(a.refused) && Unique(c, a.res) && Kept(old(a.res), a.res)
    ensures Tended(c, w.others, old(a.res)) ==> Tended(c, w.others, a.res)
    ensures natGateway.Some? ==> Inside(ids.vpc, Nat, natGateway.value, a.res)
    ensures w.pristine ==>
              && natGateway.Some? && New(natGateway.value, Nat, w.base, a.res)
              && net.vpc == Some(ids.vpc) && net.natGateway == natGateway && net.address.Some?
    ensures On(c, w, net, ids.vpc, a, NetworkQueries(ids.vpc))
  {
    hide Matches, Refs, Found, Unique, Progress, On, Kept, Placed, New, Tended, Site, Inside;
    natGateway, net := None, Net(Some(ids.vpc), None, None);
    var v := ids.vpc;
    ghost var start, done := a.res, SubnetQueries(v);
    PlacedParts(c, ids, w.base, a.res);
    SiteFound(c, ids, start);
    var gateway := GatewayStep(a, c, v, w, net, done);
    if gateway.None? {
      NoClaim(c, w, net, v, a, NetworkQueries(v));
      return;
    }
    done := done + {GatewayQ(v)};
    StepsKeep(c, ids, w.base, map[], start, a.res);
    SiteKept(c, ids, start, a.res);
    SiteFound(c, ids, a.res);
    PlacedParts(c, ids, w.base, a.res);
    ghost var attached := a.res;
    var made;
    made, net := NatStep(a, c, v, ids.public, fate, w, done);
    KeptOn(start, attached, a.res);
    if made.None? {
      NoClaim(c, w, net, v, a, NetworkQueries(v));
      return;
    }
    done := done + {NatQ(v)};
    StepsKeep(c, ids, w.base, map[], attached, a.res);
    SiteKept(c, ids, attached, a.res);
    ghost var res := a.res;
    var ok := PrepareTables(a, c, ids, gateway.value, made.value, w, net, done);
    StepsKeep(c, ids, w.base, map[], res, a.res);
    SiteKept(c, ids, res, a.res);
    KeptOn(start, res, a.res);
    if ok {
      natGateway := made;
    }
  }

  lemma PlacedParts(c: string, ids: Ids, base: Resources, res: Resources)
    ensures Placed(c, ids, base, res) ==> New(ids.vpc, Vpc, base, res) && New(ids.public, Subnet, base, res)
  {
  }

  lemma KeptOn(one: Resources, two: Resources, three: Resources)
    requires Kept(one, two) && Kept(two, three)
    ensures Kept(one, three)
  {
  }

  /** ensureRouteTable. */
  method PrepareTables(a: Account, c: string, ids: Ids, gateway: Id, natGateway: Id,
                       ghost w: View, ghost net: Net, ghost done: set<Query>) returns (ok: bool)
    requires a.Valid() && Unique(c, a.res)
    requires Site(c, ids, a.res) && Inside(ids.vpc, Gateway, gateway, a.res) && Inside(ids.vpc, Nat, natGateway, a.res)
    requires On(c, w, net, ids.vpc, a, done)
    requires TableQ(ids.vpc, Public) !in done && TableQ(ids.vpc, Private) !in done
    requires w.pristine ==>
               && Placed(c, ids, w.base, a.res) && net.vpc == Some(ids.vpc)
               && New(gateway, Gateway, w.base, a.res) && New(natGateway, Nat, w.base, a.res)
    modifies a
    ensures a.Valid() && a.refused == old(a.refused) && Unique(c, a.res) && Kept(old(a.res), a.res)
    ensures Tended(c, w.others, old(a.res)) ==> Tended(c, w.others, a.res)
    ensures w.pristine ==> ok
    ensures On(c, w, net, ids.vpc, a, done + {TableQ(ids.vpc, Public)} + {TableQ(ids.vpc, Private)})
  {
    hide Matches, Refs, Found, Unique, Progress, Tended;
    ghost var res := a.res;
    ok := TableStep(a, c, ids.vpc, Public, gateway, ids.public, w, net, done);
    SiteKept(c, ids, res, a.res);
    if !ok {
      return;
    }
    ok := TableStep(a, c, ids.vpc, Private, natGateway, ids.private, w, net, done + {TableQ(ids.vpc, Public)});
  }

  /**
   PrepareCloud. Whatever fails, nothing is refused and no lookup becomes ambiguous; a pristine run
   succeeds, and records the NAT gateway that teardown will need.
   */
  method PrepareCloud(a: Account, iam: Iam.Store, rec: Record, c: string, env: Env, ghost machine: Text,
                      ghost others: Resources)
    returns (ok: bool, ghost ids: Option<Ids>, ghost net: Net)
    requires a.Valid() && Unique(c, a.res) && Known(rec.groups, a.res)
    requires Iam.Bounded(c, iam.roles, iam.profiles)
    modifies a, iam`roles, iam`profiles, rec
    ensures a.Valid() && a.refused == old(a.refused)
    ensures Unique(c, a.res) && Known(rec.groups, a.res)
    ensures Tended(c, others, old(a.res)) && Remembered(c, old(rec.groups), old(a.res)) ==>
              Tended(c, others, a.res) && Remembered(c, rec.groups, a.res)
    ensures Iam.Bounded(c, iam.roles, iam.profiles)
    ensures Iam.OthersKept(c, old(iam.roles), iam.roles) && Iam.OthersKept(c, old(iam.profiles), iam.profiles)
    ensures a.reliable && env.session && Iam.Absent(c, old(iam.roles), old(iam.profiles)) ==>
              Iam.Complete(c, iam.roles, iam.profiles)
    ensures var w := View(old(a.res), machine, a.reliable && env.fate.Comes? && Clean(c, machine, old(a.res)), others);
            w.pristine && Iam.Absent(c, old(iam.roles), old(iam.profiles)) ==>
              && ok && ids.Some? && Ready(c, w, ids.value, net, a, rec)
              && On(c, w, net, ids.value.vpc, a, AllQueries(ids.value.vpc))
  {
    hide Matches, Refs, Found, Unique, Progress, Iam.Bounded, Iam.OthersKept, Iam.Absent, Clean, Tended, Remembered;
    ghost var w := View(a.res, machine, a.reliable && env.fate.Comes? && Clean(c, machine, a.res), others);
    ids, net := None, Net(None, None, None);
    ok := iam.EnsureProfiles(c, env.session, a.reliable);
    if !ok {
      return;
    }
    ok, ids, net := PrepareInfrastructure(a, rec, c, env.fate, w);
  }

  /** PrepareCloud after the IAM profiles. */
  method PrepareInfrastructure(a: Account, rec: Record, c: string, fate: NatFate, ghost w: View)
    returns (ok: bool, ghost ids: Option<Ids>, ghost net: Net)
    requires a.Valid() && Unique(c, a.res) && Known(rec.groups, a.res)
    requires w.pristine ==> fate.Comes? && a.reliable && w.base == a.res && Clean(c, w.machine, a.res)
    modifies a, rec
    ensures a.Valid() && a.refused == old(a.refused)
    ensures Unique(c, a.res) && Known(rec.groups, a.res)
    ensures Tended(c, w.others, old(a.res)) && Remembered(c, old(rec.groups), old(a.res)) ==>
              Tended(c, w.others, a.res) && Remembered(c, rec.groups, a.res)
    ensures w.pristine ==>
              && ok && ids.Some? && Ready(c, w, ids.value, net, a, rec)
              && On(c, w, net, ids.value.vpc, a, AllQueries(ids.value.vpc))
  {
    hide Matches, Refs, Found, Unique, Progress, Clean, AllQueries, NetworkQueries, Tended, Remembered, Grounded, Site;
    ok, ids, net := false, None, Net(None, None, None);
    ghost var start := a.res;
    var subnets := PrepareSubnets(a, c, w);
    if subnets.None? {
      StepsKeep(c, Ids(0, 0, 0), w.base, rec.groups, start, a.res);
      RememberedKept(c, rec.groups, start, a.res);
      return;
    }
    ids := subnets;
    ghost var mid := a.res;
    var gate;
    gate, net := PrepareGateways(a, c, subnets.value, fate, w);
    StepsKeep(c, subnets.value, w.base, rec.groups, start, mid);
    StepsKeep(c, subnets.value, w.base, rec.groups, mid, a.res);
    RememberedKept(c, rec.groups, start, mid);
    RememberedKept(c, rec.groups, mid, a.res);
    SiteKept(c, subnets.value, mid, a.res);
    if gate.None? {
      return;
    }
    SiteFound(c, subnets.value, a.res);
    RememberedIsGrounded(c, w.others, subnets.value.vpc, rec.groups, a.res);
    ok := PrepareServers(a, c, subnets.value, rec, w, net);
    RememberedIsGrounded(c, w.others, subnets.value.vpc, rec.groups, a.res);
    if ok {
      var fault := a.Fault();
      if fault {
        ok := false;
      } else {
        rec.natGateway := gate;
      }
    }
  }

  function AllQueries(v: Id): set<Query> {
    NetworkQueries(v) + GroupQueries(v) + {BastionQ} + {BalancerQ}
  }

  /** What EnsureMaster and ApplyDelete rely on after a pristine PrepareCloud. */
  ghost predicate Ready(c: string, w: View, ids: Ids, net: Net, a: Account, rec: Record)
    reads a, rec
  {
    && Placed(c, ids, w.base, a.res) && net.vpc == Some(ids.vpc) && net.address.Some?
    && net.natGateway.Some? && rec.natGateway == net.natGateway && New(net.natGateway.value, Nat, w.base, a.res)
    && AllRoles(rec.groups) && New(rec.groups[ControlPlane], Group, w.base, a.res)
  }

  /** Security groups, bastion and load balancer. */
  method PrepareServers(a: Account, c: string, ids: Ids, rec: Record, ghost w: View, ghost net: Net)
    returns (ok: bool)
    requires a.Valid() && Unique(c, a.res) && Known(rec.groups, a.res)
    requires Site(c, ids, a.res)
    requires On(c, w, net, ids.vpc, a, NetworkQueries(ids.vpc))
    requires w.pristine ==> Placed(c, ids, w.base, a.res) && net.vpc == Some(ids.vpc)
    modifies a, rec`groups
    ensures a.Valid() && a.refused == old(a.refused)
    ensures Unique(c, a.res) && Known(rec.groups, a.res)
    ensures ids.vpc in Found(c, VpcQ, a.res)
    ensures w.pristine ==>
              && ok && Placed(c, ids, w.base, a.res)
              && AllRoles(rec.groups) && New(rec.groups[ControlPlane], Group, w.base, a.res)
    ensures Grounded(c, w.others, ids.vpc, old(rec.groups), old(a.res)) ==>
              Grounded(c, w.others, ids.vpc, rec.groups, a.res)
    ensures forall id :: Inside(ids.vpc, Nat, id, old(a.res)) ==> Inside(ids.vpc, Nat, id, a.res)
    ensures forall id :: New(id, Nat, w.base, old(a.res)) ==> New(id, Nat, w.base, a.res)
    ensures On(c, w, net, ids.vpc, a, AllQueries(ids.vpc))
  {
    hide Matches, Refs, Found, Unique, On, NetworkQueries, GroupQueries, GroupsOnly, Kept, New, Placed, Grounded;
    ghost var start := a.res;
    QueriesApart(ids.vpc);
    PlacedVpc(c, ids, w.base, a.res);
    ok := GroupsStep(a, c, ids.vpc, rec, w, net, NetworkQueries(ids.vpc));
    GroupsKeepPlaced(c, ids, w.base, start, a.res);
    GroupsKeepSite(c, ids, start, a.res);
    if !ok {
      NoClaim(c, w, net, ids.vpc, a, AllQueries(ids.vpc));
      return;
    }
    ghost var grouped := a.res;
    ok := PrepareInstances(a, c, ids, rec.groups[BastionRole], rec.groups[ControlPlane], w, net,
                           NetworkQueries(ids.vpc) + GroupQueries(ids.vpc));
    StepsKeep(c, ids, w.base, rec.groups, grouped, a.res);
    SiteKept(c, ids, grouped, a.res);
    StillGrounded(c, w.others, ids.vpc, rec.groups, grouped, a.res);
  }

  lemma NoClaim(c: string, w: View, net: Net, v: Id, a: Account, done: set<Query>)
    ensures !w.pristine ==> On(c, w, net, v, a, done)
  {
  }

  lemma PlacedVpc(c: string, ids: Ids, base: Resources, res: Resources)
    ensures Placed(c, ids, base, res) ==> New(ids.vpc, Vpc, base, res)
  {
  }

  lemma QueriesApart(v: Id)
    ensures forall role :: GroupQ(v, role) !in NetworkQueries(v)
    ensures BastionQ !in NetworkQueries(v) + GroupQueries(v) && BalancerQ !in NetworkQueries(v) + GroupQueries(v)
    ensures NetworkQueries(v) + GroupQueries(v) + {BastionQ} + {BalancerQ} == AllQueries(v)
  {
  }

  lemma GroupsKeepPlaced(c: string, ids: Ids, base: Resources, before: Resources, after: Resources)
    requires GroupsOnly(before, after)
    ensures ids.vpc in before ==> ids.vpc in after
    ensures ids.public in before ==> ids.public in after
    ensures Placed(c, ids, base, before) ==> Placed(c, ids, base, after)
    ensures forall id :: New(id, Nat, base, before) ==> New(id, Nat, base, after)
  {
  }

  lemma GroupsKeepSite(c: string, ids: Ids, before: Resources, after: Resources)
    requires GroupsOnly(before, after)
    ensures Site(c, ids, before) ==> Site(c, ids, after)
    ensures forall id :: Inside(ids.vpc, Nat, id, before) ==> Inside(ids.vpc, Nat, id, after)
  {
  }

  lemma StillGrounded(c: string, others: Resources, v: Id, groups: map<Role, Id>, before: Resources, after: Resources)
    requires Kept(before, after) && AllRoles(groups)
    requires Inside(v, Group, groups[BastionRole], before) && Inside(v, Group, groups[ControlPlane], before) ==>
               Tended(c, others, before) ==> Tended(c, others, after)
    ensures Grounded(c, others, v, groups, before) ==> Grounded(c, others, v, groups, after)
  {
    hide Tended;
    KeptInside(c, before, after);
  }

  /** A resource of the kind in a VPC that is found. */
  predicate Own(c: string, kind: Kind, i: Id, res: Resources) {
    i in res && res[i].kind == kind && res[i].vpc.Some? && res[i].vpc.value in Found(c, VpcQ, res)
  }

  /** The recorded groups are the cluster's own. */
  predicate Remembered(c: string, groups: map<Role, Id>, res: Resources) {
    forall r :: r in groups ==> Own(c, Group, groups[r], res)
  }

  lemma RememberedKept(c: string, groups: map<Role, Id>, before: Resources, after: Resources)
    requires Kept(before, after)
    ensures Remembered(c, groups, before) ==> Remembered(c, groups, after)
  {
    KeptInside(c, before, after);
    hide Found;
  }

  /** The one VPC that is found is the one the groups are in. */
  lemma RememberedIsGrounded(c: string, others: Resources, v: Id, groups: map<Role, Id>, res: Resources)
    requires Unique(c, res) && v in Found(c, VpcQ, res)
    ensures Grounded(c, others, v, groups, res) <==> Tended(c, others, res) && Remembered(c, groups, res)
  {
    hide Found, Tended;
  }

  lemma StepsKeep(c: string, ids: Ids, base: Resources, groups: map<Role, Id>, before: Resources, after: Resources)
    requires Kept(before, after)
    ensures ids.vpc in before ==> ids.vpc in after
    ensures ids.public in before ==> ids.public in after
    ensures ids.private in before ==> ids.private in after
    ensures Placed(c, ids, base, before) ==> Placed(c, ids, base, after)
    ensures Known(groups, before) ==> Known(groups, after)
    ensures forall id, kind :: New(id, kind, base, before) ==> New(id, kind, base, after)
  {
  }

  method PrepareInstances(a: Account, c: string, ids: Ids, bastion: Id, master: Id,
                          ghost w: View, ghost net: Net, ghost done: set<Query>) returns (ok: bool)
    requires a.Valid() && Unique(c, a.res)
    requires Site(c, ids, a.res) && bastion in a.res && master in a.res
    requires On(c, w, net, ids.vpc, a, done) && BastionQ !in done && BalancerQ !in done
    requires w.pristine ==>
               && net.vpc == Some(ids.vpc) && Placed(c, ids, w.base, a.res)
               && New(bastion, Group, w.base, a.res) && New(master, Group, w.base, a.res)
    modifies a
    ensures a.Valid() && a.refused == old(a.refused) && Unique(c, a.res) && Kept(old(a.res), a.res)
    ensures Inside(ids.vpc, Group, bastion, old(a.res)) && Inside(ids.vpc, Group, master, old(a.res)) ==>
              Tended(c, w.others, old(a.res)) ==> Tended(c, w.others, a.res)
    ensures w.pristine ==> ok
    ensures On(c, w, net, ids.vpc, a, done + {BastionQ} + {BalancerQ})
  {
    hide Matches, Refs, Found, Unique, Progress, Tended;
    ghost var res := a.res;
    ok := BastionStep(a, c, ids.vpc, ids.public, bastion, w, net, done);
    SiteKept(c, ids, res, a.res);
    if !ok {
      return;
    }
    ok := BalancerStep(a, c, ids.vpc, ids.public, master, w, net, done + {BastionQ});
  }
}
