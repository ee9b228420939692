/**
 What pharmer owns in an AWS account: resources of the cluster, complete or not, stacked by rank in and around
 the cluster's VPC.
 */
module AwsStack {
  import opened Wrappers
  import opened AwsAccount
  import opened AwsProvision

  // ---- What pharmer owns in the account --------------------------------------------------------

  /** The one-of-a-kind resources of a cluster, as far as they exist. */
  datatype Net = Net(vpc: Option<Id>, address: Option<Id>, natGateway: Option<Id>)

  /** What attempts leave in the account and the VPC of the cluster, tagged or not. */
  ghost predicate Mine(c: string, net: Net, i: Id, r: Resource) {
    match r.kind
    case Vpc => net.vpc == Some(i) && Matches(c, VpcQ, r)
    case Subnet | Table | Gateway | Nat => r.vpc.Some? && r.vpc == net.vpc
    case Group => r.vpc.Some? && r.vpc == net.vpc && r.links == {}
    case Address => net.vpc.Some? && Matches(c, AddressQ, r)
    case Instance => Matches(c, InstanceQ(ControlPlane), r) || Matches(c, InstanceQ(BastionRole), r)
    case Balancer => Matches(c, BalancerQ, r)
    case KeyPair => Matches(c, KeyQ, r)
  }

  /** A subnet, route table or group that lacks the tag by which teardown lists its kind. */
  predicate Untagged(c: string, r: Resource) {
    (r.kind == Subnet || r.kind == Table || r.kind == Group) && ClusterKey(c) !in r.tags
  }

  /** A resource refers only to resources of a lower rank, except that groups refer to groups. */
  function Rank(k: Kind): nat {
    match k
    case Vpc => 0
    case Subnet => 1
    case Gateway => 2
    case Address => 3
    case Nat => 4
    case Table => 5
    case Group => 6
    case _ => 7
  }

  predicate Below(low: Kind, high: Kind) {
    Rank(low) < Rank(high) || (low == Group && high == Group)
  }

  ghost predicate RefersDown(base: Resources, res: Resources, r: Resource) {
    forall t :: t in Refs(r) ==> t in res && t !in base && Below(res[t].kind, r.kind)
  }

  /** `res` is `base`, untouched, plus resources of this cluster stacked by rank. */
  ghost predicate Stack(c: string, base: Resources, net: Net, res: Resources) {
    && (forall i :: i in base ==> i in res && res[i] == base[i])
    && (forall i :: i in res && i !in base ==> Mine(c, net, i, res[i]) && RefersDown(base, res, res[i]))
  }

  /** No lookup of a teardown finds anything. */
  ghost predicate Apart(c: string, res: Resources) {
    && Found(c, VpcQ, res) == {} && Found(c, BalancerQ, res) == {} && Found(c, KeyQ, res) == {}
    && Found(c, AddressQ, res) == {} && forall role :: Found(c, InstanceQ(role), res) == {}
  }

  /** Nothing in the account carries this cluster's names or tags. */
  ghost predicate Clean(c: string, machine: Text, res: Resources) {
    Apart(c, res) && Found(c, BastionQ, res) == {} && Found(c, MasterQ(machine), res) == {}
  }

  ghost predicate Extends(net: Net, wider: Net) {
    && (net.vpc.Some? ==> wider.vpc == net.vpc)
    && (net.address.Some? ==> wider.address == net.address)
    && (net.natGateway.Some? ==> wider.natGateway == net.natGateway)
  }

  lemma StackGrows(c: string, base: Resources, net: Net, res: Resources, wider: Net, id: Id, r: Resource)
    requires Stack(c, base, net, res) && id !in res && Extends(net, wider)
    requires Mine(c, wider, id, r) && RefersDown(base, res, r)
    ensures Stack(c, base, wider, res[id := r])
  {
    hide Matches, Refs;
    var after := res[id := r];
    forall i | i in after && i !in base
      ensures Mine(c, wider, i, after[i]) && RefersDown(base, after, after[i])
    {
      if i != id {
        assert after[i] == res[i] && Mine(c, net, i, res[i]) && RefersDown(base, res, res[i]);
      }
    }
  }

  /** A lookup inside a VPC that was just created finds nothing among older resources. */
  lemma NothingYet(c: string, base: Resources, v: Id, q: Query)
    requires Closed(base) && v !in base && InVpc(q, v)
    ensures Found(c, q, base) == {}
  {
    forall i | i in base
      ensures base[i].vpc != Some(v)
    {
      assert Refs(base[i]) <= base.Keys;
    }
  }

  /** A lookup that found nothing at the start finds only what pharmer made. */
  lemma FindsOnlyNew(c: string, base: Resources, net: Net, res: Resources, q: Query)
    requires Stack(c, base, net, res) && Found(c, q, base) == {}
    ensures forall i :: i in Found(c, q, res) ==> i !in base && Mine(c, net, i, res[i])
  {
    forall i | i in Found(c, q, res)
      ensures i !in base
    {
      assert i !in Found(c, q, base);
    }
  }

  /** `id` is a new resource of the given kind. */
  ghost predicate New(id: Id, kind: Kind, base: Resources, res: Resources) {
    id in res && id !in base && res[id].kind == kind
  }

  /** What attempts leave: the cluster's VPC, if any, and resources of the cluster stacked by rank. */
  ghost predicate Shaped(c: string, base: Resources, net: Net, res: Resources) {
    && Closed(base) && Apart(c, base) && Stack(c, base, net, res)
    && (net.vpc.Some? ==> New(net.vpc.value, Vpc, base, res))
  }

  // ---- What attempts leave, whatever fails -----------------------------------------------------

  /**
   The account as attempts leave it: on top of `others`, untouched, and of leftovers that nothing finds or
   refers to, there are only resources of the cluster, stacked.
   */
  ghost predicate Tended(c: string, others: Resources, res: Resources) {
    exists base, net :: Kept(others, base) && Shaped(c, base, net, res)
  }

  /** What an account is built on. */
  lemma Basis(c: string, others: Resources, res: Resources) returns (base: Resources, net: Net)
    requires Tended(c, others, res)
    ensures Kept(others, base) && Shaped(c, base, net, res) && Apart(c, base)
  {
    base, net :| Kept(others, base) && Shaped(c, base, net, res);
  }

  lemma ShapedIsTended(c: string, others: Resources, base: Resources, net: Net, res: Resources)
    requires Kept(others, base) && Shaped(c, base, net, res)
    ensures Tended(c, others, res)
  {
  }

  /** A resource of the kind in the VPC. */
  predicate Inside(v: Id, kind: Kind, i: Id, res: Resources) {
    i in res && res[i].kind == kind && res[i].vpc == Some(v)
  }

  /** No lookup of a teardown that is not confined to a VPC finds the resource. */
  ghost predicate Unseen(c: string, r: Resource) {
    && !Matches(c, VpcQ, r) && !Matches(c, BalancerQ, r) && !Matches(c, KeyQ, r) && !Matches(c, AddressQ, r)
    && forall role :: !Matches(c, InstanceQ(role), r)
  }

  lemma ApartGrows(c: string, base: Resources, id: Id, r: Resource)
    requires Apart(c, base) && Unseen(c, r)
    ensures Apart(c, base[id := r])
  {
    hide Matches;
    forall q | Found(c, q, base) == {} && !Matches(c, q, r)
      ensures Found(c, q, base[id := r]) == {}
    {
      NoneYet(c, base, id, r, q);
    }
  }

  lemma NoneYet(c: string, base: Resources, id: Id, r: Resource, q: Query)
    requires Found(c, q, base) == {} && !Matches(c, q, r)
    ensures Found(c, q, base[id := r]) == {}
  {
    hide Matches;
    forall i | i in base && i != id
      ensures !Matches(c, q, base[i])
    {
      assert i !in Found(c, q, base);
    }
  }

  /** A leftover that nothing sees counts as part of the account that was there. */
  lemma LooseTended(c: string, others: Resources, res: Resources, id: Id, r: Resource)
    requires Tended(c, others, res) && id !in res && Unseen(c, r) && Refs(r) == {}
    ensures Tended(c, others, res[id := r])
  {
    hide Matches, Refs, Mine, Apart, Unseen;
    var base, net :| Kept(others, base) && Shaped(c, base, net, res);
    var wider, after := base[id := r], res[id := r];
    ApartGrows(c, base, id, r);
    forall i | i in after && i !in wider
      ensures Mine(c, net, i, after[i]) && RefersDown(wider, after, after[i])
    {
      assert RefersDown(base, res, res[i]);
    }
    assert Shaped(c, wider, net, after);
  }

  /** A resource of the cluster that refers to others of the cluster, in its VPC or found by name. */
  lemma OursTended(c: string, others: Resources, base: Resources, net: Net, res: Resources, wider: Net, id: Id,
                   r: Resource)
    requires Kept(others, base) && Shaped(c, base, net, res) && id !in res && Extends(net, wider)
    requires wider.vpc != net.vpc ==> net.vpc.None? && wider.vpc == Some(id) && r.kind == Vpc
    requires Mine(c, wider, id, r) && RefersDown(base, res, r)
    ensures Tended(c, others, res[id := r])
  {
    hide Matches, Refs, Mine, Apart, RefersDown;
    StackGrows(c, base, net, res, wider, id, r);
    assert Shaped(c, base, wider, res[id := r]);
  }

  /** What is found, or in the VPC that is found, is the cluster's. */
  lemma FoundIsOurs(c: string, base: Resources, net: Net, res: Resources, v: Id)
    requires Shaped(c, base, net, res) && v in Found(c, VpcQ, res)
    ensures net.vpc == Some(v) && v !in base
    ensures forall i :: i in res && res[i].vpc == Some(v) ==> i !in base
    ensures forall i :: i in Found(c, AddressQ, res) ==> i !in base
  {
    hide Refs;
    FindsOnlyNew(c, base, net, res, VpcQ);
    FindsOnlyNew(c, base, net, res, AddressQ);
    assert Mine(c, net, v, res[v]);
    BaseElsewhere(base, v);
  }

  /** Nothing in an account is in a VPC that is not. */
  lemma BaseElsewhere(base: Resources, v: Id)
    requires Closed(base) && v !in base
    ensures forall i :: i in base ==> base[i].vpc != Some(v)
  {
    forall i | i in base
      ensures base[i].vpc != Some(v)
    {
      assert Refs(base[i]) <= base.Keys;
    }
  }

  /** The VPC, or what is in it, or an address of the cluster: something of a lower kind to refer to. */
  predicate Usable(c: string, v: Id, kind: Kind, t: Id, res: Resources) {
    t in res && Below(res[t].kind, kind) && (t == v || res[t].vpc == Some(v) || Matches(c, AddressQ, res[t]))
  }

  /** What `full` refers to is there to be referred to. */
  ghost predicate Founded(c: string, v: Id, full: Resource, res: Resources) {
    forall t :: t in Refs(full) ==> Usable(c, v, full.kind, t, res)
  }

  lemma FoundedRefersDown(c: string, base: Resources, net: Net, res: Resources, v: Id, full: Resource, r: Resource)
    requires Shaped(c, base, net, res) && v in Found(c, VpcQ, res)
    requires Founded(c, v, full, res) && r.kind == full.kind && Refs(r) <= Refs(full)
    ensures RefersDown(base, res, r)
  {
    hide Refs, Matches, Shaped;
    FoundIsOurs(c, base, net, res, v);
    forall t | t in Refs(r)
      ensures t in res && t !in base && Below(res[t].kind, r.kind)
    {
      assert Usable(c, v, full.kind, t, res);
      assert Matches(c, AddressQ, res[t]) ==> t in Found(c, AddressQ, res);
    }
  }

  /** The kinds that are inside the VPC. */
  predicate Internal(k: Kind) {
    k == Subnet || k == Gateway || k == Nat || k == Table || k == Group
  }

  lemma PartlyRefers(r: Resource, full: Resource)
    requires Partly(r, full)
    ensures Refs(r) <= Refs(full)
    ensures r.vpc == None && full.links == {} && r.kind != Group ==> Refs(r) == {}
  {
  }

  /** A creation inside the VPC, complete or not; a gateway that was not attached is loose. */
  lemma InternalTended(c: string, others: Resources, v: Id, before: Resources, after: Resources, id: Id, full: Resource)
    requires v in Found(c, VpcQ, before) && id !in before && Added(before, after, id, full)
    requires Internal(full.kind) && full.vpc == Some(v) && Founded(c, v, full, before)
    requires full.kind == Group || full.kind == Gateway ==> full.links == {}
    ensures Tended(c, others, before) ==> Tended(c, others, after)
  {
    if Tended(c, others, before) && after != before {
      var r := after[id];
      PartlyRefers(r, full);
      KindUnseen(c, r);
      hide Refs, Shaped, RefersDown, Founded, Added, Partly, Matches, Unseen, Found, Tended, Kept;
      if r.vpc == None {
        LooseTended(c, others, before, id, r);
      } else {
        var base, net := Basis(c, others, before);
        FoundIsOurs(c, base, net, before, v);
        FoundedRefersDown(c, base, net, before, v, full, r);
        OursTended(c, others, base, net, before, net, id, r);
      }
    }
  }

  /** An instance or a load balancer, created as a whole. */
  lemma ServerTended(c: string, others: Resources, v: Id, before: Resources, id: Id, r: Resource)
    requires v in Found(c, VpcQ, before) && id !in before && Founded(c, v, r, before)
    requires Matches(c, BalancerQ, r) || Matches(c, InstanceQ(ControlPlane), r) || Matches(c, InstanceQ(BastionRole), r)
    ensures Tended(c, others, before) ==> Tended(c, others, before[id := r])
  {
    if Tended(c, others, before) {
      ServerMine(c, id, r);
      hide Refs, Shaped, RefersDown, Founded, Matches, Found, Mine, Tended, Kept;
      var base, net := Basis(c, others, before);
      FoundedRefersDown(c, base, net, before, v, r, r);
      OursTended(c, others, base, net, before, net, id, r);
    }
  }

  lemma ServerMine(c: string, id: Id, r: Resource)
    requires Matches(c, BalancerQ, r) || Matches(c, InstanceQ(ControlPlane), r) || Matches(c, InstanceQ(BastionRole), r)
    ensures forall net :: Mine(c, net, id, r)
  {
  }

  lemma KeyTended(c: string, others: Resources, before: Resources, id: Id)
    requires id !in before
    ensures Tended(c, others, before) ==> Tended(c, others, before[id := KeyRes(c)])
  {
    KeyMine(c, id);
    hide Refs, Shaped, Tended, Kept, RefersDown, KeyRes, Mine;
    if Tended(c, others, before) {
      var base, net := Basis(c, others, before);
      KeyRefersDown(c, base, before);
      OursTended(c, others, base, net, before, net, id, KeyRes(c));
    }
  }

  lemma KeyMine(c: string, id: Id)
    ensures forall net :: Mine(c, net, id, KeyRes(c))
  {
  }

  lemma KeyRefersDown(c: string, base: Resources, res: Resources)
    ensures RefersDown(base, res, KeyRes(c))
  {
  }

  /** A VPC, which is loose unless it has the tags by which it is found. */
  lemma VpcTended(c: string, others: Resources, before: Resources, after: Resources, id: Id)
    requires Found(c, VpcQ, before) == {} && id !in before && Added(before, after, id, VpcRes(c))
    ensures Tended(c, others, before) ==> Tended(c, others, after)
  {
    if Tended(c, others, before) && after != before {
      var r := after[id];
      PlainRefs(c, r);
      KindUnseen(c, r);
      hide Refs, Matches, Partly, Found, Shaped, Unseen, VpcRes, AddressRes, Tended, Kept, Added;
      if Matches(c, VpcQ, r) {
        var base, net := Basis(c, others, before);
        NoVpcYet(c, base, net, before);
        OursTended(c, others, base, net, before, net.(vpc := Some(id)), id, r);
      } else {
        LooseTended(c, others, before, id, r);
      }
    }
  }

  lemma NoVpcYet(c: string, base: Resources, net: Net, res: Resources)
    requires Shaped(c, base, net, res)
    ensures net.vpc.Some? ==> net.vpc.value in Found(c, VpcQ, res)
  {
    if net.vpc.Some? {
      assert Mine(c, net, net.vpc.value, res[net.vpc.value]);
    }
  }

  lemma KindUnseen(c: string, r: Resource)
    ensures r.kind == Vpc && !Matches(c, VpcQ, r) ==> Unseen(c, r)
    ensures r.kind == Address && !Matches(c, AddressQ, r) ==> Unseen(c, r)
    ensures Internal(r.kind) ==> Unseen(c, r)
  {
  }

  lemma PlainRefs(c: string, r: Resource)
    ensures Partly(r, VpcRes(c)) || Partly(r, AddressRes(c)) ==> Refs(r) == {}
    ensures Partly(r, VpcRes(c)) ==> r.kind == Vpc
    ensures Partly(r, AddressRes(c)) ==> r.kind == Address
  {
  }

  /** An address, which is loose unless it has the tags by which it is found. */
  lemma AddressTended(c: string, others: Resources, v: Id, before: Resources, after: Resources, id: Id)
    requires v in Found(c, VpcQ, before) && id !in before && Added(before, after, id, AddressRes(c))
    ensures Tended(c, others, before) ==> Tended(c, others, after)
  {
    if Tended(c, others, before) && after != before {
      var r := after[id];
      PlainRefs(c, r);
      KindUnseen(c, r);
      hide Refs, Matches, Partly, Found, Shaped, Unseen, VpcRes, AddressRes, Tended, Kept, Added;
      if Matches(c, AddressQ, r) {
        var base, net := Basis(c, others, before);
        FoundIsOurs(c, base, net, before, v);
        OursTended(c, others, base, net, before, net, id, r);
      } else {
        LooseTended(c, others, before, id, r);
      }
    }
  }

  /** At the start there is nothing of the cluster. */
  lemma ApartIsTended(c: string, res: Resources)
    requires Closed(res) && Apart(c, res)
    ensures Tended(c, res, res)
  {
    assert Shaped(c, res, Net(None, None, None), res);
  }

  // ---- What each creation refers to ------------------------------------------------------------

  lemma SubnetFounded(c: string, v: Id, side: Side, res: Resources)
    requires v in Found(c, VpcQ, res)
    ensures Founded(c, v, SubnetRes(c, v, side), res)
  {
  }

  lemma GatewayFounded(c: string, v: Id, res: Resources)
    requires v in Found(c, VpcQ, res)
    ensures Founded(c, v, GatewayRes(c, v), res)
  {
  }

  lemma NatFounded(c: string, v: Id, subnet: Id, address: Id, res: Resources)
    requires v in Found(c, VpcQ, res) && Inside(v, Subnet, subnet, res) && address in Found(c, AddressQ, res)
    ensures Founded(c, v, NatRes(c, v, subnet, address), res)
  {
  }

  lemma TableFounded(c: string, v: Id, side: Side, target: Id, subnet: Id, res: Resources)
    requires v in Found(c, VpcQ, res) && Inside(v, Subnet, subnet, res)
    requires Inside(v, Gateway, target, res) || Inside(v, Nat, target, res)
    ensures Founded(c, v, TableRes(c, v, side, target, subnet), res)
  {
  }

  lemma GroupFounded(c: string, v: Id, role: Role, res: Resources)
    requires v in Found(c, VpcQ, res)
    ensures Founded(c, v, GroupRes(c, v, role, {}), res)
  {
  }

  /** A bastion, a load balancer or a master. */
  lemma ServersFounded(c: string, v: Id, subnet: Id, group: Id, res: Resources)
    requires v in Found(c, VpcQ, res) && Inside(v, Subnet, subnet, res) && Inside(v, Group, group, res)
    ensures Founded(c, v, BastionRes(c, v, subnet, group), res)
    ensures Founded(c, v, BalancerRes(c, v, subnet, group), res)
    ensures forall machine, live :: Founded(c, v, MasterRes(c, v, subnet, group, machine).(live := live), res)
  {
  }

  /** An address, or a part of one, and a NAT gateway, or a part of one. */
  lemma NatTended(c: string, others: Resources, v: Id, subnet: Id, before: Resources, mid: Resources,
                  after: Resources, id: Id)
    requires v in Found(c, VpcQ, before) && Inside(v, Subnet, subnet, before) && id !in before && id + 1 !in before
    requires Added(before, mid, id, AddressRes(c)) && Added(mid, after, id + 1, NatRes(c, v, subnet, id))
    requires after != mid ==> mid == before[id := AddressRes(c)]
    ensures Tended(c, others, before) ==> Tended(c, others, after)
  {
    AddressTended(c, others, v, before, mid, id);
    if after != mid {
      AddressFound(c, before, id);
      NatFounded(c, v, subnet, id, mid);
      NatInside(c, v, subnet, id);
      hide Tended, Founded, NatRes, AddressRes, Found, Added;
      InternalTended(c, others, v, mid, after, id + 1, NatRes(c, v, subnet, id));
    }
  }

  lemma AddressFound(c: string, res: Resources, id: Id)
    ensures id in Found(c, AddressQ, res[id := AddressRes(c)])
    ensures forall i :: i in Found(c, VpcQ, res) && i != id ==> i in Found(c, VpcQ, res[id := AddressRes(c)])
  {
  }

  lemma NatInside(c: string, v: Id, subnet: Id, address: Id)
    ensures NatRes(c, v, subnet, address).kind == Nat && NatRes(c, v, subnet, address).vpc == Some(v)
  {
  }

  /** What was there stays where it was. */
  lemma KeptInside(c: string, before: Resources, after: Resources)
    requires Kept(before, after)
    ensures Found(c, VpcQ, before) <= Found(c, VpcQ, after)
    ensures forall v, kind, i :: Inside(v, kind, i, before) ==> Inside(v, kind, i, after)
  {
  }
}
