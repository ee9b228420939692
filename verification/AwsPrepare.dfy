/**
 What pharmer owns in an account, the key pair, bastion and load balancer (cloud/providers/aws/apply.go and
 the setup methods of cloud/providers/aws/cloud.go), and the progress that each creation of a fresh,
 failure-free run makes.
 */
module AwsPrepare {
  import opened Wrappers
  import opened AwsAccount
  import opened AwsProvision
  import opened AwsStack
  import opened AwsGroups

  // ---- The remaining single resources ----------------------------------------------------------

  /** importPublicKey. */
  method EnsureKey(a: Account, c: string) returns (ok: bool)
    requires a.Valid()
    modifies a
    ensures a.Valid() && a.refused == old(a.refused) && old(a.next) <= a.next
    ensures Found(c, KeyQ, old(a.res)) != {} ==> ok && a.res == old(a.res)
    ensures Found(c, KeyQ, old(a.res)) == {} ==>
              a.res == if ok then old(a.res)[old(a.next) := KeyRes(c)] else old(a.res)
    ensures Kept(old(a.res), a.res)
    ensures Unique(c, old(a.res)) ==> Unique(c, a.res)
    ensures a.reliable ==> ok
  {
    hide Partly;
    var id := a.Lookup(c, KeyQ);
    if id.None? {
      id := a.Create(KeyRes(c));
      if id.Some? {
        KeyIsPartly(c);
        CreationEnsures(c, KeyQ, KeyRes(c), old(a.res), a.res, old(a.next), id);
      }
    }
    ok := id.Some?;
  }

  lemma KeyIsPartly(c: string)
    ensures Partly(KeyRes(c), KeyRes(c)) && Answers(c, KeyRes(c), KeyQ) && Refs(KeyRes(c)) == {}
    ensures Matches(c, KeyQ, KeyRes(c))
  {
  }

  /** RunInstances: an instance is launched fully described. */
  method RunInstance(a: Account, c: string, full: Resource) returns (id: Option<Id>)
    requires a.Valid() && Refs(full) <= a.res.Keys && full.kind == Instance
    modifies a
    ensures a.Valid() && a.refused == old(a.refused) && old(a.next) <= a.next
    ensures id.Some? ==> id.value == old(a.next) && a.res == old(a.res)[old(a.next) := full]
    ensures id.None? ==> a.res == old(a.res)
    ensures Kept(old(a.res), a.res)
    ensures Unique(c, old(a.res)) ==> Unique(c, a.res)
    ensures a.reliable ==> id.Some?
  {
    hide Unique, Matches, Refs;
    id := a.Create(full);
    if id.Some? {
      InstanceUnseen(c, old(a.res), a.res, id.value);
    }
  }

  /**
   ensureBastion. Only a running bastion is found, and nobody waits for a new one to run: a second one is
   launched exactly when there is one and none runs.
   */
  method EnsureBastion(a: Account, c: string, v: Id, subnet: Id, group: Id) returns (ok: bool)
    requires a.Valid() && {v, subnet, group} <= a.res.Keys
    modifies a
    ensures a.Valid() && a.refused == old(a.refused) && old(a.next) <= a.next
    ensures Found(c, BastionQ, old(a.res)) != {} ==> ok && a.res == old(a.res)
    ensures Found(c, BastionQ, old(a.res)) == {} ==>
              a.res == if ok then old(a.res)[old(a.next) := BastionRes(c, v, subnet, group)] else old(a.res)
    ensures Kept(old(a.res), a.res)
    ensures Unique(c, old(a.res)) ==> Unique(c, a.res)
    ensures a.reliable ==> ok
    ensures var name := Derived(c, BastionPart);
            Alone(name, BastionRole, old(a.res)) && ok ==>
              (!Alone(name, BastionRole, a.res) <==>
                 Bearers(name, BastionRole, old(a.res)) != {} && Found(c, BastionQ, old(a.res)) == {})
  {
    hide Unique, Found, Owned, Alone, Bearers, Bears;
    var id := a.Lookup(c, BastionQ);
    if id.None? {
      var full := BastionRes(c, v, subnet, group);
      BastionBears(c, v, subnet, group);
      AloneAfter(Derived(c, BastionPart), BastionRole, a.res, a.next, full);
      id := RunInstance(a, c, full);
    }
    ok := id.Some?;
  }

  lemma BastionBears(c: string, v: Id, subnet: Id, group: Id)
    ensures Bears(Derived(c, BastionPart), BastionRole, BastionRes(c, v, subnet, group))
    ensures Refs(BastionRes(c, v, subnet, group)) == {v, subnet, group}
  {
  }

  /** ensureLoadBalancer. The result of its lookup is never used, so creation is attempted every time. */
  method EnsureBalancer(a: Account, c: string, v: Id, subnet: Id, group: Id) returns (ok: bool)
    requires a.Valid() && {v, subnet, group} <= a.res.Keys
    modifies a
    ensures a.Valid() && a.refused == old(a.refused) && old(a.next) <= a.next
    ensures a.asked == old(a.asked) + 1
    ensures Found(c, BalancerQ, old(a.res)) != {} ==> a.res == old(a.res)
    ensures Found(c, BalancerQ, old(a.res)) == {} ==>
              || a.res == old(a.res)[old(a.next) := BalancerRes(c, v, subnet, group)]
              || (!ok && a.res == old(a.res))
    ensures Kept(old(a.res), a.res)
    ensures Unique(c, old(a.res)) ==> Unique(c, a.res)
    ensures a.reliable && Found(c, BalancerQ, old(a.res)) == {} ==> ok
  {
    hide Unique, Found, Refs, Partly;
    var existing := a.Lookup(c, BalancerQ);
    var full := BalancerRes(c, v, subnet, group);
    BalancerIsPartly(c, v, subnet, group);
    ok := a.CreateLoadBalancer(c, full);
    if ok && Found(c, BalancerQ, old(a.res)) == {} {
      CreationEnsures(c, BalancerQ, full, old(a.res), a.res, old(a.next), Some(old(a.next)));
    }
    var fault := a.Fault();
    ok := ok && !fault;
  }

  lemma BalancerIsPartly(c: string, v: Id, subnet: Id, group: Id)
    ensures var full := BalancerRes(c, v, subnet, group);
            && Partly(full, full) && Answers(c, full, BalancerQ) && Matches(c, BalancerQ, full)
            && Refs(full) == {v, subnet, group}
  {
  }

  // ---- Which lookups a fresh account has yet to answer -----------------------------------------

  /** A lookup on which some creation depends. */
  predicate Step(p: Query) {
    Guard(p) || p.BastionQ? || p.MasterQ?
  }

  predicate Relevant(p: Query, v: Id, machine: Text) {
    && (p.SubnetQ? || p.GatewayQ? || p.NatQ? || p.TableQ? || p.GroupQ? ==> p.v == v)
    && (p.MasterQ? ==> p.machine == machine)
  }

  /** No relevant lookup outside `done` finds anything. */
  ghost predicate Untouched(c: string, v: Id, machine: Text, res: Resources, done: set<Query>) {
    forall p :: Step(p) && Relevant(p, v, machine) && p !in done ==> Found(c, p, res) == {}
  }

  lemma UntouchedGrows(c: string, v: Id, machine: Text, res: Resources, done: set<Query>, id: Id, r: Resource,
                       q: Query)
    requires Untouched(c, v, machine, res, done) && id !in res
    requires forall p :: Step(p) && Relevant(p, v, machine) && Matches(c, p, r) ==> p == q
    ensures Untouched(c, v, machine, res[id := r], done + {q})
  {
    forall p | Step(p) && Relevant(p, v, machine) && p !in done + {q}
      ensures Found(c, p, res[id := r]) == {}
    {
      assert Found(c, p, res) == {};
      assert !Matches(c, p, r);
    }
  }

  lemma UntouchedStart(c: string, v: Id, machine: Text, base: Resources)
    requires Closed(base) && v !in base && Clean(c, machine, base)
    ensures Untouched(c, v, machine, base, {})
  {
    hide Matches;
    forall p | Step(p) && Relevant(p, v, machine)
      ensures Found(c, p, base) == {}
    {
      if InVpc(p, v) {
        NothingYet(c, base, v, p);
      }
    }
  }

  /** Nothing made lacks that tag, and the NAT gateway and the address are the ones known. */
  ghost predicate Neat(c: string, base: Resources, net: Net, res: Resources) {
    && (forall i :: i in res && i !in base ==> !Untagged(c, res[i]))
    && (forall i :: i in res && i !in base && res[i].kind == Nat ==> net.natGateway == Some(i))
    && (forall i :: i in Found(c, AddressQ, res) ==> net.address == Some(i))
  }

  /** Progress of a fresh, failure-free run: what is owned, and which lookups have been answered. */
  ghost predicate Progress(c: string, base: Resources, net: Net, v: Id, machine: Text, res: Resources,
                           done: set<Query>)
  {
    Stack(c, base, net, res) && Untouched(c, v, machine, res, done) && Neat(c, base, net, res)
  }

  /** A complete resource, or the one address or NAT gateway there is to be. */
  predicate Whole(c: string, net: Net, wider: Net, id: Id, r: Resource) {
    && !Untagged(c, r)
    && (r.kind == Nat ==> wider.natGateway == Some(id))
    && (Matches(c, AddressQ, r) ==> net.address.None? && wider.address == Some(id))
  }

  lemma NeatGrows(c: string, base: Resources, net: Net, res: Resources, wider: Net, id: Id, r: Resource)
    requires Neat(c, base, net, res) && id !in res && Extends(net, wider) && Whole(c, net, wider, id, r)
    ensures Neat(c, base, wider, res[id := r])
  {
    hide Matches, Untagged;
    var after := res[id := r];
    forall i | i in Found(c, AddressQ, after)
      ensures wider.address == Some(i)
    {
      assert i != id ==> i in Found(c, AddressQ, res);
    }
  }

  /** The resource is ours and complete, and of the lookups that matter it answers only `q`. */
  ghost predicate Fits(c: string, net: Net, wider: Net, v: Id, machine: Text, id: Id, r: Resource, q: Query) {
    && Extends(net, wider) && Mine(c, wider, id, r) && Whole(c, net, wider, id, r)
    && forall p :: Step(p) && Relevant(p, v, machine) && Matches(c, p, r) ==> p == q
  }

  lemma ProgressGrows(c: string, base: Resources, net: Net, v: Id, machine: Text, res: Resources, done: set<Query>,
                      wider: Net, id: Id, r: Resource, q: Query)
    requires Progress(c, base, net, v, machine, res, done) && id !in res
    requires Fits(c, net, wider, v, machine, id, r, q) && RefersDown(base, res, r)
    ensures Progress(c, base, wider, v, machine, res[id := r], done + {q})
  {
    hide Matches, Refs, Mine, Found;
    StackGrows(c, base, net, res, wider, id, r);
    NeatGrows(c, base, net, res, wider, id, r);
    UntouchedGrows(c, v, machine, res, done, id, r, q);
  }

  /** The state a progress lemma starts from: the VPC is there, and the id is new. */
  ghost predicate Under(c: string, base: Resources, net: Net, v: Id, machine: Text, res: Resources, done: set<Query>,
                        id: Id)
  {
    && Progress(c, base, net, v, machine, res, done) && net.vpc == Some(v)
    && v in res && v !in base && res[v].kind == Vpc && id !in res && id !in base
  }

  lemma KeyProgress(c: string, base: Resources, v: Id, machine: Text, k: Id)
    requires Closed(base) && v !in base && k !in base && Clean(c, machine, base)
    ensures Progress(c, base, Net(None, None, None), v, machine, base[k := KeyRes(c)], {KeyQ})
  {
    UntouchedStart(c, v, machine, base);
    assert Progress(c, base, Net(None, None, None), v, machine, base, {});
    ProgressGrows(c, base, Net(None, None, None), v, machine, base, {}, Net(None, None, None), k, KeyRes(c), KeyQ);
  }

  lemma VpcProgress(c: string, base: Resources, net: Net, v: Id, machine: Text, res: Resources, done: set<Query>)
    requires Progress(c, base, net, v, machine, res, done) && v !in res && net == Net(None, None, None)
    ensures Progress(c, base, Net(Some(v), None, None), v, machine, res[v := VpcRes(c)], done + {VpcQ})
  {
    ProgressGrows(c, base, net, v, machine, res, done, Net(Some(v), None, None), v, VpcRes(c), VpcQ);
  }

  lemma SubnetFits(c: string, net: Net, v: Id, machine: Text, id: Id, side: Side)
    requires net.vpc == Some(v)
    ensures Fits(c, net, net, v, machine, id, SubnetRes(c, v, side), SubnetQ(v, side))
    ensures Refs(SubnetRes(c, v, side)) == {v}
  {
  }

  lemma SubnetProgress(c: string, base: Resources, net: Net, v: Id, machine: Text, res: Resources, done: set<Query>,
                       id: Id, side: Side)
    requires Under(c, base, net, v, machine, res, done, id)
    ensures Progress(c, base, net, v, machine, res[id := SubnetRes(c, v, side)], done + {SubnetQ(v, side)})
  {
    hide Fits, Refs, Owned, Progress;
    SubnetFits(c, net, v, machine, id, side);
    ProgressGrows(c, base, net, v, machine, res, done, net, id, SubnetRes(c, v, side), SubnetQ(v, side));
  }

  lemma GatewayFits(c: string, net: Net, v: Id, machine: Text, id: Id)
    requires net.vpc == Some(v)
    ensures Fits(c, net, net, v, machine, id, GatewayRes(c, v), GatewayQ(v)) && Refs(GatewayRes(c, v)) == {v}
  {
  }

  lemma GatewayProgress(c: string, base: Resources, net: Net, v: Id, machine: Text, res: Resources, done: set<Query>,
                        id: Id)
    requires Under(c, base, net, v, machine, res, done, id)
    ensures Progress(c, base, net, v, machine, res[id := GatewayRes(c, v)], done + {GatewayQ(v)})
  {
    hide Fits, Refs, Owned, Progress;
    GatewayFits(c, net, v, machine, id);
    ProgressGrows(c, base, net, v, machine, res, done, net, id, GatewayRes(c, v), GatewayQ(v));
  }

  lemma AddressFits(c: string, v: Id, machine: Text, id: Id)
    ensures Fits(c, Net(Some(v), None, None), Net(Some(v), Some(id), None), v, machine, id, AddressRes(c), NatQ(v))
    ensures Refs(AddressRes(c)) == {}
  {
  }

  lemma AddressProgress(c: string, base: Resources, net: Net, v: Id, machine: Text, res: Resources, done: set<Query>,
                        id: Id)
    requires Progress(c, base, net, v, machine, res, done) && net == Net(Some(v), None, None)
    requires id !in res && id !in base
    ensures Progress(c, base, Net(Some(v), Some(id), None), v, machine, res[id := AddressRes(c)], done + {NatQ(v)})
  {
    hide Fits, Refs, Owned, Progress;
    AddressFits(c, v, machine, id);
    ProgressGrows(c, base, net, v, machine, res, done, Net(Some(v), Some(id), None), id, AddressRes(c), NatQ(v));
  }

  lemma NatFits(c: string, v: Id, machine: Text, id: Id, subnet: Id, address: Id)
    ensures Fits(c, Net(Some(v), Some(address), None), Net(Some(v), Some(address), Some(id)), v, machine, id,
                 NatRes(c, v, subnet, address), NatQ(v))
    ensures Refs(NatRes(c, v, subnet, address)) == {v, subnet, address}
  {
  }

  lemma NatProgress(c: string, base: Resources, v: Id, machine: Text, res: Resources, done: set<Query>,
                    id: Id, subnet: Id, address: Id)
    requires Under(c, base, Net(Some(v), Some(address), None), v, machine, res, done, id) && NatQ(v) in done
    requires subnet in res && subnet !in base && res[subnet].kind == Subnet
    requires address in res && address !in base && res[address].kind == Address
    ensures Progress(c, base, Net(Some(v), Some(address), Some(id)), v, machine,
                     res[id := NatRes(c, v, subnet, address)], done)
  {
    hide Fits, Refs, Owned, Progress;
    NatFits(c, v, machine, id, subnet, address);
    ProgressGrows(c, base, Net(Some(v), Some(address), None), v, machine, res, done,
                  Net(Some(v), Some(address), Some(id)), id, NatRes(c, v, subnet, address), NatQ(v));
    assert done + {NatQ(v)} == done;
  }

  lemma TableFits(c: string, net: Net, v: Id, machine: Text, id: Id, side: Side, target: Id, subnet: Id)
    requires net.vpc == Some(v)
    ensures Fits(c, net, net, v, machine, id, TableRes(c, v, side, target, subnet), TableQ(v, side))
    ensures Refs(TableRes(c, v, side, target, subnet)) == {v, target, subnet}
  {
  }

  lemma TableProgress(c: string, base: Resources, net: Net, v: Id, machine: Text, res: Resources, done: set<Query>,
                      id: Id, side: Side, target: Id, subnet: Id)
    requires Under(c, base, net, v, machine, res, done, id)
    requires target in res && target !in base && (res[target].kind == Gateway || res[target].kind == Nat)
    requires subnet in res && subnet !in base && res[subnet].kind == Subnet
    ensures Progress(c, base, net, v, machine, res[id := TableRes(c, v, side, target, subnet)],
                     done + {TableQ(v, side)})
  {
    hide Fits, Refs, Owned, Progress;
    TableFits(c, net, v, machine, id, side, target, subnet);
    ProgressGrows(c, base, net, v, machine, res, done, net, id, TableRes(c, v, side, target, subnet), TableQ(v, side));
  }

  lemma GroupFits(c: string, net: Net, v: Id, machine: Text, id: Id, role: Role)
    requires net.vpc == Some(v)
    ensures Fits(c, net, net, v, machine, id, GroupRes(c, v, role, {}), GroupQ(v, role))
    ensures Refs(GroupRes(c, v, role, {})) == {v} && GroupRes(c, v, role, {}).kind == Group
  {
  }

  lemma GroupProgress(c: string, base: Resources, net: Net, v: Id, machine: Text, res: Resources, done: set<Query>,
                      id: Id, role: Role)
    requires Under(c, base, net, v, machine, res, done, id)
    ensures Progress(c, base, net, v, machine, res[id := GroupRes(c, v, role, {})], done + {GroupQ(v, role)})
  {
    hide Fits, Refs, Owned, GroupRes, Progress;
    GroupFits(c, net, v, machine, id, role);
    ProgressGrows(c, base, net, v, machine, res, done, net, id, GroupRes(c, v, role, {}), GroupQ(v, role));
  }

  /** Rules that name owned groups keep the stack, and no lookup sees rules. */
  lemma IngressProgress(c: string, base: Resources, net: Net, v: Id, machine: Text, res: Resources, done: set<Query>,
                        id: Id, rules: set<Permission>)
    requires Progress(c, base, net, v, machine, res, done)
    requires id in res && id !in base && res[id].kind == Group
    requires forall t :: t in GroupsOf(rules) ==> t in res && t !in base && res[t].kind == Group
    ensures Progress(c, base, net, v, machine, WithIngress(res, id, rules), done)
  {
    hide Matches, Refs, GroupsOf, Stack;
    IngressStack(c, base, net, res, id, rules);
    IngressFinds(c, res, id, rules);
  }

  /** The whole of setupSecurityGroups, from three missing groups. */
  lemma AuthorizedProgress(c: string, base: Resources, net: Net, v: Id, machine: Text, res: Resources,
                           done: set<Query>, m: Id, groups: map<Role, Id>)
    requires Under(c, base, net, v, machine, res, done, m)
    requires m + 1 !in res && m + 1 !in base && m + 2 !in res && m + 2 !in base
    requires AllRoles(groups) && Known(groups, BlankGroups(c, v, res, m))
    requires groups[ControlPlane] == m && groups[NodeRole] == m + 1 && groups[BastionRole] == m + 2
    ensures Progress(c, base, net, v, machine, Authorized(BlankGroups(c, v, res, m), groups),
                     done + {GroupQ(v, ControlPlane), GroupQ(v, NodeRole), GroupQ(v, BastionRole)})
  {
    hide GroupRes, IngressRules, GroupsOf, Progress;
    BlankProgress(c, base, net, v, machine, res, done, m);
    var all := done + {GroupQ(v, ControlPlane), GroupQ(v, NodeRole), GroupQ(v, BastionRole)};
    var blank := BlankGroups(c, v, res, m);
    forall role
      ensures forall t :: t in GroupsOf(IngressRules(role, groups)) ==> t == m || t == m + 1 || t == m + 2
    {
      RulesNameThree(role, groups);
    }
    BlankKinds(c, v, res, m);
    var one := WithIngress(blank, m + 2, IngressRules(BastionRole, groups));
    IngressProgress(c, base, net, v, machine, blank, all, m + 2, IngressRules(BastionRole, groups));
    var two := WithIngress(one, m, IngressRules(ControlPlane, groups));
    IngressProgress(c, base, net, v, machine, one, all, m, IngressRules(ControlPlane, groups));
    IngressProgress(c, base, net, v, machine, two, all, m + 1, IngressRules(NodeRole, groups));
  }

  lemma RulesNameThree(role: Role, groups: map<Role, Id>)
    requires AllRoles(groups)
    ensures forall t :: t in GroupsOf(IngressRules(role, groups)) ==>
                        t == groups[ControlPlane] || t == groups[NodeRole] || t == groups[BastionRole]
  {
  }

  lemma BlankKinds(c: string, v: Id, res: Resources, m: Id)
    ensures var blank := BlankGroups(c, v, res, m);
            && m in blank && blank[m].kind == Group && m + 1 in blank && blank[m + 1].kind == Group
            && m + 2 in blank && blank[m + 2].kind == Group
  {
  }

  lemma BlankProgress(c: string, base: Resources, net: Net, v: Id, machine: Text, res: Resources,
                      done: set<Query>, m: Id)
    requires Under(c, base, net, v, machine, res, done, m)
    requires m + 1 !in res && m + 1 !in base && m + 2 !in res && m + 2 !in base
    ensures Progress(c, base, net, v, machine, BlankGroups(c, v, res, m),
                     done + {GroupQ(v, ControlPlane), GroupQ(v, NodeRole), GroupQ(v, BastionRole)})
  {
    hide GroupRes, Progress;
    var one := res[m := GroupRes(c, v, ControlPlane, {})];
    var two := one[m + 1 := GroupRes(c, v, NodeRole, {})];
    GroupProgress(c, base, net, v, machine, res, done, m, ControlPlane);
    GroupProgress(c, base, net, v, machine, one, done + {GroupQ(v, ControlPlane)}, m + 1, NodeRole);
    GroupProgress(c, base, net, v, machine, two, done + {GroupQ(v, ControlPlane)} + {GroupQ(v, NodeRole)}, m + 2,
                  BastionRole);
    assert done + {GroupQ(v, ControlPlane)} + {GroupQ(v, NodeRole)} + {GroupQ(v, BastionRole)}
        == done + {GroupQ(v, ControlPlane), GroupQ(v, NodeRole), GroupQ(v, BastionRole)};
  }

  /** A subnet and a group of ours, for an instance or a balancer to refer to. */
  predicate Sited(base: Resources, res: Resources, subnet: Id, group: Id) {
    && subnet in res && subnet !in base && res[subnet].kind == Subnet
    && group in res && group !in base && res[group].kind == Group
  }

  lemma BastionFits(c: string, net: Net, v: Id, machine: Text, id: Id, subnet: Id, group: Id)
    ensures Fits(c, net, net, v, machine, id, BastionRes(c, v, subnet, group), BastionQ)
    ensures Refs(BastionRes(c, v, subnet, group)) == {v, subnet, group}
  {
  }

  lemma BastionProgress(c: string, base: Resources, net: Net, v: Id, machine: Text, res: Resources, done: set<Query>,
                        id: Id, subnet: Id, group: Id)
    requires Under(c, base, net, v, machine, res, done, id) && Sited(base, res, subnet, group)
    ensures Progress(c, base, net, v, machine, res[id := BastionRes(c, v, subnet, group)], done + {BastionQ})
  {
    hide Fits, Refs, Owned, Progress;
    BastionFits(c, net, v, machine, id, subnet, group);
    ProgressGrows(c, base, net, v, machine, res, done, net, id, BastionRes(c, v, subnet, group), BastionQ);
  }

  lemma BalancerFits(c: string, net: Net, v: Id, machine: Text, id: Id, subnet: Id, group: Id)
    ensures Fits(c, net, net, v, machine, id, BalancerRes(c, v, subnet, group), BalancerQ)
    ensures Refs(BalancerRes(c, v, subnet, group)) == {v, subnet, group}
  {
  }

  lemma BalancerProgress(c: string, base: Resources, net: Net, v: Id, machine: Text, res: Resources, done: set<Query>,
                        id: Id, subnet: Id, group: Id)
    requires Under(c, base, net, v, machine, res, done, id) && Sited(base, res, subnet, group)
    ensures Progress(c, base, net, v, machine, res[id := BalancerRes(c, v, subnet, group)], done + {BalancerQ})
  {
    hide Fits, Refs, Owned, Progress;
    BalancerFits(c, net, v, machine, id, subnet, group);
    ProgressGrows(c, base, net, v, machine, res, done, net, id, BalancerRes(c, v, subnet, group), BalancerQ);
  }

  lemma MasterFits(c: string, net: Net, v: Id, machine: Text, id: Id, subnet: Id, group: Id)
    ensures Fits(c, net, net, v, machine, id, MasterRes(c, v, subnet, group, machine), MasterQ(machine))
    ensures Refs(MasterRes(c, v, subnet, group, machine)) == {v, subnet, group}
  {
  }

  lemma MasterProgress(c: string, base: Resources, net: Net, v: Id, machine: Text, res: Resources, done: set<Query>,
                        id: Id, subnet: Id, group: Id)
    requires Under(c, base, net, v, machine, res, done, id) && Sited(base, res, subnet, group)
    ensures Progress(c, base, net, v, machine, res[id := MasterRes(c, v, subnet, group, machine)],
                     done + {MasterQ(machine)})
  {
    hide Fits, Refs, Owned, Progress;
    MasterFits(c, net, v, machine, id, subnet, group);
    ProgressGrows(c, base, net, v, machine, res, done, net, id, MasterRes(c, v, subnet, group, machine),
                  MasterQ(machine));
  }
}
