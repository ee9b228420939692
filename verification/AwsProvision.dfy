/**
 What every creation on AWS produces, and provisioning of the network: VPC, subnets, internet gateway, NAT
 gateway and route tables (cloud/providers/aws/apply.go and the setup methods of
 cloud/providers/aws/cloud.go).

 Every step looks a resource up and creates it when the lookup finds nothing. Lookups are truthful;
 creations, attachments, routes, tags and waits may fail anywhere.
 */
module AwsProvision {
  import opened Wrappers
  import opened AwsAccount

  // ---- What each creation produces -------------------------------------------------------------

  function Owned(c: string, part: Part, role: Role): Tags {
    map[NameKey := Derived(c, part), ClusterKey(c) := Plain("owned"), ManagedKey := Plain("true"),
        RoleKey := RoleText(role)]
  }

  function Bare(kind: Kind, vpc: Option<Id>, links: set<Id>, tags: Tags): Resource {
    Resource(kind, None, vpc, links, tags, {}, {}, true)
  }

  function VpcRes(c: string): Resource {
    Bare(Vpc, None, {}, Owned(c, VpcPart, CommonRole) - {RoleKey})
  }

  function SubnetRes(c: string, v: Id, side: Side): Resource {
    Bare(Subnet, Some(v), {}, Owned(c, SubnetPart(side), if side == Public then BastionRole else CommonRole))
  }

  function GatewayRes(c: string, v: Id): Resource {
    Bare(Gateway, Some(v), {}, Owned(c, GatewayPart, CommonRole))
  }

  function AddressRes(c: string): Resource {
    Bare(Address, None, {}, Owned(c, AddressPart, ApiServerRole))
  }

  function NatRes(c: string, v: Id, subnet: Id, address: Id): Resource {
    Bare(Nat, Some(v), {subnet, address}, Owned(c, NatPart, CommonRole))
  }

  function TableRes(c: string, v: Id, side: Side, target: Id, subnet: Id): Resource {
    Bare(Table, Some(v), {target, subnet},
         Owned(c, TablePart(side), if side == Public then BastionRole else CommonRole))
  }

  /** A new group carries AWS's default egress permission. */
  function GroupRes(c: string, v: Id, role: Role, ingress: set<Permission>): Resource {
    Resource(Group, Some(Derived(c, GroupPart(role))), Some(v), {}, Owned(c, GroupPart(role), role), ingress,
             {Permission(-1, -1, ["0.0.0.0/0"], [])}, true)
  }

  /** A bastion as it is launched: nobody waits for it to run. */
  function BastionRes(c: string, v: Id, subnet: Id, group: Id): Resource {
    Bare(Instance, Some(v), {subnet, group}, Owned(c, BastionPart, BastionRole)).(live := false)
  }

  function BalancerRes(c: string, v: Id, subnet: Id, group: Id): Resource {
    Resource(Balancer, Some(Derived(c, BalancerPart)), Some(v), {subnet, group},
             Owned(c, BalancerPart, ApiServerRole) - {NameKey}, {}, {}, true)
  }

  function KeyRes(c: string): Resource {
    Resource(KeyPair, Some(Derived(c, KeyPart)), None, {}, map[], {}, {}, true)
  }

  /** A master that runs. */
  function MasterRes(c: string, v: Id, subnet: Id, group: Id, machine: Text): Resource {
    Bare(Instance, Some(v), {subnet, group},
         Owned(c, MachinePart, ControlPlane)[NameKey := machine])
  }

  // ---- What a creation may leave behind --------------------------------------------------------

  /** `r` is `full`, perhaps unlinked, with some tags missing or, if it is a gateway, unattached. */
  ghost predicate Partly(r: Resource, full: Resource) {
    && r.kind == full.kind && r.name == full.name && r.ingress == full.ingress && r.egress == full.egress
    && (r.vpc == full.vpc || (r.vpc == None && r.kind == Gateway)) && r.links <= full.links
    && (r.live ==> full.live)
    && r.tags.Keys <= full.tags.Keys && forall k :: k in r.tags ==> r.tags[k] == full.tags[k]
  }

  /** At most `id` was added, and what was added is part of `full`. */
  ghost predicate Added(before: Resources, after: Resources, id: Id, full: Resource) {
    after == before || (id in after && after == before[id := after[id]] && Partly(after[id], full))
  }

  /** A lookup that decides whether something is created, other than an instance. */
  predicate Guard(q: Query) {
    q.VpcQ? || q.SubnetQ? || q.GatewayQ? || q.NatQ? || q.TableQ? || q.GroupQ? || q.KeyQ? || q.BalancerQ?
  }

  /** `full` answers no guarding lookup but `q`. */
  ghost predicate Answers(c: string, full: Resource, q: Query) {
    forall p :: Guard(p) && Matches(c, p, full) ==> p == q
  }

  lemma PartMatchesLess(c: string, part: Resource, full: Resource, q: Query)
    requires Partly(part, full) && Guard(q) && Matches(c, q, part)
    ensures Matches(c, q, full)
  {
  }

  lemma AddedFinds(c: string, before: Resources, after: Resources, id: Id, full: Resource, q: Query, p: Query)
    requires id !in before && id in after && after == before[id := after[id]] && Partly(after[id], full)
    requires Answers(c, full, q) && Guard(p)
    ensures Found(c, p, after) <= Found(c, p, before) + {id}
    ensures id in Found(c, p, after) ==> p == q
  {
    if Matches(c, p, after[id]) {
      PartMatchesLess(c, after[id], full, p);
    }
  }

  lemma NothingInside(c: string, before: Resources, after: Resources, id: Id, full: Resource, p: Query)
    requires Closed(before) && id !in before && Refs(full) <= before.Keys
    requires id in after && after == before[id := after[id]] && Partly(after[id], full)
    requires InVpc(p, id)
    ensures Found(c, p, after) == {}
  {
    assert id !in Refs(full);
    forall i | i in before
      ensures before[i].vpc != Some(id)
    {
      assert Refs(before[i]) <= before.Keys;
    }
  }

  lemma AddedKeepsUnique(c: string, before: Resources, after: Resources, id: Id, full: Resource, q: Query)
    requires Unique(c, before) && Closed(before) && id !in before
    requires Added(before, after, id, full) && Refs(full) <= before.Keys
    requires Answers(c, full, q) && Found(c, q, before) == {}
    ensures Unique(c, after)
  {
    hide Matches, Found, Refs, Closed, Partly;
    if after != before {
      AddedFinds(c, before, after, id, full, q, VpcQ);
      AddedFinds(c, before, after, id, full, q, KeyQ);
      AddedFinds(c, before, after, id, full, q, BalancerQ);
      forall p, v | v in Found(c, VpcQ, after) && InVpc(p, v)
        ensures AtMostOne(c, p, after)
      {
        if v == id {
          NothingInside(c, before, after, id, full, p);
        } else {
          AddedFinds(c, before, after, id, full, q, p);
          assert v in Found(c, VpcQ, before) && AtMostOne(c, p, before);
        }
      }
    }
  }

  /** A change that no guarding lookup sees. */
  lemma UnseenKeepsUnique(c: string, before: Resources, after: Resources)
    requires forall p :: Guard(p) ==> Found(c, p, after) == Found(c, p, before)
    ensures Unique(c, before) ==> Unique(c, after)
  {
    hide Matches, Found;
    if Unique(c, before) {
      forall q, v | v in Found(c, VpcQ, after) && InVpc(q, v)
        ensures AtMostOne(c, q, after)
      {
        assert AtMostOne(c, q, before);
      }
    }
  }

  /** Instances come, go and change state unseen. */
  lemma InstanceUnseen(c: string, before: Resources, after: Resources, id: Id)
    requires id in after && after == before[id := after[id]] && after[id].kind == Instance
    requires id in before ==> before[id].kind == Instance
    ensures Unique(c, before) ==> Unique(c, after)
  {
    forall p | Guard(p)
      ensures Found(c, p, after) == Found(c, p, before)
    {
    }
    UnseenKeepsUnique(c, before, after);
  }

  /** What every look-up-or-create step promises about one resource. */
  ghost predicate Ensured(c: string, q: Query, full: Resource, before: Resources, after: Resources,
                          made: Id, id: Option<Id>)
  {
    if Found(c, q, before) != {} then after == before && id.Some? && id.value in Found(c, q, before)
    else Added(before, after, made, full) && (id.Some? ==> id.value == made && after == before[made := full])
  }

  // ---- Single resources ------------------------------------------------------------------------

  /** Nothing that existed was changed. */
  ghost predicate Kept(before: Resources, after: Resources) {
    forall i :: i in before ==> i in after && after[i] == before[i]
  }

  lemma TaggedIsPartly(before: Resources, id: Id, blank: Resource, full: Resource, done: set<TagKey>)
    requires id !in before && done <= full.tags.Keys
    requires Partly(blank, full) && blank.tags == map[]
    ensures var after := Tagged(before[id := blank], id, Restrict(full.tags, done));
            && after == before[id := blank.(tags := Restrict(full.tags, done))]
            && Added(before, after, id, full)
            && (done == full.tags.Keys ==> after == before[id := blank.(tags := full.tags)])
  {
    assert map[] + Restrict(full.tags, done) == Restrict(full.tags, done);
    if done == full.tags.Keys {
      assert Restrict(full.tags, done) == full.tags;
    }
  }

  /**
   Create, wait, then tag: setupVpc, setupPublicSubnet, setupPrivateSubnet, allocateElasticIP,
   createSecurityGroup.
   */
  method CreateTagged(a: Account, full: Resource) returns (id: Option<Id>)
    requires a.Valid()
    requires Refs(full) <= a.res.Keys
    modifies a
    ensures a.Valid() && a.refused == old(a.refused) && old(a.next) <= a.next
    ensures Added(old(a.res), a.res, old(a.next), full)
    ensures id.Some? ==>
              id.value == old(a.next) && a.res == old(a.res)[old(a.next) := full] && a.next == old(a.next) + 1
    ensures a.reliable ==> id.Some?
  {
    var blank := full.(tags := map[]);
    assert Refs(blank) == Refs(full);
    id := a.Create(blank);
    if id.None? {
      return;
    }
    var fault := a.Fault();
    if fault {
      return None;
    }
    var ok, done := a.AddTags(id.value, full.tags);
    TaggedIsPartly(old(a.res), id.value, blank, full, done);
    if !ok {
      return None;
    }
  }

  lemma CreationEnsures(c: string, q: Query, full: Resource, before: Resources, after: Resources, made: Id,
                        id: Option<Id>)
    requires Closed(before) && made !in before && Refs(full) <= before.Keys
    requires Answers(c, full, q) && Matches(c, q, full) && Found(c, q, before) == {}
    requires Added(before, after, made, full)
    requires id.Some? ==> id.value == made && after == before[made := full]
    ensures Ensured(c, q, full, before, after, made, id)
    ensures id.Some? ==> id.value in Found(c, q, after)
    ensures Kept(before, after)
    ensures Unique(c, before) ==> Unique(c, after)
  {
    if Unique(c, before) {
      AddedKeepsUnique(c, before, after, made, full, q);
    }
  }

  lemma GatewayAnswers(c: string, v: Id)
    ensures Answers(c, GatewayRes(c, v), GatewayQ(v)) && Matches(c, GatewayQ(v), GatewayRes(c, v))
    ensures Refs(GatewayRes(c, v)) == {v}
  {
  }

  lemma NatAnswers(c: string, v: Id, subnet: Id, address: Id)
    ensures Answers(c, NatRes(c, v, subnet, address), NatQ(v)) && Matches(c, NatQ(v), NatRes(c, v, subnet, address))
    ensures Answers(c, AddressRes(c), NatQ(v)) && Refs(AddressRes(c)) == {}
    ensures Refs(NatRes(c, v, subnet, address)) == {v, subnet, address}
  {
  }

  lemma TableAnswers(c: string, v: Id, side: Side, target: Id, subnet: Id)
    ensures Answers(c, TableRes(c, v, side, target, subnet), TableQ(v, side))
    ensures Matches(c, TableQ(v, side), TableRes(c, v, side, target, subnet))
    ensures Refs(TableRes(c, v, side, target, subnet)) == {v, target, subnet}
  {
  }

  /** The look-up-or-create step shared by ensureVPC and ensureSubnet. */
  method EnsureTagged(a: Account, c: string, q: Query, full: Resource) returns (id: Option<Id>)
    requires a.Valid() && Refs(full) <= a.res.Keys
    requires Answers(c, full, q) && Matches(c, q, full)
    modifies a
    ensures a.Valid() && a.refused == old(a.refused) && old(a.next) <= a.next
    ensures Ensured(c, q, full, old(a.res), a.res, old(a.next), id)
    ensures id.Some? ==> id.value in Found(c, q, a.res)
    ensures Kept(old(a.res), a.res)
    ensures Unique(c, old(a.res)) ==> Unique(c, a.res)
    ensures a.reliable ==> id.Some?
  {
    id := a.Lookup(c, q);
    if id.None? {
      id := CreateTagged(a, full);
      CreationEnsures(c, q, full, old(a.res), a.res, old(a.next), id);
    }
  }

  method EnsureVpc(a: Account, c: string) returns (id: Option<Id>)
    requires a.Valid()
    modifies a
    ensures a.Valid() && a.refused == old(a.refused) && old(a.next) <= a.next
    ensures Ensured(c, VpcQ, VpcRes(c), old(a.res), a.res, old(a.next), id)
    ensures id.Some? ==> id.value in Found(c, VpcQ, a.res)
    ensures Kept(old(a.res), a.res)
    ensures Unique(c, old(a.res)) ==> Unique(c, a.res)
    ensures a.reliable ==> id.Some?
  {
    id := EnsureTagged(a, c, VpcQ, VpcRes(c));
  }

  /** One half of ensureSubnet. */
  method EnsureSubnet(a: Account, c: string, v: Id, side: Side) returns (id: Option<Id>)
    requires a.Valid() && v in a.res
    modifies a
    ensures a.Valid() && a.refused == old(a.refused) && old(a.next) <= a.next
    ensures Ensured(c, SubnetQ(v, side), SubnetRes(c, v, side), old(a.res), a.res, old(a.next), id)
    ensures id.Some? ==> id.value in Found(c, SubnetQ(v, side), a.res)
    ensures Kept(old(a.res), a.res)
    ensures Unique(c, old(a.res)) ==> Unique(c, a.res)
    ensures a.reliable ==> id.Some?
  {
    id := EnsureTagged(a, c, SubnetQ(v, side), SubnetRes(c, v, side));
  }

  /** ensureInternetGateway: the gateway is created unattached, attached, then tagged. */
  method EnsureGateway(a: Account, c: string, v: Id) returns (id: Option<Id>)
    requires a.Valid() && v in a.res
    modifies a
    ensures a.Valid() && a.refused == old(a.refused) && old(a.next) <= a.next
    ensures Ensured(c, GatewayQ(v), GatewayRes(c, v), old(a.res), a.res, old(a.next), id)
    ensures id.Some? ==> id.value in Found(c, GatewayQ(v), a.res)
    ensures Kept(old(a.res), a.res)
    ensures Unique(c, old(a.res)) ==> Unique(c, a.res)
    ensures a.reliable ==> id.Some?
  {
    id := a.Lookup(c, GatewayQ(v));
    if id.None? {
      id := SetupGateway(a, c, v);
      GatewayAnswers(c, v);
      CreationEnsures(c, GatewayQ(v), GatewayRes(c, v), old(a.res), a.res, old(a.next), id);
    }
  }

  method SetupGateway(a: Account, c: string, v: Id) returns (id: Option<Id>)
    requires a.Valid() && v in a.res
    modifies a
    ensures a.Valid() && a.refused == old(a.refused) && old(a.next) <= a.next
    ensures Added(old(a.res), a.res, old(a.next), GatewayRes(c, v))
    ensures id.Some? ==> id.value == old(a.next) && a.res == old(a.res)[old(a.next) := GatewayRes(c, v)]
    ensures a.reliable ==> id.Some?
  {
    var full := GatewayRes(c, v);
    var loose := full.(vpc := None, tags := map[]);
    assert Refs(loose) == {};
    id := a.Create(loose);
    if id.None? {
      return;
    }
    var blank := full.(tags := map[]);
    assert Refs(blank) == {v};
    var ok := a.Modify(id.value, blank);
    if !ok {
      return None;
    }
    assert a.res == old(a.res)[id.value := blank];
    ghost var done;
    ok, done := a.AddTags(id.value, full.tags);
    TaggedIsPartly(old(a.res), id.value, blank, full, done);
    if !ok {
      return None;
    }
  }

  /** What becomes of a NAT gateway that is asked for; one whose wait fails may be `broken`. */
  datatype NatFate = Comes | CreateFails | WaitFails(broken: bool)

  /** `Crashed` is the read of a gateway that a failed creation did not return. */
  datatype NatOutcome = Made(id: Id) | Failed | Crashed

  /** ensureNatGateway; `mid` is as for setupNatGateway. */
  method EnsureNat(a: Account, c: string, v: Id, subnet: Id, fate: NatFate)
    returns (outcome: NatOutcome, ghost mid: Resources)
    requires a.Valid() && v in a.res && subnet in a.res
    modifies a
    ensures a.Valid() && a.refused == old(a.refused) && old(a.next) <= a.next
    ensures Found(c, NatQ(v), old(a.res)) != {} ==> a.res == old(a.res) && outcome.Made?
    ensures outcome.Made? ==> outcome.id in Found(c, NatQ(v), a.res)
    ensures outcome.Made? && Found(c, NatQ(v), old(a.res)) == {} ==>
              && outcome.id == old(a.next) + 1
              && a.res == old(a.res)[old(a.next) := AddressRes(c)][outcome.id := NatRes(c, v, subnet, old(a.next))]
    ensures outcome.Crashed? ==> a.res == old(a.res)[old(a.next) := AddressRes(c)]
    ensures Added(old(a.res), mid, old(a.next), AddressRes(c))
    ensures Added(mid, a.res, old(a.next) + 1, NatRes(c, v, subnet, old(a.next)))
    ensures a.res != mid ==> mid == old(a.res)[old(a.next) := AddressRes(c)]
    ensures Kept(old(a.res), a.res) && a.res.Keys <= old(a.res).Keys + {old(a.next), old(a.next) + 1}
    ensures Unique(c, old(a.res)) ==> Unique(c, a.res)
    ensures a.reliable && fate.Comes? ==> outcome.Made?
    ensures a.reliable && fate.CreateFails? && Found(c, NatQ(v), old(a.res)) == {} ==> outcome.Crashed?
  {
    hide Owned, Matches, Refs;
    var found := a.Lookup(c, NatQ(v));
    if found.Some? {
      return Made(found.value), a.res;
    }
    outcome, mid := SetupNatGateway(a, c, v, subnet, fate);
    NatEnsures(c, v, subnet, old(a.res), mid, a.res, old(a.next), if outcome.Made? then Some(outcome.id) else None);
  }

  /** setupNatGateway; `mid` is the account once the address has been allocated, or failed to be. */
  method SetupNatGateway(a: Account, c: string, v: Id, subnet: Id, fate: NatFate)
    returns (outcome: NatOutcome, ghost mid: Resources)
    requires a.Valid() && v in a.res && subnet in a.res
    modifies a
    ensures a.Valid() && a.refused == old(a.refused) && old(a.next) <= a.next
    ensures Added(old(a.res), mid, old(a.next), AddressRes(c))
    ensures !outcome.Failed? ==> mid == old(a.res)[old(a.next) := AddressRes(c)]
    ensures Added(mid, a.res, old(a.next) + 1, NatRes(c, v, subnet, old(a.next)))
    ensures a.res != mid ==> mid == old(a.res)[old(a.next) := AddressRes(c)]
    ensures outcome.Made? ==>
              outcome.id == old(a.next) + 1 && a.res == mid[outcome.id := NatRes(c, v, subnet, old(a.next))]
    ensures outcome.Crashed? ==> a.res == mid
    ensures a.reliable ==>
              (outcome.Made? <==> fate.Comes?) && (outcome.Crashed? <==> fate.CreateFails?)
  {
    hide Owned, Matches, Refs, Partly, AddressRes, NatRes;
    NatAnswers(c, v, subnet, a.next);
    var address := CreateTagged(a, AddressRes(c));
    mid := a.res;
    if address.None? {
      return Failed, mid;
    }
    outcome := SetupNat(a, c, v, subnet, address.value, fate);
  }

  lemma NatEnsures(c: string, v: Id, subnet: Id, before: Resources, mid: Resources, after: Resources,
                   made: Id, id: Option<Id>)
    requires Closed(before) && forall i :: i in before ==> i < made
    requires {v, subnet} <= before.Keys && Found(c, NatQ(v), before) == {}
    requires Added(before, mid, made, AddressRes(c))
    requires Added(mid, after, made + 1, NatRes(c, v, subnet, made))
    requires after != mid ==> mid == before[made := AddressRes(c)]
    requires id.Some? ==> id.value == made + 1 && after == mid[made + 1 := NatRes(c, v, subnet, made)]
    ensures id.Some? ==> id.value in Found(c, NatQ(v), after)
    ensures Kept(before, after) && after.Keys <= before.Keys + {made, made + 1}
    ensures Unique(c, before) ==> Unique(c, after)
  {
    hide Owned, Matches, Refs;
    NatAnswers(c, v, subnet, made);
    AddressKeeps(c, v, before, mid, made);
    if after != mid {
      UpdateKeepsClosed(before, made, AddressRes(c));
      CreationEnsures(c, NatQ(v), NatRes(c, v, subnet, made), mid, after, made + 1, id);
    }
  }

  lemma AddressKeeps(c: string, v: Id, before: Resources, after: Resources, made: Id)
    requires Closed(before) && made !in before
    requires Added(before, after, made, AddressRes(c)) && Found(c, NatQ(v), before) == {}
    ensures Found(c, NatQ(v), after) == {} && Kept(before, after)
    ensures Unique(c, before) ==> Unique(c, after)
  {
    NatAnswers(c, v, 0, 0);
    if Unique(c, before) {
      AddedKeepsUnique(c, before, after, made, AddressRes(c), NatQ(v));
    }
  }

  /**
   The second half of setupNatGateway. The code reads the new gateway before it looks at the error of
   the creation, so it crashes exactly when there is no new gateway.
   */
  method SetupNat(a: Account, c: string, v: Id, subnet: Id, address: Id, fate: NatFate) returns (outcome: NatOutcome)
    requires a.Valid() && v in a.res && subnet in a.res && address in a.res
    modifies a
    ensures a.Valid() && a.refused == old(a.refused) && old(a.next) <= a.next
    ensures Added(old(a.res), a.res, old(a.next), NatRes(c, v, subnet, address))
    ensures outcome.Crashed? <==> a.res == old(a.res)
    ensures outcome.Made? ==>
              outcome.id == old(a.next) && a.res == old(a.res)[old(a.next) := NatRes(c, v, subnet, address)]
    ensures a.reliable ==>
              (outcome.Made? <==> fate.Comes?) && (outcome.Crashed? <==> fate.CreateFails?)
  {
    hide Owned, Matches, Refs;
    NatAnswers(c, v, subnet, address);
    var full := NatRes(c, v, subnet, address);
    if fate.CreateFails? {
      return Crashed;
    }
    var blank := full.(tags := map[]);
    NatBlank(c, v, subnet, address);
    var id := a.Create(blank);
    if id.None? {
      return Crashed;
    }
    var fault := a.Fault();
    if fate.WaitFails? || fault {
      if fate.WaitFails? && fate.broken {
        Fail(a, id.value, old(a.res), full);
      }
      assert id.value in a.res && id.value !in old(a.res);
      return Failed;
    }
    var ok, done := a.AddTags(id.value, full.tags);
    TaggedIsPartly(old(a.res), id.value, blank, full, done);
    assert id.value in a.res && id.value !in old(a.res);
    outcome := if ok then Made(id.value) else Failed;
  }

  lemma NatBlank(c: string, v: Id, subnet: Id, address: Id)
    ensures var full := NatRes(c, v, subnet, address);
            Refs(full.(tags := map[])) == Refs(full) && full.live && full.kind == Nat
  {
  }

  /** A NAT gateway that an attempt left behind turns out to have failed. */
  method Fail(a: Account, id: Id, ghost before: Resources, ghost full: Resource)
    requires a.Valid() && id in a.res && id !in before
    requires Added(before, a.res, id, full) && full.live
    modifies a
    ensures a.Valid() && a.refused == old(a.refused) && a.next == old(a.next)
    ensures Added(before, a.res, id, full) && id in a.res
  {
    var dead := a.res[id].(live := false);
    SameRefs(a.res, id, dead);
    hide Refs;
    var _ := a.Modify(id, dead);
  }

  lemma SameRefs(res: Resources, id: Id, dead: Resource)
    requires Closed(res) && id in res && dead == res[id].(live := false)
    ensures Refs(dead) <= res.Keys
  {
    assert Refs(res[id]) <= res.Keys;
  }

  /**
   One half of ensureRouteTable. When tagging fails, setupRouteTable returns an empty id and no error: `ok`
   holds without an id exactly when the new table lacks a tag.
   */
  method EnsureTable(a: Account, c: string, v: Id, side: Side, target: Id, subnet: Id)
    returns (ok: bool, id: Option<Id>)
    requires a.Valid() && {v, target, subnet} <= a.res.Keys
    modifies a
    ensures a.Valid() && a.refused == old(a.refused) && old(a.next) <= a.next
    ensures Ensured(c, TableQ(v, side), TableRes(c, v, side, target, subnet), old(a.res), a.res, old(a.next), id)
    ensures id.Some? ==> id.value in Found(c, TableQ(v, side), a.res)
    ensures Kept(old(a.res), a.res)
    ensures Unique(c, old(a.res)) ==> Unique(c, a.res)
    ensures id.Some? ==> ok
    ensures Found(c, TableQ(v, side), old(a.res)) == {} ==>
              (ok && id.None? <==>
                 old(a.next) in a.res && a.res[old(a.next)].tags != TableRes(c, v, side, target, subnet).tags)
    ensures a.reliable ==> id.Some?
  {
    id := a.Lookup(c, TableQ(v, side));
    ok := true;
    if id.None? {
      ok, id := SetupTable(a, c, v, side, target, subnet);
      TableAnswers(c, v, side, target, subnet);
      CreationEnsures(c, TableQ(v, side), TableRes(c, v, side, target, subnet), old(a.res), a.res, old(a.next), id);
    }
  }

  method SetupTable(a: Account, c: string, v: Id, side: Side, target: Id, subnet: Id)
    returns (ok: bool, id: Option<Id>)
    requires a.Valid() && {v, target, subnet} <= a.res.Keys
    modifies a
    ensures a.Valid() && a.refused == old(a.refused) && old(a.next) <= a.next
    ensures Added(old(a.res), a.res, old(a.next), TableRes(c, v, side, target, subnet))
    ensures id.Some? ==>
              id.value == old(a.next) && a.res == old(a.res)[old(a.next) := TableRes(c, v, side, target, subnet)]
    ensures id.Some? ==> ok
    ensures ok && id.None? <==>
              old(a.next) in a.res && a.res[old(a.next)].tags != TableRes(c, v, side, target, subnet).tags
    ensures a.reliable ==> id.Some?
  {
    hide Owned, Matches, Refs, Partly, TableRes;
    var full := TableRes(c, v, side, target, subnet);
    TableShape(c, v, side, target, subnet);
    var tagged;
    id, tagged := CreateUnrouted(a, full);
    if id.None? {
      return false, None;
    }
    if !tagged {
      return true, None;
    }
    ok := Route(a, id.value, full, target);
    RoutedIsAdded(old(a.res), old(a.next), a.res[old(a.next)], full);
    if !ok {
      return false, None;
    }
  }

  lemma TableShape(c: string, v: Id, side: Side, target: Id, subnet: Id)
    ensures var full := TableRes(c, v, side, target, subnet);
            full.kind == Table && full.links == {target, subnet} && Refs(full) == {v, target, subnet}
  {
    TableAnswers(c, v, side, target, subnet);
  }

  lemma RoutedIsAdded(before: Resources, id: Id, r: Resource, full: Resource)
    requires r == full.(links := r.links) && r.links <= full.links
    ensures Added(before, before[id := r], id, full)
  {
  }

  /** CreateRouteTable and its tags, before any route. */
  method CreateUnrouted(a: Account, full: Resource) returns (id: Option<Id>, tagged: bool)
    requires a.Valid() && full.kind == Table && Refs(full) <= a.res.Keys
    modifies a
    ensures a.Valid() && a.refused == old(a.refused) && old(a.next) <= a.next
    ensures Added(old(a.res), a.res, old(a.next), full)
    ensures id.None? ==> a.res == old(a.res)
    ensures id.Some? ==> id.value == old(a.next) && id.value in a.res && a.res[id.value].links == {}
    ensures id.Some? && tagged ==> a.res == old(a.res)[id.value := full.(links := {})]
    ensures id.Some? && !tagged ==> a.res[id.value].tags != full.tags
    ensures a.reliable ==> id.Some? && tagged
  {
    var blank := full.(links := {}, tags := map[]);
    tagged := false;
    id := a.Create(blank);
    if id.Some? {
      ghost var done;
      tagged, done := a.AddTags(id.value, full.tags);
      TaggedIsPartly(old(a.res), id.value, blank, full, done);
    }
  }

  /** CreateRoute to the target, then AssociateRouteTable with the subnet. */
  method Route(a: Account, table: Id, full: Resource, target: Id) returns (ok: bool)
    requires a.Valid() && table in a.res && a.res[table] == full.(links := {})
    requires target in full.links && full.kind == Table && Refs(full) <= a.res.Keys
    modifies a
    ensures a.Valid() && a.refused == old(a.refused) && a.next == old(a.next)
    ensures table in a.res && a.res == old(a.res)[table := a.res[table]]
    ensures a.res[table].links <= full.links && a.res[table] == full.(links := a.res[table].links)
    ensures ok ==> a.res[table] == full
    ensures a.reliable ==> ok
  {
    var routed := full.(links := {target});
    ok := a.Modify(table, routed);
    if !ok {
      return;
    }
    ok := a.Modify(table, full);
  }
}
