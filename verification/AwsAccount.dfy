/**
 An AWS account as pharmer sees it: tagged resources that refer to one another.

 Every call may fail for a reason of its own (throttling, a lost connection). On top of that the
 account refuses two kinds of call: a creation that names a resource which does not exist, and a
 deletion of a resource that something else still refers to. Refusals are recorded in `refused`, so
 that "nothing was refused" is a statement about the state.
 */
module AwsAccount {
  import opened Wrappers

  type Id = nat

  datatype Kind = Vpc | Subnet | Gateway | Address | Nat | Table | Group | Instance | Balancer | KeyPair

  datatype Side = Public | Private

  /** The part of a resource name that follows (or frames) the cluster name. */
  datatype Part =
    | VpcPart | SubnetPart(Side) | GatewayPart | AddressPart | NatPart | TablePart(Side)
    | GroupPart(Role) | BastionPart | BalancerPart | KeyPart | MachinePart

  datatype Role = BastionRole | ControlPlane | NodeRole | CommonRole | ApiServerRole

  datatype TagKey = NameKey | RoleKey | ManagedKey | ClusterKey(cluster: string)

  /** `Derived(c, p)` stands for the text that pharmer formats from the cluster name `c`. */
  datatype Text = Derived(cluster: string, part: Part) | RoleText(role: Role) | Plain(text: string)

  type Tags = map<TagKey, Text>

  /** One ingress or egress permission of a security group. */
  datatype Permission = Permission(from: int, to: int, cidrs: seq<string>, groups: seq<Id>)

  /**
   `live` is the state that lookups filter on: an instance that is running, a NAT gateway that is pending
   or available. It is true of every other resource.
   */
  datatype Resource = Resource(
    kind: Kind,
    name: Option<Text>,
    vpc: Option<Id>,
    links: set<Id>,
    tags: Tags,
    ingress: set<Permission>,
    egress: set<Permission>,
    live: bool)

  type Resources = map<Id, Resource>

  function GroupsOf(perms: set<Permission>): set<Id> {
    set p, g | p in perms && g in p.groups :: g
  }

  /** Everything a resource refers to; only security groups carry permissions. */
  function Refs(r: Resource): set<Id> {
    (if r.vpc.Some? then {r.vpc.value} else {}) + r.links
    + if r.kind == Group then GroupsOf(r.ingress) + GroupsOf(r.egress) else {}
  }

  /** No resource refers to a missing one. */
  ghost predicate Closed(res: Resources) {
    forall i :: i in res ==> Refs(res[i]) <= res.Keys
  }

  ghost predicate Referenced(id: Id, res: Resources) {
    exists i :: i in res && i != id && id in Refs(res[i])
  }

  lemma RemovalKeepsClosed(res: Resources, id: Id)
    requires Closed(res) && !Referenced(id, res)
    ensures Closed(res - {id})
  {
    var rest := res - {id};
    forall i | i in rest
      ensures Refs(rest[i]) <= rest.Keys
    {
      assert rest[i] == res[i] && Refs(res[i]) <= res.Keys;
      assert id !in Refs(res[i]);
    }
  }

  lemma UpdateKeepsClosed(res: Resources, id: Id, r: Resource)
    requires Closed(res) && Refs(r) <= res.Keys
    ensures Closed(res[id := r])
  {
    var changed := res[id := r];
    forall i | i in changed
      ensures Refs(changed[i]) <= changed.Keys
    {
      assert i != id ==> Refs(res[i]) <= res.Keys;
    }
  }

  ghost predicate WellFormed(res: Resources, next: Id) {
    Closed(res) && forall i :: i in res ==> i < next
  }

  /** The lookups pharmer makes, one constructor per filter it sends. */
  datatype Query =
    | VpcQ | SubnetQ(v: Id, side: Side) | GatewayQ(v: Id) | NatQ(v: Id) | TableQ(v: Id, side: Side)
    | GroupQ(v: Id, role: Role) | BastionQ | MasterQ(machine: Text) | BalancerQ | KeyQ | AddressQ
    | KindQ(kind: Kind, v: Id) | InstanceQ(role: Role)

  predicate HasTag(r: Resource, k: TagKey, t: Text) {
    k in r.tags && r.tags[k] == t
  }

  /** An instance of the name and role, running or not. */
  predicate Bears(name: Text, role: Role, r: Resource) {
    r.kind == Instance && HasTag(r, NameKey, name) && HasTag(r, RoleKey, RoleText(role))
  }

  function Bearers(name: Text, role: Role, res: Resources): set<Id> {
    set i | i in res && Bears(name, role, res[i])
  }

  /** At most one instance has the name and role. */
  ghost predicate Alone(name: Text, role: Role, res: Resources) {
    forall i, j :: i in Bearers(name, role, res) && j in Bearers(name, role, res) ==> i == j
  }

  /** Another instance of the name leaves it alone exactly when there was none. */
  lemma AloneAfter(name: Text, role: Role, before: Resources, id: Id, r: Resource)
    requires id !in before && Bears(name, role, r)
    ensures Bearers(name, role, before[id := r]) == Bearers(name, role, before) + {id}
    ensures Alone(name, role, before) ==> (Alone(name, role, before[id := r]) <==> Bearers(name, role, before) == {})
  {
    var after := before[id := r];
    assert Bearers(name, role, after) == Bearers(name, role, before) + {id};
    if i :| i in Bearers(name, role, before) {
      assert i in Bearers(name, role, after) && i != id;
    }
  }

  predicate Matches(c: string, q: Query, r: Resource) {
    match q
    case VpcQ => r.kind == Vpc && HasTag(r, NameKey, Derived(c, VpcPart)) && ClusterKey(c) in r.tags
    case SubnetQ(v, s) => r.kind == Subnet && r.vpc == Some(v) && HasTag(r, NameKey, Derived(c, SubnetPart(s)))
    case GatewayQ(v) => r.kind == Gateway && r.vpc == Some(v)
    case NatQ(v) => r.kind == Nat && r.vpc == Some(v) && r.live
    case TableQ(v, s) =>
      r.kind == Table && r.vpc == Some(v) && ClusterKey(c) in r.tags && HasTag(r, NameKey, Derived(c, TablePart(s)))
    case GroupQ(v, role) => r.kind == Group && r.vpc == Some(v) && r.name == Some(Derived(c, GroupPart(role)))
    case BastionQ => Bears(Derived(c, BastionPart), BastionRole, r) && r.live
    case MasterQ(m) => Bears(m, ControlPlane, r) && r.live
    case BalancerQ => r.kind == Balancer && r.name == Some(Derived(c, BalancerPart))
    case KeyQ => r.kind == KeyPair && r.name == Some(Derived(c, KeyPart))
    case AddressQ => r.kind == Address && HasTag(r, NameKey, Derived(c, AddressPart)) && ClusterKey(c) in r.tags
    case KindQ(k, v) => r.kind == k && r.vpc == Some(v) && ClusterKey(c) in r.tags
    case InstanceQ(role) => r.kind == Instance && HasTag(r, RoleKey, RoleText(role)) && ClusterKey(c) in r.tags
  }

  function Found(c: string, q: Query, res: Resources): set<Id> {
    set i | i in res && Matches(c, q, res[i])
  }

  ghost predicate AtMostOne(c: string, q: Query, res: Resources) {
    forall i, j :: i in Found(c, q, res) && j in Found(c, q, res) ==> i == j
  }

  /** The lookups inside a cluster VPC that decide whether pharmer creates a resource there. */
  predicate InVpc(q: Query, v: Id) {
    (q.SubnetQ? || q.GatewayQ? || q.NatQ? || q.TableQ? || q.GroupQ?) && q.v == v
  }

  /**
   No lookup that guards a creation can return two candidates, except the lookups of instances, which see
   running instances only.
   */
  ghost predicate Unique(c: string, res: Resources) {
    && AtMostOne(c, VpcQ, res) && AtMostOne(c, KeyQ, res) && AtMostOne(c, BalancerQ, res)
    && forall q, v :: v in Found(c, VpcQ, res) && InVpc(q, v) ==> AtMostOne(c, q, res)
  }

  datatype Refusal = Dangling(kind: Kind) | InUse(id: Id)

  class Account {
    var res: Resources
    var next: Id
    var refused: seq<Refusal>
    /** How often CreateLoadBalancer was called. */
    var asked: nat
    /** When set, no call fails on its own. */
    const reliable: bool

    constructor (reliable: bool)
      ensures this.reliable == reliable && res == map[] && next == 0 && refused == [] && asked == 0
    {
      this.reliable := reliable;
      res, next, refused, asked := map[], 0, [], 0;
    }

    /** An account as it stands, from a moment on when no call fails any more. */
    constructor Resume(a: Account)
      ensures reliable && res == a.res && next == a.next && refused == a.refused && asked == a.asked
    {
      reliable := true;
      res, next, refused, asked := a.res, a.next, a.refused, a.asked;
    }

    ghost predicate Valid()
      reads this
    {
      WellFormed(res, next)
    }

    /** Whether the environment makes the next call fail. */
    method Fault() returns (fault: bool)
      ensures reliable ==> !fault
    {
      fault := *;
      if reliable {
        fault := false;
      }
    }

    method Create(r: Resource) returns (id: Option<Id>)
      requires Valid()
      modifies this`res, this`next, this`refused
      ensures Valid()
      ensures id.Some? ==> id.value == old(next) && next == old(next) + 1 && res == old(res)[old(next) := r]
      ensures id.None? ==> res == old(res) && next == old(next)
      ensures Refs(r) <= old(res).Keys ==> refused == old(refused)
      ensures !(Refs(r) <= old(res).Keys) ==> id.None? && refused == old(refused) + [Dangling(r.kind)]
      ensures reliable && Refs(r) <= old(res).Keys ==> id.Some?
    {
      if !(Refs(r) <= res.Keys) {
        refused := refused + [Dangling(r.kind)];
        return None;
      }
      var fault := Fault();
      if fault {
        return None;
      }
      id := Some(next);
      UpdateKeepsClosed(res, next, r);
      res := res[next := r];
      next := next + 1;
    }

    /**
     CreateLoadBalancer, whose names are unique in an account: for one that exists the account answers
     with it or with an error.
     */
    method CreateLoadBalancer(c: string, r: Resource) returns (ok: bool)
      requires Valid() && Matches(c, BalancerQ, r)
      modifies this
      ensures Valid() && asked == old(asked) + 1
      ensures Found(c, BalancerQ, old(res)) != {} ==> res == old(res) && next == old(next) && refused == old(refused)
      ensures Found(c, BalancerQ, old(res)) == {} ==>
                res == (if ok then old(res)[old(next) := r] else old(res)) && old(next) <= next
      ensures Refs(r) <= old(res).Keys ==> refused == old(refused)
      ensures reliable && Found(c, BalancerQ, old(res)) == {} && Refs(r) <= old(res).Keys ==> ok
    {
      asked := asked + 1;
      var existing := Lookup(c, BalancerQ);
      if existing.Some? {
        ok := *;
      } else {
        var id := Create(r);
        ok := id.Some?;
      }
    }

    /** An instance comes up or stops; nobody asked for it. */
    method Turn(id: Id, live: bool)
      requires Valid()
      modifies this`res
      ensures Valid()
      ensures res == if id in old(res) && old(res)[id].kind == Instance
                     then old(res)[id := old(res)[id].(live := live)] else old(res)
    {
      if id in res && res[id].kind == Instance {
        var r := res[id].(live := live);
        assert Refs(r) == Refs(res[id]) <= res.Keys;
        UpdateKeepsClosed(res, id, r);
        res := res[id := r];
      }
    }

    /** Replaces the attributes of an existing resource; also used for attaching and routing. */
    method Modify(id: Id, r: Resource) returns (ok: bool)
      requires Valid()
      requires id in res
      modifies this
      ensures Valid() && next == old(next)
      ensures ok ==> res == old(res)[id := r]
      ensures !ok ==> res == old(res)
      ensures Refs(r) <= old(res).Keys ==> refused == old(refused)
      ensures !(Refs(r) <= old(res).Keys) ==> !ok && refused == old(refused) + [Dangling(r.kind)]
      ensures reliable && Refs(r) <= old(res).Keys ==> ok
    {
      if !(Refs(r) <= res.Keys) {
        refused := refused + [Dangling(r.kind)];
        return false;
      }
      var fault := Fault();
      if !fault {
        UpdateKeepsClosed(res, id, r);
        res := res[id := r];
      }
      ok := !fault;
    }

    method Delete(id: Id) returns (ok: bool)
      requires Valid()
      modifies this
      ensures Valid() && next == old(next)
      ensures ok ==> id in old(res) && !Referenced(id, old(res)) && res == old(res) - {id}
      ensures !ok ==> res == old(res)
      ensures id in old(res) && Referenced(id, old(res)) ==> refused == old(refused) + [InUse(id)]
      ensures id !in old(res) || !Referenced(id, old(res)) ==> refused == old(refused)
      ensures reliable && id in old(res) && !Referenced(id, old(res)) ==> ok
    {
      if id !in res {
        return false;
      }
      if exists i | i in res :: i != id && id in Refs(res[i]) {
        refused := refused + [InUse(id)];
        return false;
      }
      var fault := Fault();
      if !fault {
        RemovalKeepsClosed(res, id);
        res := res - {id};
      }
      ok := !fault;
    }

    /** All matches, each once, in an order the account chooses. */
    method Describe(c: string, q: Query) returns (ids: seq<Id>)
      ensures forall i :: i in ids <==> i in Found(c, q, res)
      ensures forall i, j :: 0 <= i < j < |ids| ==> ids[i] != ids[j]
    {
      ids := [];
      var todo := Found(c, q, res);
      while todo != {}
        invariant forall i :: i in Found(c, q, res) <==> i in ids || i in todo
        invariant forall i :: i in ids ==> i !in todo
        invariant forall i, j :: 0 <= i < j < |ids| ==> ids[i] != ids[j]
        decreases todo
      {
        var i :| i in todo;
        ids, todo := ids + [i], todo - {i};
      }
    }

    /** The first match, as every `get` method of the connector takes it. */
    method Lookup(c: string, q: Query) returns (id: Option<Id>)
      ensures id.None? <==> Found(c, q, res) == {}
      ensures id.Some? ==> id.value in Found(c, q, res)
    {
      var ids := Describe(c, q);
      if ids == [] {
        return None;
      }
      assert ids[0] in ids;
      id := Some(ids[0]);
    }

    method AddTag(id: Id, key: TagKey, value: Text) returns (ok: bool)
      requires Valid() && id in res
      modifies this
      ensures Valid() && next == old(next) && refused == old(refused)
      ensures ok ==> res == old(res)[id := old(res)[id].(tags := old(res)[id].tags[key := value])]
      ensures !ok ==> res == old(res)
      ensures reliable ==> ok
    {
      var r := res[id].(tags := res[id].tags[key := value]);
      assert Refs(r) == Refs(res[id]) <= res.Keys;
      ok := Modify(id, r);
    }

    /** Adds the tags one call at a time, in the arbitrary order of a Go map, stopping at the first failure. */
    method AddTags(id: Id, tags: Tags) returns (ok: bool, ghost done: set<TagKey>)
      requires Valid() && id in res
      modifies this
      ensures Valid() && next == old(next) && refused == old(refused)
      ensures done <= tags.Keys && (ok <==> done == tags.Keys)
      ensures res == Tagged(old(res), id, Restrict(tags, done))
      ensures reliable ==> ok
    {
      done := {};
      TaggedNothing(res, id, tags);
      var todo := tags.Keys;
      while todo != {}
        invariant Valid() && next == old(next) && refused == old(refused)
        invariant todo <= tags.Keys && done == tags.Keys - todo
        invariant res == Tagged(old(res), id, Restrict(tags, done))
        decreases todo
      {
        var k :| k in todo;
        ok := AddTag(id, k, tags[k]);
        if !ok {
          return;
        }
        TaggedOneMore(old(res), id, tags, done, k);
        done, todo := done + {k}, todo - {k};
      }
      ok := true;
    }
  }

  /** The account after `extra` has been written over the tags of `id`. */
  function Tagged(res: Resources, id: Id, extra: Tags): Resources
    requires id in res
  {
    res[id := res[id].(tags := res[id].tags + extra)]
  }

  lemma TaggedNothing(res: Resources, id: Id, tags: Tags)
    requires id in res
    ensures Tagged(res, id, Restrict(tags, {})) == res
  {
    assert res[id].tags + Restrict(tags, {}) == res[id].tags;
  }

  lemma TaggedOneMore(res: Resources, id: Id, tags: Tags, done: set<TagKey>, k: TagKey)
    requires id in res && k in tags
    ensures var r := Tagged(res, id, Restrict(tags, done));
            r[id := r[id].(tags := r[id].tags[k := tags[k]])] == Tagged(res, id, Restrict(tags, done + {k}))
  {
    assert (res[id].tags + Restrict(tags, done))[k := tags[k]] == res[id].tags + Restrict(tags, done + {k});
  }

  function Restrict(tags: Tags, keys: set<TagKey>): Tags {
    map k | k in tags && k in keys :: tags[k]
  }
}
