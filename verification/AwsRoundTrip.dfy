/**
 EnsureMaster, and the results about whole AWS runs: attempts and teardowns that fail anywhere never make a
 lookup ambiguous; what attempts leave, however they fail, is what a teardown can clear unless something it does
 not list is in its way; and provisioning followed by teardown restores the account.
 */
module AwsRoundTrip {
  import opened Wrappers
  import opened AwsAccount
  import opened AwsProvision
  import opened AwsStack
  import opened AwsGroups
  import opened AwsPrepare
  import opened AwsTeardown
  import opened AwsRun
  import opened AwsDelete
  import Iam

  // ---- EnsureMaster ----------------------------------------------------------------------------

  /** What EnsureMaster needs to launch an instance. */
  ghost predicate Startable(c: string, groups: map<Role, Id>, res: Resources) {
    && Found(c, VpcQ, res) != {} && ControlPlane in groups
    && forall v :: v in Found(c, VpcQ, res) ==> Found(c, SubnetQ(v, Private), res) != {}
  }

  /**
   EnsureMaster. Errors of the VPC and subnet lookups are only logged; without a subnet or a group the
   instance cannot start. Only a running master is found, so a second one of the name is launched exactly
   when the launch goes ahead and there is one already, which then does not run.
   */
  method EnsureMaster(a: Account, c: string, rec: Record, machine: Text, comesUp: bool,
                      ghost w: View, ghost ids: Ids, ghost net: Net)
    returns (ok: bool)
    requires a.Valid() && Unique(c, a.res) && Known(rec.groups, a.res)
    requires w.pristine ==>
               && w.machine == machine && Ready(c, w, ids, net, a, rec) && comesUp
               && On(c, w, net, ids.vpc, a, AllQueries(ids.vpc)) && Clean(c, machine, w.base) && Closed(w.base)
    modifies a
    ensures a.Valid() && a.refused == old(a.refused)
    ensures Unique(c, a.res) && Kept(old(a.res), a.res)
    ensures Found(c, MasterQ(machine), old(a.res)) != {} ==> ok && a.res == old(a.res)
    ensures ok ==> Found(c, MasterQ(machine), a.res) != {}
    ensures Alone(machine, ControlPlane, old(a.res)) ==>
              (!Alone(machine, ControlPlane, a.res) <==>
                 Bearers(machine, ControlPlane, old(a.res)) != {} && a.res != old(a.res))
    ensures a.reliable && Startable(c, rec.groups, old(a.res)) && Alone(machine, ControlPlane, old(a.res)) ==>
              (!Alone(machine, ControlPlane, a.res) <==>
                 Bearers(machine, ControlPlane, old(a.res)) != {} && Found(c, MasterQ(machine), old(a.res)) == {})
    ensures a.reliable && Startable(c, rec.groups, old(a.res)) && Found(c, MasterQ(machine), old(a.res)) == {} ==>
              a.res != old(a.res) && ok == comesUp && Startable(c, rec.groups, a.res)
              && (!comesUp ==> Found(c, MasterQ(machine), a.res) == {})
              && Bearers(machine, ControlPlane, a.res) == Bearers(machine, ControlPlane, old(a.res)) + {old(a.next)}
    ensures Tended(c, w.others, old(a.res)) && Remembered(c, rec.groups, old(a.res)) ==> Tended(c, w.others, a.res)
    ensures w.pristine ==> ok && On(c, w, net, ids.vpc, a, AllQueries(ids.vpc) + {MasterQ(machine)})
  {
    hide Matches, Refs, Owned, Found, Unique, Progress, Bare, MasterRes, AllQueries, Clean, Alone, Bearers;
    hide Tended, Remembered;
    var found := a.Lookup(c, MasterQ(machine));
    if w.pristine {
      MasterNotYet(ids.vpc, machine);
      NotFoundYet(c, w, net, ids.vpc, a, AllQueries(ids.vpc), MasterQ(machine));
    }
    if found.Some? {
      return true;
    }
    var v := a.Lookup(c, VpcQ);
    if v.None? || ControlPlane !in rec.groups {
      PristineSeesVpc(c, w, ids, net, a, v);
      return false;
    }
    var subnet := a.Lookup(c, SubnetQ(v.value, Private));
    if subnet.None? {
      PristineSeesSubnet(c, w, ids, net, a, v, subnet);
      return false;
    }
    FoundExist(c, VpcQ, a.res);
    FoundExist(c, SubnetQ(v.value, Private), a.res);
    PristineSeesSubnet(c, w, ids, net, a, v, subnet);
    ghost var group := rec.groups[ControlPlane];
    MasterEffects(c, v.value, subnet.value, group, machine, a.res, a.next, rec.groups);
    ok := StartMaster(a, c, v.value, subnet.value, rec.groups[ControlPlane], machine, comesUp, w, net,
                      AllQueries(v.value));
    MasterTended(c, w.others, rec.groups, v.value, subnet.value, machine, comesUp, old(a.res), a.res, old(a.next));
  }

  lemma MasterTended(c: string, others: Resources, groups: map<Role, Id>, v: Id, subnet: Id, machine: Text, live: bool,
                     before: Resources, after: Resources, id: Id)
    requires Unique(c, before) && v in Found(c, VpcQ, before) && subnet in Found(c, SubnetQ(v, Private), before)
    requires ControlPlane in groups && id !in before
    requires after == before
             || after == before[id := MasterRes(c, v, subnet, groups[ControlPlane], machine).(live := live)]
    ensures Tended(c, others, before) && Remembered(c, groups, before) ==> Tended(c, others, after)
  {
    hide Tended, Found, Unique, Remembered, Founded;
    if Tended(c, others, before) && Remembered(c, groups, before) && after != before {
      RememberedIsGrounded(c, others, v, groups, before);
      FoundInside(c, v, before);
      ServersFounded(c, v, subnet, groups[ControlPlane], before);
      var r := MasterRes(c, v, subnet, groups[ControlPlane], machine).(live := live);
      assert Matches(c, InstanceQ(ControlPlane), r);
      ServerTended(c, others, v, before, id, r);
    }
  }

  /** What launching a master does to the lookups, whether or not it comes up. */
  lemma MasterEffects(c: string, v: Id, subnet: Id, group: Id, machine: Text, res: Resources, id: Id,
                      groups: map<Role, Id>)
    requires id !in res && Found(c, MasterQ(machine), res) == {}
    ensures forall live ::
              var after := res[id := MasterRes(c, v, subnet, group, machine).(live := live)];
              && Found(c, MasterQ(machine), after) == (if live then {id} else {})
              && Bearers(machine, ControlPlane, after) == Bearers(machine, ControlPlane, res) + {id}
              && (Alone(machine, ControlPlane, res) ==>
                    (Alone(machine, ControlPlane, after) <==> Bearers(machine, ControlPlane, res) == {}))
              && (Startable(c, groups, res) ==> Startable(c, groups, after))
  {
    hide Alone, Bearers, Startable, MasterRes, Found;
    forall live
      ensures var after := res[id := MasterRes(c, v, subnet, group, machine).(live := live)];
              && Found(c, MasterQ(machine), after) == (if live then {id} else {})
              && Bearers(machine, ControlPlane, after) == Bearers(machine, ControlPlane, res) + {id}
              && (Alone(machine, ControlPlane, res) ==>
                    (Alone(machine, ControlPlane, after) <==> Bearers(machine, ControlPlane, res) == {}))
              && (Startable(c, groups, res) ==> Startable(c, groups, after))
    {
      var r := MasterRes(c, v, subnet, group, machine).(live := live);
      MasterFits(c, v, subnet, group, machine, live);
      AloneAfter(machine, ControlPlane, res, id, r);
      MasterFound(c, machine, res, id, r);
      if Startable(c, groups, res) {
        InstanceKeepsStartable(c, res, id, r, groups);
      }
    }
  }

  lemma InstanceKeepsStartable(c: string, res: Resources, id: Id, r: Resource, groups: map<Role, Id>)
    requires id !in res && r.kind == Instance && Startable(c, groups, res)
    ensures Startable(c, groups, res[id := r])
  {
    var after := res[id := r];
    assert Found(c, VpcQ, after) == Found(c, VpcQ, res);
    forall v | v in Found(c, VpcQ, after)
      ensures Found(c, SubnetQ(v, Private), after) != {}
    {
      assert Found(c, SubnetQ(v, Private), after) == Found(c, SubnetQ(v, Private), res);
    }
  }

  lemma MasterNotYet(v: Id, machine: Text)
    ensures MasterQ(machine) !in AllQueries(v)
  {
  }

  /** In a pristine run the only VPC found is the one just made. */
  lemma PristineSeesVpc(c: string, w: View, ids: Ids, net: Net, a: Account, v: Option<Id>)
    requires w.pristine ==> On(c, w, net, ids.vpc, a, AllQueries(ids.vpc)) && Clean(c, w.machine, w.base)
    requires w.pristine ==> Placed(c, ids, w.base, a.res) && net.vpc == Some(ids.vpc)
    requires v.None? <==> Found(c, VpcQ, a.res) == {}
    requires v.Some? ==> v.value in Found(c, VpcQ, a.res)
    ensures w.pristine ==> v == Some(ids.vpc)
  {
    if w.pristine {
      assert ids.vpc in Found(c, VpcQ, a.res);
      FindsOnlyNew(c, w.base, net, a.res, VpcQ);
    }
  }

  lemma PristineSeesSubnet(c: string, w: View, ids: Ids, net: Net, a: Account, v: Option<Id>, subnet: Option<Id>)
    requires w.pristine ==> On(c, w, net, ids.vpc, a, AllQueries(ids.vpc)) && Clean(c, w.machine, w.base)
    requires w.pristine ==> Placed(c, ids, w.base, a.res) && net.vpc == Some(ids.vpc) && Closed(w.base)
    requires v.Some? && v.value in Found(c, VpcQ, a.res)
    requires subnet.None? <==> Found(c, SubnetQ(v.value, Private), a.res) == {}
    requires subnet.Some? ==> subnet.value in Found(c, SubnetQ(v.value, Private), a.res)
    ensures w.pristine ==> v == Some(ids.vpc) && subnet.Some? && New(subnet.value, Subnet, w.base, a.res)
  {
    PristineSeesVpc(c, w, ids, net, a, v);
    if w.pristine {
      assert ids.private in Found(c, SubnetQ(ids.vpc, Private), a.res);
      NothingYet(c, w.base, ids.vpc, SubnetQ(ids.vpc, Private));
      FindsOnlyNew(c, w.base, net, a.res, SubnetQ(ids.vpc, Private));
    }
  }

  /**
   startMaster: image lookup, launch, wait, registration with the balancer, and the store updates. When
   the wait for it fails, the instance stays as it was launched, not running.
   */
  method StartMaster(a: Account, c: string, v: Id, subnet: Id, group: Id, machine: Text, comesUp: bool,
                     ghost w: View, ghost net: Net, ghost done: set<Query>) returns (ok: bool)
    requires a.Valid() && Unique(c, a.res) && v in a.res && subnet in a.res && group in a.res
    requires w.pristine ==>
               && On(c, w, net, v, a, done) && w.machine == machine && comesUp && net.vpc == Some(v)
               && New(v, Vpc, w.base, a.res) && New(subnet, Subnet, w.base, a.res) && New(group, Group, w.base, a.res)
    modifies a
    ensures a.Valid() && a.refused == old(a.refused) && Unique(c, a.res) && Kept(old(a.res), a.res)
    ensures a.res == old(a.res)
            || a.res == old(a.res)[old(a.next) := MasterRes(c, v, subnet, group, machine).(live := comesUp)]
    ensures ok ==> comesUp && a.res != old(a.res)
    ensures a.reliable ==> a.res != old(a.res) && ok == comesUp
    ensures w.pristine ==> ok && On(c, w, net, v, a, done + {MasterQ(machine)})
  {
    hide Matches, Refs, Owned, Found, Unique, Partly, Progress, Bare, MasterRes;
    ghost var res, i := a.res, a.next;
    var fault := a.Fault();
    if fault {
      return false;
    }
    var full := MasterRes(c, v, subnet, group, machine);
    MasterFits(c, v, subnet, group, machine, false);
    MasterFits(c, v, subnet, group, machine, true);
    var id := RunInstance(a, c, full.(live := false));
    assert i !in res;
    if id.None? || !comesUp {
      return false;
    }
    ghost var launched := a.res;
    a.Turn(id.value, true);
    InstanceUnseen(c, launched, a.res, id.value);
    assert a.res == res[i := full.(live := true)];
    fault := a.Fault();
    ok := !fault;
    if w.pristine {
      MasterProgress(c, w.base, net, v, machine, res, done, i, subnet, group);
    }
  }

  lemma MasterFound(c: string, machine: Text, res: Resources, id: Id, r: Resource)
    requires Found(c, MasterQ(machine), res) == {} && Bears(machine, ControlPlane, r)
    ensures Found(c, MasterQ(machine), res[id := r]) == if r.live then {id} else {}
  {
    var after := res[id := r];
    forall i | i in res && i != id
      ensures i !in Found(c, MasterQ(machine), after)
    {
      assert i !in Found(c, MasterQ(machine), res);
    }
  }

  lemma MasterFits(c: string, v: Id, subnet: Id, group: Id, machine: Text, live: bool)
    ensures var r := MasterRes(c, v, subnet, group, machine).(live := live);
            && Refs(r) == {v, subnet, group} && r.kind == Instance && Bears(machine, ControlPlane, r)
    ensures MasterRes(c, v, subnet, group, machine).live
  {
  }

  /**
   The second master: the wait for the first one fails while it is still pending, and a retry in which no
   call fails launches another. No lookup lies.
   */
  method SecondMaster(a: Account, c: string, rec: Record, machine: Text) returns (first: bool, second: bool)
    requires a.Valid() && a.reliable && Unique(c, a.res) && Known(rec.groups, a.res)
    requires Startable(c, rec.groups, a.res) && Bearers(machine, ControlPlane, a.res) == {}
    modifies a
    ensures !first && second && !Alone(machine, ControlPlane, a.res)
  {
    hide Startable, Unique, Found, Matches, Bears, Known;
    NoneBears(c, machine, a.res);
    ghost var w, none := View(a.res, machine, false, map[]), Net(None, None, None);
    ghost var before := a.res;
    first := EnsureMaster(a, c, rec, machine, false, w, Ids(0, 0, 0), none);
    StepsKeep(c, Ids(0, 0, 0), map[], rec.groups, before, a.res);
    second := EnsureMaster(a, c, rec, machine, true, w, Ids(0, 0, 0), none);
  }

  lemma NoneBears(c: string, machine: Text, res: Resources)
    requires Bearers(machine, ControlPlane, res) == {}
    ensures Found(c, MasterQ(machine), res) == {}
  {
    forall i | i in res
      ensures !Bears(machine, ControlPlane, res[i])
    {
      assert i !in Bearers(machine, ControlPlane, res);
    }
  }

  // ---- The results ---------------------------------------------------------------------------

  /**
   An ApplyCreate, as far as AWS is concerned, a teardown, or an instance that starts or stops running. The
   first two begin with what they loaded from the store.
   */
  datatype Act = Attempt(machine: Text, env: Env, loaded: map<Role, Id>)
               | TearDown(polls: nat, recorded: Option<Id>)
               | Turn(id: Id, live: bool)

  /** PrepareCloud and then EnsureMaster, as ApplyCreate calls them; both may fail anywhere. */
  method AttemptOnce(a: Account, iam: Iam.Store, rec: Record, c: string, machine: Text, env: Env,
                     ghost others: Resources)
    requires a.Valid() && Unique(c, a.res) && Known(rec.groups, a.res)
    requires Iam.Bounded(c, iam.roles, iam.profiles)
    modifies a, iam`roles, iam`profiles, rec
    ensures a.Valid() && Unique(c, a.res) && a.refused == old(a.refused)
    ensures Tended(c, others, old(a.res)) && Remembered(c, old(rec.groups), old(a.res)) ==> Tended(c, others, a.res)
    ensures Iam.Bounded(c, iam.roles, iam.profiles)
  {
    hide Unique, Iam.Bounded, Known, Matches, Found, Refs, Tended, Remembered;
    var ok, ids, net := PrepareCloud(a, iam, rec, c, env, machine, others);
    if ok {
      var _ := EnsureMaster(a, c, rec, machine, env.comesUp, View(a.res, machine, false, others), Ids(0, 0, 0), net);
    }
  }

  /**
   Any sequence of attempts and teardowns, each failing anywhere, while instances start and stop running: no
   lookup of a VPC, key pair, balancer or of anything inside the VPC can ever return two candidates, and
   nothing is refused but deletions of resources in use, so every creation refers to existing resources
   only. An attempt begins with whatever groups the stored cluster names, as long as they exist: none
   before the first PrepareCloud that got to its last step and after a CreateCluster, and the groups of an
   earlier attempt otherwise. A teardown begins with any recorded NAT gateway.
   */
  method AnyRun(a: Account, iam: Iam.Store, rec: Record, c: string, acts: seq<Act>)
    requires a.Valid() && Unique(c, a.res)
    requires Iam.Bounded(c, iam.roles, iam.profiles)
    requires forall i :: 0 <= i < |acts| && acts[i].TearDown? ==> acts[i].polls > 0
    modifies a, iam, rec
    ensures a.Valid() && Unique(c, a.res) && InUseOnly(old(a.refused), a.refused)
    ensures (forall i :: 0 <= i < |acts| ==> !acts[i].TearDown?) ==> a.refused == old(a.refused)
  {
    hide Unique, Iam.Bounded, Shrunk, Matches, Found, Refs;
    for i := 0 to |acts|
      invariant a.Valid() && Unique(c, a.res) && InUseOnly(old(a.refused), a.refused)
      invariant Iam.Bounded(c, iam.roles, iam.profiles)
      invariant (forall j :: 0 <= j < |acts| ==> !acts[j].TearDown?) ==> a.refused == old(a.refused)
    {
      match acts[i] {
        case Attempt(machine, env, loaded) =>
          rec.groups := if Known(loaded, a.res) then loaded else map[];
          AttemptOnce(a, iam, rec, c, machine, env, map[]);
        case Turn(id, live) =>
          ghost var before := a.res;
          a.Turn(id, live);
          TurnUnseen(c, before, id, live, a.res);
        case TearDown(polls, recorded) =>
          ghost var before := a.res;
          rec.natGateway := recorded;
          var _ := ApplyDelete(a, iam, rec, c, polls, map[], Net(None, None, None), false);
          ShrunkKeepsUnique(c, before, a.res);
      }
    }
  }

  lemma TurnUnseen(c: string, before: Resources, id: Id, live: bool, after: Resources)
    requires after == if id in before && before[id].kind == Instance
                      then before[id := before[id].(live := live)] else before
    ensures Unique(c, before) ==> Unique(c, after)
  {
    hide Unique, Matches, Found;
    if id in before && before[id].kind == Instance {
      InstanceUnseen(c, before, after, id);
    }
  }

  /** An instance that is not of the account at the start comes up or stops. */
  lemma TurnTended(c: string, others: Resources, before: Resources, id: Id, live: bool, after: Resources)
    requires after == if id in before && before[id].kind == Instance
                      then before[id := before[id].(live := live)] else before
    requires Tended(c, others, before) && id !in others
    ensures Tended(c, others, after)
  {
    hide Tended, Shaped, Kept;
    if after != before {
      var base, net := Basis(c, others, before);
      TurnKept(others, base, id, before[id].(live := live));
      TurnShaped(c, base, net, before, id, live);
      ShapedIsTended(c, others, if id in base then base[id := before[id].(live := live)] else base, net, after);
    }
  }

  lemma TurnKept(others: Resources, base: Resources, id: Id, r: Resource)
    requires Kept(others, base) && id !in others
    ensures Kept(others, base[id := r])
  {
  }

  lemma TurnShaped(c: string, base: Resources, net: Net, res: Resources, id: Id, live: bool)
    requires Shaped(c, base, net, res) && id in res && res[id].kind == Instance
    ensures var r := res[id].(live := live);
            Shaped(c, if id in base then base[id := r] else base, net, res[id := r])
  {
    var r := res[id].(live := live);
    TurnSame(c, res[id], live);
    hide Refs, Matches, Mine, Apart, Unseen, Closed, RefersDown, Stack;
    if id in base {
      StackBase(c, base, net, res);
      ApartUnseen(c, base, id);
      ApartGrows(c, base, id, r);
      TurnClosed(base, id, r);
      TurnOther(c, base, net, res, id, r);
    } else {
      TurnOurs(c, base, net, res, id, r);
    }
  }

  lemma TurnOther(c: string, base: Resources, net: Net, res: Resources, id: Id, r: Resource)
    requires Stack(c, base, net, res) && id in base
    requires r.kind == res[id].kind
    ensures Stack(c, base[id := r], net, res[id := r])
  {
    hide Refs, Matches, Mine;
    forall i | i in res && i !in base
      ensures Mine(c, net, i, res[i]) && RefersDown(base[id := r], res[id := r], res[i])
    {
      assert RefersDown(base, res, res[i]);
    }
  }

  lemma TurnOurs(c: string, base: Resources, net: Net, res: Resources, id: Id, r: Resource)
    requires Stack(c, base, net, res) && id in res && id !in base
    requires r.kind == res[id].kind && Refs(r) == Refs(res[id]) && Mine(c, net, id, r)
    ensures Stack(c, base, net, res[id := r])
  {
    hide Refs, Matches, Mine;
    var after := res[id := r];
    forall i | i in after && i !in base
      ensures Mine(c, net, i, after[i]) && RefersDown(base, after, after[i])
    {
      assert Mine(c, net, i, res[i]) && RefersDown(base, res, res[i]);
    }
  }

  lemma TurnClosed(base: Resources, id: Id, r: Resource)
    requires Closed(base) && id in base && Refs(r) == Refs(base[id])
    ensures Closed(base[id := r])
  {
    UpdateKeepsClosed(base, id, r);
  }

  lemma ApartUnseen(c: string, base: Resources, id: Id)
    requires Apart(c, base) && id in base
    ensures Unseen(c, base[id])
  {
    hide Matches;
    assert id !in Found(c, VpcQ, base) && id !in Found(c, BalancerQ, base) && id !in Found(c, KeyQ, base);
    assert id !in Found(c, AddressQ, base) && forall role :: id !in Found(c, InstanceQ(role), base);
  }

  /** Whether an instance runs is no part of what it refers to or of whose it is. */
  lemma TurnSame(c: string, r: Resource, live: bool)
    requires r.kind == Instance
    ensures Refs(r.(live := live)) == Refs(r)
    ensures forall net, i :: Mine(c, net, i, r) ==> Mine(c, net, i, r.(live := live))
    ensures Unseen(c, r) ==> Unseen(c, r.(live := live))
  {
    forall role
      ensures Matches(c, InstanceQ(role), r) <==> Matches(c, InstanceQ(role), r.(live := live))
    {
    }
  }

  lemma NothingRecorded(res: Resources)
    ensures Known(map[], res)
  {
  }

  lemma CleanIsUnique(c: string, machine: Text, res: Resources)
    requires Clean(c, machine, res)
    ensures Unique(c, res)
  {
    ApartIsUnique(c, res);
  }

  lemma ApartIsUnique(c: string, res: Resources)
    requires Apart(c, res)
    ensures Unique(c, res)
  {
  }

  /** What a pristine run has made stands in no teardown's way. */
  lemma ReadyIsClear(c: string, w: View, ids: Ids, net: Net, a: Account, rec: Record, done: set<Query>)
    requires w.pristine && Closed(w.base) && Clean(c, w.machine, w.base)
    requires On(c, w, net, ids.vpc, a, done) && Ready(c, w, ids, net, a, rec)
    ensures Shaped(c, w.base, net, a.res)
    ensures Honest(w.base, rec.natGateway, a.res) && Clear(c, rec.natGateway, a.res)
  {
    hide Matches, Refs, Found, Stack, Untouched, Closed, Apart, Known, Untagged;
    ShapedVpc(c, w.base, net, a.res);
    BaseElsewhere(w.base, ids.vpc);
    StackBase(c, w.base, net, a.res);
  }

  lemma StackBase(c: string, base: Resources, net: Net, res: Resources)
    requires Stack(c, base, net, res)
    ensures forall i :: i in base ==> i in res && res[i] == base[i]
  {
  }

  /** A failure-free PrepareCloud leaves what EnsureMaster needs, and EnsureMaster what teardown can clear. */
  method Provision(a: Account, iam: Iam.Store, rec: Record, c: string, machine: Text)
    returns (prepared: bool, started: bool, ghost net: Net)
    requires a.Valid() && a.reliable && Clean(c, machine, a.res)
    requires rec.groups == map[] && Iam.Absent(c, iam.roles, iam.profiles)
    requires Iam.Bounded(c, iam.roles, iam.profiles)
    modifies a, iam`roles, iam`profiles, rec
    ensures prepared && started && a.Valid() && a.refused == old(a.refused)
    ensures Shaped(c, old(a.res), net, a.res)
    ensures Honest(old(a.res), rec.natGateway, a.res) && Clear(c, rec.natGateway, a.res)
    ensures Iam.Bounded(c, iam.roles, iam.profiles)
    ensures Iam.OthersKept(c, old(iam.roles), iam.roles) && Iam.OthersKept(c, old(iam.profiles), iam.profiles)
  {
    hide Matches, Refs, Found, Progress, Stack, Unique, Shaped, Clean, Iam.Bounded, Iam.Complete, Iam.Absent;
    hide Alone, Bearers, Startable, Kept, Known, New, Placed, Clear, Honest, On, Iam.OthersKept, Closed;
    CleanIsUnique(c, machine, a.res);
    NothingRecorded(a.res);
    ghost var w := View(a.res, machine, a.reliable && CALM.fate.Comes? && Clean(c, machine, a.res), map[]);
    ghost var ids;
    prepared, ids, net := PrepareCloud(a, iam, rec, c, CALM, machine, map[]);
    ghost var before := a.res;
    started := EnsureMaster(a, c, rec, machine, CALM.comesUp, w, ids.value, net);
    StepsKeep(c, ids.value, w.base, rec.groups, before, a.res);
    ReadyIsClear(c, w, ids.value, net, a, rec, AllQueries(ids.value.vpc) + {MasterQ(machine)});
  }

  /**
   PrepareCloud, EnsureMaster, ApplyDelete. From an account that carries nothing of this cluster, and
   when no call fails, every step succeeds, nothing is ever refused, and the account and IAM are restored.
   */
  method ProvisionAndTearDown(a: Account, iam: Iam.Store, rec: Record, c: string, machine: Text, polls: nat)
    returns (prepared: bool, started: bool, deleted: bool)
    requires a.Valid() && a.reliable && Clean(c, machine, a.res) && polls > 0
    requires rec.groups == map[] && Iam.Absent(c, iam.roles, iam.profiles)
    requires Iam.Bounded(c, iam.roles, iam.profiles)
    modifies a, iam, rec
    ensures prepared && started && deleted
    ensures a.res == old(a.res) && a.refused == old(a.refused)
    ensures iam.roles == old(iam.roles) && iam.profiles == old(iam.profiles) && iam.refused == old(iam.refused)
  {
    hide Shaped, Clean, Clear, Honest, Fewer, Iam.Bounded;
    ghost var net;
    prepared, started, net := Provision(a, iam, rec, c, machine);
    deleted := ApplyDelete(a, iam, rec, c, polls, old(a.res), net, true);
    Iam.AbsentAgain(c, old(iam.roles), old(iam.profiles), iam.roles, iam.profiles);
  }

  /** The stored NAT gateway, if it is there, is the cluster's own. */
  predicate Remembers(c: string, natGateway: Option<Id>, res: Resources) {
    natGateway.Some? && natGateway.value in res ==> Own(c, Nat, natGateway.value, res)
  }

  lemma RememberedIsKnown(c: string, groups: map<Role, Id>, res: Resources)
    ensures Remembered(c, groups, res) ==> Known(groups, res)
    ensures Remembered(c, map[], res) && Known(map[], res)
  {
  }

  lemma OwnIsHonest(c: string, base: Resources, net: Net, recorded: Option<Id>, res: Resources)
    requires Shaped(c, base, net, res)
    ensures Remembers(c, recorded, res) || recorded.None? ==> Honest(base, recorded, res)
  {
    hide Shaped;
    if recorded.Some? && Remembers(c, recorded, res) && IsNat(recorded.value, res) {
      FoundIsOurs(c, base, net, res, res[recorded.value].vpc.value);
    }
  }

  /**
   Any sequence of attempts, each failing anywhere and beginning with whatever groups of the cluster are
   stored, and then a teardown in which no call fails, with the NAT gateway of the cluster that is stored, if
   any. It succeeds exactly when nothing stands in its way; then no deletion is refused, what was in the
   account before is there unchanged, and no lookup of a teardown finds anything.
   */
  method AttemptsThenTearDown(a: Account, iam: Iam.Store, rec: Record, c: string, acts: seq<Act>, polls: nat,
                              recorded: Option<Id>)
    returns (calm: Account, deleted: bool, ghost left: Resources)
    requires a.Valid() && Apart(c, a.res) && polls > 0 && Iam.Bounded(c, iam.roles, iam.profiles)
    requires forall i :: 0 <= i < |acts| ==> !acts[i].TearDown?
    requires forall i :: 0 <= i < |acts| && acts[i].Turn? ==> acts[i].id !in a.res
    modifies a, iam, rec
    ensures calm.Valid() && Tended(c, old(a.res), left)
    ensures deleted <==> Clear(c, rec.natGateway, left)
    ensures deleted ==> Kept(old(a.res), calm.res) && Apart(c, calm.res) && calm.refused == old(a.refused)
  {
    hide Unique, Iam.Bounded, Matches, Found, Refs, Tended, Remembered, Clear, Shaped, Fewer, Honest, Remembers,
         Known, Apart, Kept;
    ghost var others := a.res;
    ApartIsTended(c, a.res);
    ApartIsUnique(c, a.res);
    for i := 0 to |acts|
      invariant a.Valid() && Unique(c, a.res) && a.refused == old(a.refused)
      invariant Tended(c, others, a.res) && Iam.Bounded(c, iam.roles, iam.profiles)
    {
      match acts[i] {
        case Attempt(machine, env, loaded) =>
          rec.groups := if Remembered(c, loaded, a.res) then loaded else map[];
          RememberedIsKnown(c, loaded, a.res);
          AttemptOnce(a, iam, rec, c, machine, env, others);
        case Turn(id, live) =>
          ghost var before := a.res;
          a.Turn(id, live);
          TurnUnseen(c, before, id, live, a.res);
          TurnTended(c, others, before, id, live, a.res);
      }
    }
    left := a.res;
    rec.natGateway := if Remembers(c, recorded, a.res) then recorded else None;
    ghost var base, net := Basis(c, others, a.res);
    OwnIsHonest(c, base, net, rec.natGateway, a.res);
    calm := new Account.Resume(a);
    deleted := ApplyDelete(calm, iam, rec, c, polls, base, net, true);
  }
}
