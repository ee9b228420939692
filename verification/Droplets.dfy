/**
 The DigitalOcean machine actuator (cloud/providers/digitalocean/machine_actuator.go and the instance
 functions of cloud/providers/digitalocean/cloud.go) over a project whose droplet list is complete.
 */
module Droplets {
  import opened Wrappers
  import opened ProviderIds

  /** The calls that may fail, by where they are made. */
  datatype Call = List | Get | Token | Script | CreateDroplet | Wait | ListAgain | GetAgain | StatusUpdate
                | DeleteDroplet

  /** Droplet names by id; ids are positive. */
  type Names = map<nat, string>

  ghost predicate Unique(droplets: Names) {
    forall i, j :: i in droplets && j in droplets && droplets[i] == droplets[j] ==> i == j
  }

  predicate Exists(droplets: Names, name: string) {
    exists i | i in droplets :: droplets[i] == name
  }

  class Machine {
    const name: string
    /** The instance id in the provider status. */
    var instanceId: Option<nat>

    constructor (name: string)
      ensures this.name == name && instanceId == None
    {
      this.name, instanceId := name, None;
    }
  }

  /** The lookup finds an existing droplet when neither of its calls fails. */
  predicate Sees(droplets: Names, name: string, list: Call, get: Call, faults: set<Call>) {
    Exists(droplets, name) && list !in faults && get !in faults
  }

  /** CreateInstance is reached and its first call goes through. */
  predicate Creates(droplets: Names, name: string, valid: bool, faults: set<Call>) {
    && valid && !Sees(droplets, name, List, Get, faults)
    && Token !in faults && Script !in faults && CreateDroplet !in faults
  }

  class Project {
    var droplets: Names
    var next: nat

    ghost predicate Valid()
      reads this
    {
      0 < next && forall i :: i in droplets ==> 0 < i < next && IsInt(i)
    }

    constructor ()
      ensures Valid() && droplets == map[]
    {
      droplets, next := map[], 1;
    }

    /** instanceIfExists: an error and "not found" look alike to every caller. */
    method InstanceIfExists(name: string, list: Call, get: Call, faults: set<Call>) returns (id: Option<nat>)
      ensures id.Some? <==> Sees(droplets, name, list, get, faults)
      ensures id.Some? ==> id.value in droplets && droplets[id.value] == name
    {
      if list in faults {
        return None;
      }
      var listed := droplets;
      var todo := listed.Keys;
      while todo != {}
        invariant todo <= listed.Keys
        invariant forall i :: i in listed && listed[i] == name ==> i in todo
        decreases todo
      {
        var i :| i in todo;
        if listed[i] == name {
          if get in faults {
            return None;
          }
          return Some(i);
        }
        todo := todo - {i};
      }
      id := None;
    }

    /** CreateInstance: the droplet stays when the wait for it fails. */
    method CreateInstance(name: string, faults: set<Call>) returns (ok: bool)
      requires Valid() && IsInt(next)
      modifies this
      ensures Valid()
      ensures droplets == if CreateDroplet in faults then old(droplets) else old(droplets)[old(next) := name]
      ensures ok <==> CreateDroplet !in faults && Wait !in faults
    {
      if CreateDroplet in faults {
        return false;
      }
      droplets, next := droplets[next := name], next + 1;
      ok := Wait !in faults;
    }

    /** updateMachineStatus. */
    method UpdateMachineStatus(m: Machine, faults: set<Call>) returns (ok: bool)
      modifies m
      ensures ok <==> Sees(droplets, m.name, ListAgain, GetAgain, faults) && StatusUpdate !in faults
      ensures ok ==> m.instanceId.Some? && m.instanceId.value in droplets && droplets[m.instanceId.value] == m.name
    {
      var id := InstanceIfExists(m.name, ListAgain, GetAgain, faults);
      if id.None? {
        return false;
      }
      m.instanceId := id;
      ok := StatusUpdate !in faults;
    }

    /** Create; Exists reports an error of the lookup as "does not exist". */
    method Create(m: Machine, valid: bool, faults: set<Call>) returns (ok: bool)
      requires Valid() && IsInt(next)
      modifies this, m
      ensures Valid()
      ensures droplets == if Creates(old(droplets), m.name, valid, faults) then old(droplets)[old(next) := m.name]
                          else old(droplets)
      ensures ok ==> m.instanceId.Some? && m.instanceId.value in droplets && droplets[m.instanceId.value] == m.name
      ensures valid && faults == {} ==> ok
    {
      if !valid {
        return false;
      }
      var found := InstanceIfExists(m.name, List, Get, faults);
      if found.None? {
        if Token in faults || Script in faults {
          return false;
        }
        ok := CreateInstance(m.name, faults);
        if !ok {
          return;
        }
        assert droplets[old(next)] == m.name;
      }
      ok := UpdateMachineStatus(m, faults);
    }

    /** Update: a machine that is not seen is created, with a lookup and faults of its own. */
    method Update(m: Machine, valid: bool, faults: set<Call>, inner: set<Call>) returns (ok: bool)
      requires Valid() && IsInt(next)
      modifies this, m
      ensures Valid()
      ensures droplets ==
              if !Sees(old(droplets), m.name, List, Get, faults) && Creates(old(droplets), m.name, valid, inner)
              then old(droplets)[old(next) := m.name] else old(droplets)
      ensures ok ==> m.instanceId.Some? && m.instanceId.value in droplets && droplets[m.instanceId.value] == m.name
      ensures valid && faults == {} && inner == {} ==> ok
    {
      if !valid {
        return false;
      }
      var found := InstanceIfExists(m.name, List, Get, faults);
      if found.None? {
        ok := Create(m, valid, inner);
        return;
      }
      ok := UpdateMachineStatus(m, faults);
    }

    /** Delete always reports success; the id travels as printed text. */
    method Delete(m: Machine, faults: set<Call>) returns (ghost gone: Option<nat>)
      requires Valid()
      modifies this
      ensures Valid() && next == old(next)
      ensures gone.Some? <==> Sees(old(droplets), m.name, List, Get, faults) && DeleteDroplet !in faults
      ensures gone.Some? ==> gone.value in old(droplets) && old(droplets)[gone.value] == m.name
      ensures droplets == if gone.Some? then old(droplets) - {gone.value} else old(droplets)
    {
      gone := None;
      var found := InstanceIfExists(m.name, List, Get, faults);
      if found.None? {
        return;
      }
      var providerId := ProviderId(found.value);
      ProviderIdRoundTrip(found.value);
      var id := DropletId(providerId);
      if id.Some? && DeleteDroplet !in faults {
        droplets := droplets - {id.value as nat};
        gone := Some(id.value);
      }
    }
  }

  /** The lookup of a Create failed on a machine whose droplet exists. */
  predicate Blinded(droplets: Names, name: string, faults: set<Call>) {
    Exists(droplets, name) && (List in faults || Get in faults)
  }

  /**
   One Create keeps names unique exactly unless its lookup failed on an existing droplet and the
   creation went ahead.
   */
  lemma CreateDuplicatesExactly(droplets: Names, id: nat, name: string, valid: bool, faults: set<Call>)
    requires Unique(droplets) && id !in droplets
    ensures var after := if Creates(droplets, name, valid, faults) then droplets[id := name] else droplets;
            Unique(after) <==> !(Blinded(droplets, name, faults) && Creates(droplets, name, valid, faults))
  {
    var after := if Creates(droplets, name, valid, faults) then droplets[id := name] else droplets;
    if Blinded(droplets, name, faults) && Creates(droplets, name, valid, faults) {
      var i :| i in droplets && droplets[i] == name;
      assert after[i] == after[id] && i != id;
    }
  }

  datatype Op = CreateOp(m: Machine, valid: bool, faults: set<Call>)
              | UpdateOp(m: Machine, valid: bool, faults: set<Call>, inner: set<Call>)
              | DeleteOp(m: Machine, faults: set<Call>)

  /** The droplet lookups of the operation go through; anything else may fail. */
  predicate Truthful(op: Op) {
    && List !in op.faults && Get !in op.faults
    && (op.UpdateOp? ==> List !in op.inner && Get !in op.inner)
  }

  /**
   Any sequence of Create, Update and Delete calls, with truthful lookups and every other call failing
   at will: no machine name ever has a second droplet.
   */
  method Run(p: Project, ops: seq<Op>)
    requires p.Valid() && Unique(p.droplets)
    requires forall i :: 0 <= i < |ops| ==> Truthful(ops[i])
    modifies p, set i | 0 <= i < |ops| :: ops[i].m
    ensures p.Valid() && Unique(p.droplets)
  {
    for i := 0 to |ops|
      invariant p.Valid() && Unique(p.droplets)
    {
      if !IsInt(p.next) {
        return;
      }
      match ops[i] {
        case CreateOp(m, valid, faults) =>
          CreateDuplicatesExactly(p.droplets, p.next, m.name, valid, faults);
          var _ := p.Create(m, valid, faults);
        case UpdateOp(m, valid, faults, inner) =>
          CreateDuplicatesExactly(p.droplets, p.next, m.name, valid, inner);
          var _ := p.Update(m, valid, faults, inner);
        case DeleteOp(m, faults) =>
          ghost var _ := p.Delete(m, faults);
      }
    }
  }
}
