/**
 The life of one cluster: cloud/create.go, cloud/apply.go and cloud/delete.go over the stored cluster, its
 stored machines and machine sets, for any cloud provider. Every call that can fail is a `Call`; an `Env`
 says which of them fail and what the provider does to the store on the way.
 */
module Lifecycle {
  import opened Wrappers

  datatype Phase = Unknown | Pending | Ready | Deleting | Deleted | Upgrading

  /** The parts of a cluster that the life cycle decides on; `stamped` is a deletion timestamp. */
  datatype Cluster = Cluster(phase: Phase, stamped: bool)

  datatype MachineSet = MachineSet(name: string, replicas: int, stamped: bool)

  /** What has been done to a cluster. `Torn` carries the stored machine sets when teardown starts. */
  datatype Event = Prepared | MasterEnsured | MasterReady | Credentialed | ApiApplied | UuidStored | MarkedReady
                 | Scaled | Torn(sets: seq<MachineSet>)

  /** The calls that may fail, in the order they are made. */
  datatype Call = LoadOperation | LoadCluster | StoreRunning | Ack | StoreDone
                | GetForDelete | StoreDelete
                | Defaults | GetForCreate | CreateCerts | FirstManager | ProviderDefaults | StoreCluster
                | MasterSpec(i: nat) | StoreMaster(i: nat)
                | GetManager | SetConnector | PrepareCloud | ListMasters | ListForSku | UpdateMaster(i: nat)
                | GetLeader | EnsureMaster | AdminClient | WaitMaster | Credentials | ClusterApi
                | GetNamespace | StoreUuid | StoreReady
                | ListForScale | BootstrapClient | Endpoint | ApiClient
                | DeleteRemote(i: nat) | DropSet(i: nat) | ApplySet(i: nat) | ProviderScale
                | ListForDelete | DrainSet(i: nat) | StoreDeleting | Teardown | StoreDeleted

  /**
   `saves`: the provider calls that store the in-memory cluster whole before they return, whether or not
   they fail after it; `drops`: the machine sets a provider removes from the store when it scales or
   tears down.
   */
  datatype Env = Env(faults: set<Call>, saves: set<Call>, drops: set<string>)

  /** What has happened, in this order, by the time the phase Ready is stored. */
  function Steps(managed: bool): (steps: seq<Event>)
    ensures |steps| == if managed then 5 else 7
    ensures forall e :: e in steps ==> !e.Torn?
  {
    [Prepared] + (if managed then [] else [MasterEnsured]) + [MasterReady, Credentialed]
    + (if managed then [] else [ApiApplied]) + [UuidStored, MarkedReady]
  }

  lemma StepsAt(managed: bool)
    ensures var steps, k := Steps(managed), if managed then 1 else 2;
            && steps[0] == Prepared && steps[k] == MasterReady && steps[k + 1] == Credentialed
            && (!managed ==> steps[1] == MasterEnsured && steps[4] == ApiApplied)
            && steps[|steps| - 2] == UuidStored && steps[|steps| - 1] == MarkedReady
            && |steps| == if managed then k + 4 else k + 5
  {
  }

  /** Every call of setMasterSKU goes through. */
  predicate SkuStored(faults: set<Call>, masters: set<nat>) {
    ListMasters !in faults && ListForSku !in faults && forall i :: i in masters ==> UpdateMaster(i) !in faults
  }

  /** The first master is stored, and every call up to EnsureMaster goes through. */
  predicate MasterGoes(faults: set<Call>, masters: set<nat>) {
    SkuStored(faults, masters) && GetLeader !in faults && 0 in masters && EnsureMaster !in faults
  }

  /** Every call of ApplyCreate goes through, and an unmanaged cluster has its first master stored. */
  predicate Creatable(faults: set<Call>, managed: bool, masters: set<nat>) {
    && PrepareCloud !in faults
    && (managed || MasterGoes(faults, masters))
    && AdminClient !in faults && WaitMaster !in faults && Credentials !in faults
    && (managed || ClusterApi !in faults)
    && GetNamespace !in faults && StoreUuid !in faults && StoreReady !in faults
  }

  /** The event at `i` is the last of a complete, uninterrupted run of the steps. */
  ghost predicate EndsBlock(managed: bool, log: seq<Event>, i: nat)
    requires i < |log|
  {
    var n := |Steps(managed)|;
    n <= i + 1 && log[i + 1 - n..i + 1] == Steps(managed)
  }

  /** Whenever the phase Ready was stored, its steps came right before. */
  ghost predicate Vouched(managed: bool, log: seq<Event>) {
    forall i :: 0 <= i < |log| && log[i] == MarkedReady ==> EndsBlock(managed, log, i)
  }

  /**
   Ready is stored only over its steps. `mark` is the length of the log when something other than Ready was
   stored last: a stored Ready was logged after that.
   */
  ghost predicate Marked(managed: bool, stored: Cluster, log: seq<Event>, mark: nat) {
    && Vouched(managed, log) && mark <= |log|
    && (stored.phase == Ready ==> exists i :: mark <= i < |log| && log[i] == MarkedReady)
  }

  lemma BlockStays(managed: bool, log: seq<Event>, more: seq<Event>, i: nat)
    requires i < |log| && log <= more && EndsBlock(managed, log, i)
    ensures EndsBlock(managed, more, i)
  {
    hide Steps;
    var n := |Steps(managed)|;
    assert more[i + 1 - n..i + 1] == log[i + 1 - n..i + 1];
  }

  lemma VouchedPrefix(managed: bool, log: seq<Event>, more: seq<Event>)
    requires Vouched(managed, log) && log <= more
    requires forall i :: |log| <= i < |more| ==> more[i] != MarkedReady
    ensures Vouched(managed, more)
  {
    hide EndsBlock, Steps;
    forall i | 0 <= i < |more| && more[i] == MarkedReady
      ensures EndsBlock(managed, more, i)
    {
      assert i < |log| && log[i] == MarkedReady;
      BlockStays(managed, log, more, i);
    }
  }

  /** However far ApplyCreate gets. */
  lemma VouchedSteps(managed: bool, base: seq<Event>, n: nat)
    requires Vouched(managed, base) && n <= |Steps(managed)|
    ensures Vouched(managed, base + Steps(managed)[..n])
  {
    var steps := Steps(managed);
    StepsAt(managed);
    hide EndsBlock, Steps;
    if n < |steps| {
      VouchedPrefix(managed, base, base + steps[..n]);
    } else {
      var log, most := base + steps[..n], base + steps[..n - 1];
      VouchedPrefix(managed, base, most);
      forall i | 0 <= i < |log| && log[i] == MarkedReady
        ensures EndsBlock(managed, log, i)
      {
        if i == |log| - 1 {
          LastBlock(managed, base);
        } else {
          assert most <= log && most[i] == MarkedReady;
          BlockStays(managed, most, log, i);
        }
      }
    }
  }

  lemma LastBlock(managed: bool, base: seq<Event>)
    ensures var n := |Steps(managed)|; EndsBlock(managed, base + Steps(managed)[..n], |base| + n - 1)
  {
    hide Steps;
    var n := |Steps(managed)|;
    assert (base + Steps(managed)[..n])[|base|..|base| + n] == Steps(managed);
  }

  /** Steps that log no Ready keep what is marked, if they store Ready only where it was. */
  lemma MarkedStays(managed: bool, stored: Cluster, log: seq<Event>, mark: nat,
                    stored': Cluster, more: seq<Event>, mark': nat)
    requires Marked(managed, stored, log, mark) && log <= more && mark' <= |more|
    requires forall i :: |log| <= i < |more| ==> more[i] != MarkedReady
    requires stored'.phase == Ready ==> stored.phase == Ready && mark' == mark
    ensures Marked(managed, stored', more, mark')
  {
    VouchedPrefix(managed, log, more);
    if stored'.phase == Ready {
      var i :| mark <= i < |log| && log[i] == MarkedReady;
      assert more[i] == MarkedReady;
    }
  }

  lemma MarkBound(managed: bool, stored: Cluster, log: seq<Event>, mark: nat)
    ensures Marked(managed, stored, log, mark) ==> mark <= |log|
  {
  }

  /** ApplyCreate, as far as it gets. */
  lemma MarkedCreate(managed: bool, stored: Cluster, base: seq<Event>, mark: nat, n: nat,
                     stored': Cluster, mark': nat)
    requires Marked(managed, stored, base, mark) && n <= |Steps(managed)|
    requires mark' <= |base| + n
    requires stored'.phase == Ready ==>
               if n == |Steps(managed)| then mark' < |base| + n else stored.phase == Ready && mark' == mark
    ensures Marked(managed, stored', base + Steps(managed)[..n], mark')
  {
    var log := base + Steps(managed)[..n];
    VouchedSteps(managed, base, n);
    if stored'.phase == Ready {
      if n == |Steps(managed)| {
        assert log[|log| - 1] == MarkedReady;
      } else {
        var i :| mark <= i < |base| && base[i] == MarkedReady;
        assert log[i] == MarkedReady;
      }
    }
  }

  predicate AllDrained(sets: seq<MachineSet>) {
    forall i :: 0 <= i < |sets| ==> sets[i].replicas == 0 && sets[i].stamped
  }

  /** The sets but those with one of the names. */
  function Without(sets: seq<MachineSet>, names: set<string>): (kept: seq<MachineSet>)
    ensures forall s :: s in kept <==> s in sets && s.name !in names
  {
    if sets == [] then []
    else (if sets[0].name in names then [] else [sets[0]]) + Without(sets[1..], names)
  }

  lemma {:induction false} WithoutTwice(sets: seq<MachineSet>, a: set<string>, b: set<string>)
    ensures Without(Without(sets, a), b) == Without(sets, a + b)
  {
    if sets != [] {
      WithoutTwice(sets[1..], a, b);
      var rest := Without(sets[1..], a);
      if sets[0].name !in a {
        assert ([sets[0]] + rest)[1..] == rest;
        assert Without(sets, a) == [sets[0]] + rest;
      } else {
        assert Without(sets, a) == [] + rest == rest;
        assert Without(sets, a + b) == [] + Without(sets[1..], a + b) == Without(sets[1..], a + b);
      }
    }
  }

  lemma {:induction false} WithoutNone(sets: seq<MachineSet>)
    ensures Without(sets, {}) == sets
  {
    if sets != [] {
      WithoutNone(sets[1..]);
    }
  }

  function StampedNames(sets: seq<MachineSet>): set<string> {
    set s | s in sets && s.stamped :: s.name
  }

  lemma NothingScaled(sets: seq<MachineSet>)
    ensures Without(sets, StampedNames(sets[..0])) == sets
  {
    WithoutNone(sets);
    assert StampedNames(sets[..0]) == {};
  }

  function Total(sets: seq<MachineSet>): int {
    if sets == [] then 0 else Total(sets[..|sets| - 1]) + sets[|sets| - 1].replicas
  }

  /** A sum as a signed 32-bit integer. */
  function Wrap32(n: int): int { (n + 0x8000_0000) % 0x1_0000_0000 - 0x8000_0000 }

  lemma WrapAdd(a: int, b: int)
    ensures Wrap32(Wrap32(a) + b) == Wrap32(a + b)
  {
    var m := 0x1_0000_0000;
    var q := (a + 0x8000_0000) / m;
    assert Wrap32(a) == a - q * m;
    assert (Wrap32(a) + b + 0x8000_0000) == (a + b + 0x8000_0000) - q * m;
  }

  /** nodeCount. */
  method NodeCount(sets: seq<MachineSet>) returns (count: int)
    ensures count == Wrap32(Total(sets))
  {
    count := 0;
    for i := 0 to |sets|
      invariant count == Wrap32(Total(sets[..i]))
    {
      WrapAdd(Total(sets[..i]), sets[i].replicas);
      assert sets[..i + 1][..i] == sets[..i];
      count := Wrap32(count + sets[i].replicas);
    }
    assert sets[..|sets|] == sets;
  }

  /** A stored cluster with its machines and machine sets. */
  class Store {
    const managed: bool
    /** Whether the provider's teardown ends by storing the phase Deleted. */
    const marksDeleted: bool
    const version: string
    const masterCount: int
    const masterSku: int -> string
    var stored: Cluster
    var sets: seq<MachineSet>
    /** The SKU of every stored master machine, by its number. */
    var masters: map<nat, string>
    ghost var log: seq<Event>
    /** How long the log was when a phase other than Ready was stored last. */
    ghost var mark: nat

    constructor (managed: bool, marksDeleted: bool, version: string, masterCount: int, masterSku: int -> string,
                 stored: Cluster, sets: seq<MachineSet>)
      ensures this.managed == managed && this.marksDeleted == marksDeleted && this.version == version
      ensures this.masterCount == masterCount && this.masterSku == masterSku
      ensures this.stored == stored && this.sets == sets && masters == map[] && log == [] && mark == 0
    {
      this.managed, this.marksDeleted, this.version := managed, marksDeleted, version;
      this.masterCount, this.masterSku := masterCount, masterSku;
      this.stored, this.sets, masters, log, mark := stored, sets, map[], [], 0;
    }

    /** Clusters().Update or UpdateStatus goes through. */
    method Put(cluster: Cluster)
      modifies this`stored, this`mark
      ensures stored == cluster
      ensures mark == if cluster.phase == Ready then old(mark) else |log|
    {
      stored := cluster;
      if cluster.phase != Ready {
        mark := |log|;
      }
    }

    ghost predicate IsMarked()
      reads this
    {
      Marked(managed, stored, log, mark)
    }

    /** A complete log behind a stored Ready, and no teardown over machine sets that are not drained. */
    ghost predicate InOrder()
      reads this
    {
      IsMarked() && forall e :: e in log && e.Torn? ==> AllDrained(e.sets)
    }

    /** cloud.Delete. Even a Deleted cluster goes back to Deleting. */
    method Delete(env: Env) returns (cluster: Option<Cluster>)
      modifies this`stored, this`mark
      ensures old(InOrder()) ==> InOrder()
      ensures cluster == if GetForDelete in env.faults || StoreDelete in env.faults then None
                         else Some(Cluster(Deleting, true))
      ensures stored == if cluster.Some? then cluster.value else old(stored)
    {
      if GetForDelete in env.faults {
        return None;
      }
      var read := stored;
      read := read.(stamped := true);
      read := read.(phase := Deleting);
      if StoreDelete in env.faults {
        return None;
      }
      Put(read);
      cluster := Some(read);
    }
  }

  /** Once stamped for deletion, a cluster is Deleting or Deleted. */
  predicate Settled(c: Cluster) {
    c.stamped ==> c.phase in {Deleting, Deleted}
  }

  /** What Apply logs when it returns nil. */
  ghost function ApplyLog(managed: bool, c: Cluster, sets: seq<MachineSet>): seq<Event> {
    (if c.phase == Pending then Steps(managed) + [Scaled] else [])
    + (if c.stamped && c.phase != Deleted then [Torn(sets)] else [])
  }

  class Scope {
    const store: Store
    const env: Env
    /** The cluster in memory, which the cloud manager shares. */
    var cluster: Cluster

    constructor (store: Store, env: Env)
      ensures this.store == store && this.env == env && cluster == store.stored
    {
      this.store, this.env, cluster := store, env, store.stored;
    }

    /** The cluster in memory is not Ready before the stored one is. */
    ghost predicate Synced()
      reads this, store
    {
      cluster.phase == Ready ==> store.stored.phase == Ready
    }

    /** A call into the provider. */
    method Provider(call: Call) returns (ok: bool)
      modifies store`stored, store`mark
      ensures ok <==> call !in env.faults
      ensures store.stored == if call in env.saves then cluster else old(store.stored)
      ensures store.mark == if call in env.saves && cluster.phase != Ready then |store.log| else old(store.mark)
    {
      if call in env.saves {
        store.Put(cluster);
      }
      ok := call !in env.faults;
    }

    /** Every store call up to and including the write of createCluster goes through. */
    predicate StoresCluster()
      reads this
    {
      && store.version != ""
      && env.faults !! {Defaults, GetForCreate, CreateCerts, FirstManager, ProviderDefaults, StoreCluster}
    }

    /**
     CreateCluster. The cluster in memory becomes Pending even when nothing is stored; a failed lookup
     leads to a creation, which fails because the cluster is there.
     */
    method CreateCluster() returns (ok: bool)
      modifies this`cluster, store
      ensures cluster == if store.version != "" && Defaults !in env.faults
                         then old(cluster).(phase := Pending) else old(cluster)
      ensures store.stored == if StoresCluster() then cluster else old(store.stored)
      ensures store.sets == old(store.sets) && store.log == old(store.log)
      ensures old(store.InOrder()) ==> store.InOrder()
      ensures old(Synced()) ==> Synced()
      ensures old(cluster) == old(store.stored) && Settled(old(store.stored)) ==>
                (Settled(store.stored) <==> !(old(store.stored).stamped && StoresCluster()))
      ensures ok ==> StoresCluster()
      ensures env.faults == {} && store.version != "" && (store.managed || old(store.masters) == map[]) ==> ok
      ensures ok && !store.managed ==> Filled(old(store.masters), Max(store.masterCount), store.masters)
      ensures forall i :: i in old(store.masters) ==> i in store.masters && store.masters[i] == old(store.masters)[i]
      ensures store.managed ==> store.masters == old(store.masters) && (ok <==> StoresCluster())
    {
      if store.version == "" || Defaults in env.faults {
        return false;
      }
      cluster := cluster.(phase := Pending);
      if GetForCreate in env.faults {
        return false;
      }
      if CreateCerts in env.faults || FirstManager in env.faults || ProviderDefaults in env.faults {
        return false;
      }
      if StoreCluster in env.faults {
        return false;
      }
      store.Put(cluster);
      ghost var n;
      ok, n := CreateMasterMachines();
    }

    /** createMasterMachines: in order, stopping at the first that fails or is already stored. */
    method CreateMasterMachines() returns (ok: bool, ghost n: nat)
      modifies store`masters
      ensures Filled(old(store.masters), n, store.masters)
      ensures store.managed ==> ok && n == 0
      ensures !store.managed ==> n <= Max(store.masterCount) && (ok <==> n == Max(store.masterCount))
      ensures !ok ==> n in old(store.masters) || MasterSpec(n) in env.faults || StoreMaster(n) in env.faults
    {
      n := 0;
      if store.managed {
        return true, 0;
      }
      var i := 0;
      while i < store.masterCount
        invariant 0 <= i <= Max(store.masterCount) && Filled(old(store.masters), i, store.masters)
      {
        if MasterSpec(i) in env.faults || i in store.masters || StoreMaster(i) in env.faults {
          return false, i;
        }
        store.masters := store.masters[i := ""];
        i := i + 1;
      }
      ok, n := true, i;
    }

    /** setMasterSKU. */
    method SetMasterSku() returns (ok: bool)
      modifies store`masters
      ensures ok <==> SkuStored(env.faults, store.masters.Keys)
      ensures store.masters.Keys == old(store.masters).Keys
      ensures forall i :: i in store.masters ==>
                store.masters[i] == store.masterSku(Wrap32(Total(store.sets)))
                    || (!ok && store.masters[i] == old(store.masters)[i])
    {
      if ListMasters in env.faults || ListForSku in env.faults {
        return false;
      }
      var total := NodeCount(store.sets);
      var sku := store.masterSku(total);
      var todo := store.masters.Keys;
      while todo != {}
        invariant todo <= store.masters.Keys == old(store.masters).Keys
        invariant forall i :: i in store.masters && i !in todo ==>
                    store.masters[i] == sku && UpdateMaster(i) !in env.faults
        invariant forall i :: i in todo ==> store.masters[i] == old(store.masters)[i]
        decreases todo
      {
        var i :| i in todo;
        if UpdateMaster(i) in env.faults {
          return false;
        }
        store.masters := store.masters[i := sku];
        todo := todo - {i};
      }
      ok := true;
    }

    /** The part of ApplyCreate that is for unmanaged clusters only: SKU, leader, EnsureMaster. */
    method StartMaster() returns (ok: bool)
      modifies store`stored, store`masters, store`mark
      ensures store.mark == old(store.mark) || store.mark == |store.log|
      ensures store.stored != old(store.stored) ==> store.stored == cluster
      ensures store.stored.phase == Ready && cluster.phase != Ready ==> store.mark == old(store.mark)
      ensures ok <==> MasterGoes(env.faults, store.masters.Keys)
      ensures store.stored in {old(store.stored), cluster}
      ensures store.masters.Keys == old(store.masters).Keys
    {
      ok := SetMasterSku();
      if !ok {
        return;
      }
      if GetLeader in env.faults || 0 !in store.masters {
        return false;
      }
      ok := Provider(EnsureMaster);
    }

    /** The next step of ApplyCreate is done. */
    ghost method Note(base: seq<Event>, n: nat, e: Event)
      requires n < |Steps(store.managed)| && Steps(store.managed)[n] == e
      requires store.log == base + Steps(store.managed)[..n]
      modifies store`log
      ensures store.log == base + Steps(store.managed)[..n + 1]
      ensures n + 1 == |Steps(store.managed)| ==> store.log == base + Steps(store.managed)
    {
      hide Steps;
      store.log := store.log + [e];
    }

    /** The end of ApplyCreate: the UUID and the phase Ready are stored. */
    method MarkReady(ghost base: seq<Event>) returns (ok: bool)
      requires store.log == base + Steps(store.managed)[..|Steps(store.managed)| - 2]
      modifies this`cluster, store`stored, store`log, store`mark
      ensures store.mark == old(store.mark)
      ensures ok <==> env.faults !! {GetNamespace, StoreUuid, StoreReady}
      ensures ok ==> cluster == old(cluster).(phase := Ready) && store.stored == old(store.stored).(phase := Ready)
      ensures ok ==> store.log == base + Steps(store.managed)
      ensures !ok ==> store.stored == old(store.stored) && cluster.stamped == old(cluster).stamped
      ensures !ok ==> exists n :: 0 <= n < |Steps(store.managed)| && store.log == base + Steps(store.managed)[..n]
      ensures |store.log| >= |old(store.log)|
    {
      hide Steps;
      StepsAt(store.managed);
      if GetNamespace in env.faults || StoreUuid in env.faults {
        return false;
      }
      Note(base, |Steps(store.managed)| - 2, UuidStored);
      cluster := cluster.(phase := Ready);
      if StoreReady in env.faults {
        return false;
      }
      store.Put(store.stored.(phase := Ready));
      Note(base, |Steps(store.managed)| - 1, MarkedReady);
      ok := true;
    }

    /** ApplyCreate: the phase Ready is stored exactly when every call went through, in this order. */
    method ApplyCreate() returns (ok: bool)
      modifies this`cluster, store
      ensures ok <==> Creatable(env.faults, store.managed, store.masters.Keys)
      ensures ok ==> cluster == old(cluster).(phase := Ready) && store.stored.phase == Ready
      ensures ok ==> store.log == old(store.log) + Steps(store.managed)
      ensures store.stored.stamped in {old(store.stored).stamped, old(cluster).stamped}
      ensures !ok ==> store.stored in {old(store.stored), old(cluster)}
      ensures !ok ==> exists n :: 0 <= n < |Steps(store.managed)|
                                  && store.log == old(store.log) + Steps(store.managed)[..n]
      ensures cluster.stamped == old(cluster).stamped
      ensures store.sets == old(store.sets) && store.masters.Keys == old(store.masters).Keys
      ensures old(store.IsMarked()) && old(cluster).phase != Ready ==> store.IsMarked()
    {
      hide Steps, Creatable, Marked;
      ghost var stored, log, mark := store.stored, store.log, store.mark;
      ghost var pending, marked := cluster.phase != Ready, store.IsMarked();
      MarkBound(store.managed, stored, log, mark);
      ok := RunSteps();
      if pending && marked {
        ghost var steps := Steps(store.managed);
        if ok {
          assert steps[..|steps|] == steps;
          MarkedCreate(store.managed, stored, log, mark, |steps|, store.stored, store.mark);
        } else {
          ghost var n :| 0 <= n < |steps| && store.log == log + steps[..n];
          MarkedCreate(store.managed, stored, log, mark, n, store.stored, store.mark);
        }
      }
    }

    /** The part of ApplyCreate that waits for the master and gives it credentials and cluster API objects. */
    method ReachMaster(ghost base: seq<Event>) returns (ok: bool)
      requires store.log == base + Steps(store.managed)[..if store.managed then 1 else 2]
      modifies store`stored, store`log, store`mark
      ensures ok <==>
                env.faults !! {AdminClient, WaitMaster, Credentials} && (store.managed || ClusterApi !in env.faults)
      ensures ok ==> store.log == base + Steps(store.managed)[..|Steps(store.managed)| - 2]
      ensures !ok ==> exists n :: 0 <= n < |Steps(store.managed)| && store.log == base + Steps(store.managed)[..n]
      ensures store.stored in {old(store.stored), cluster}
      ensures store.mark == old(store.mark) || (store.mark <= |store.log| && store.stored.phase != Ready)
      ensures |store.log| >= |old(store.log)|
    {
      hide Steps;
      StepsAt(store.managed);
      ghost var k := if store.managed then 1 else 2;
      if AdminClient in env.faults || WaitMaster in env.faults {
        return false;
      }
      Note(base, k, MasterReady);
      if Credentials in env.faults {
        return false;
      }
      Note(base, k + 1, Credentialed);
      ok := true;
      if !store.managed {
        ok := Provider(ClusterApi);
        if !ok {
          return;
        }
        Note(base, 4, ApiApplied);
      }
    }

    /** The calls of ApplyCreate. */
    method RunSteps() returns (ok: bool)
      modifies this`cluster, store
      ensures ok <==> Creatable(env.faults, store.managed, store.masters.Keys)
      ensures ok ==> cluster == old(cluster).(phase := Ready) && store.stored.phase == Ready
      ensures ok ==> store.log == old(store.log) + Steps(store.managed)
      ensures store.stored.stamped in {old(store.stored).stamped, old(cluster).stamped}
      ensures !ok ==> store.stored in {old(store.stored), old(cluster)}
      ensures !ok ==> exists n :: 0 <= n < |Steps(store.managed)|
                                  && store.log == old(store.log) + Steps(store.managed)[..n]
      ensures cluster.stamped == old(cluster).stamped
      ensures store.sets == old(store.sets) && store.masters.Keys == old(store.masters).Keys
      ensures old(store.mark) <= |old(store.log)| ==> store.mark <= |store.log| && (ok ==> store.mark < |store.log|)
      ensures !ok && old(cluster).phase != Ready && store.stored.phase == Ready ==>
                old(store.stored).phase == Ready && store.mark == old(store.mark)
    {
      hide Steps, SkuStored, MasterGoes;
      StepsAt(store.managed);
      ghost var base := store.log;
      assert base + Steps(store.managed)[..0] == base;
      ok := Provider(PrepareCloud);
      if !ok {
        return;
      }
      Note(base, 0, Prepared);
      if !store.managed {
        ok := StartMaster();
        if !ok {
          return;
        }
        Note(base, 1, MasterEnsured);
      }
      ok := ReachMaster(base);
      if !ok {
        return;
      }
      ok := MarkReady(base);
    }

    /** The machine-set loop of ApplyScale: stamped sets are removed and the others applied, up to a failure. */
    method ScaleSets() returns (ok: bool, ghost n: nat)
      modifies store`sets
      ensures n <= |old(store.sets)| && (ok ==> n == |old(store.sets)|)
      ensures store.sets == Without(old(store.sets), StampedNames(old(store.sets)[..n]))
      ensures !ok ==> n < |old(store.sets)|
      ensures !ok && old(store.sets)[n].stamped ==> DeleteRemote(n) in env.faults || DropSet(n) in env.faults
      ensures !ok && !old(store.sets)[n].stamped ==> ApplySet(n) in env.faults
    {
      hide Without;
      var listed := store.sets;
      assert StampedNames(listed[..0]) == {};
      WithoutNone(listed);
      for i := 0 to |listed|
        invariant store.sets == Without(listed, StampedNames(listed[..i]))
      {
        assert listed[..i + 1] == listed[..i] + [listed[i]];
        if listed[i].stamped {
          if DeleteRemote(i) in env.faults || DropSet(i) in env.faults {
            return false, i;
          }
          WithoutTwice(listed, StampedNames(listed[..i]), {listed[i].name});
          assert StampedNames(listed[..i + 1]) == StampedNames(listed[..i]) + {listed[i].name};
          store.sets := Without(store.sets, {listed[i].name});
        } else {
          assert StampedNames(listed[..i + 1]) == StampedNames(listed[..i]);
          if ApplySet(i) in env.faults {
            return false, i;
          }
        }
      }
      ok, n := true, |listed|;
    }

    /** ApplyScale; a managed provider scales in its own way. */
    method ApplyScale() returns (ok: bool)
      modifies store
      ensures store.log == if ok then old(store.log) + [Scaled] else old(store.log)
      ensures env.faults == {} ==> ok
      ensures store.masters == old(store.masters)
      ensures cluster.phase == Ready ==> store.mark == old(store.mark)
      ensures old(store.mark) <= |old(store.log)| ==> store.mark <= |store.log|
      ensures store.stored == if store.managed && ProviderScale in env.saves then cluster else old(store.stored)
      ensures store.managed ==>
                ok == (ProviderScale !in env.faults) && store.sets == Without(old(store.sets), env.drops)
      ensures !store.managed && ok ==> store.sets == Without(old(store.sets), StampedNames(old(store.sets)))
      ensures !store.managed && !ok ==>
                exists n: nat ::
                  n <= |old(store.sets)| && store.sets == Without(old(store.sets), StampedNames(old(store.sets)[..n]))
    {
      hide Without, StampedNames;
      ghost var was := store.sets;
      if store.managed {
        ok := Provider(ProviderScale);
        store.sets := Without(store.sets, env.drops);
        if ok {
          store.log := store.log + [Scaled];
        }
        return;
      }
      if ListForScale in env.faults || BootstrapClient in env.faults || Endpoint in env.faults
          || ApiClient in env.faults {
        NothingScaled(was);
        return false;
      }
      ghost var n;
      ok, n := ScaleSets();
      if ok {
        assert was[..n] == was;
        store.log := store.log + [Scaled];
      }
    }

    /** The machine-set loop of Apply: every set stored with no replicas and a stamp. */
    method DrainSets() returns (ok: bool)
      modifies store`sets
      ensures |store.sets| == |old(store.sets)|
      ensures forall i :: 0 <= i < |store.sets| ==> store.sets[i].name == old(store.sets)[i].name
      ensures ok <==> env.faults !! {ListForDelete} + set i | 0 <= i < |store.sets| :: DrainSet(i)
      ensures ok ==> AllDrained(store.sets)
      ensures exists n :: 0 <= n <= |store.sets| && AllDrained(store.sets[..n])
                          && store.sets[n..] == old(store.sets)[n..]
    {
      if ListForDelete in env.faults {
        assert AllDrained(store.sets[..0]);
        return false;
      }
      var i := 0;
      while i < |store.sets|
        invariant 0 <= i <= |store.sets| == |old(store.sets)|
        invariant AllDrained(store.sets[..i]) && store.sets[i..] == old(store.sets)[i..]
        invariant forall j :: 0 <= j < |store.sets| ==> store.sets[j].name == old(store.sets)[j].name
        invariant forall j :: 0 <= j < i ==> DrainSet(j) !in env.faults
      {
        if DrainSet(i) in env.faults {
          return false;
        }
        assert store.sets[i] == store.sets[i..][0];
        store.sets := store.sets[i := store.sets[i].(replicas := 0, stamped := true)];
        i := i + 1;
      }
      assert store.sets[..i] == store.sets;
      ok := true;
    }

    /**
     ApplyDelete and the provider's teardown, which must not start before every machine set is drained.
     Failures to delete the workers are only logged.
     */
    method ApplyDelete() returns (ok: bool)
      requires AllDrained(store.sets)
      requires cluster.phase in {Ready, Deleting}
      modifies this`cluster, store
      ensures ok <==> env.faults !! {StoreDeleting, Teardown} + if store.marksDeleted then {StoreDeleted} else {}
      ensures cluster.stamped == old(cluster).stamped
      ensures ok ==> store.stored.phase == if store.marksDeleted then Deleted else Deleting
      ensures store.stored == old(store.stored) || store.stored.phase in {Deleting, Deleted}
      ensures store.stored.stamped in {old(store.stored).stamped, old(cluster).stamped}
      ensures AllDrained(store.sets) && store.masters == old(store.masters)
      ensures store.log == old(store.log) + if StoreDeleting in env.faults then [] else [Torn(old(store.sets))]
      ensures old(store.mark) <= |old(store.log)| ==> store.mark <= |store.log|
      ensures store.stored.phase == Ready ==> store.mark == old(store.mark)
    {
      if cluster.phase == Ready {
        cluster := cluster.(phase := Deleting);
      }
      if StoreDeleting in env.faults {
        return false;
      }
      store.Put(store.stored.(phase := cluster.phase));
      store.log := store.log + [Torn(store.sets)];
      ok := Provider(Teardown);
      store.sets := Without(store.sets, env.drops);
      if !ok {
        return;
      }
      if store.marksDeleted {
        cluster := cluster.(phase := Deleted);
        if StoreDeleted in env.faults {
          return false;
        }
        store.Put(if StoreDeleted in env.saves then cluster else store.stored.(phase := Deleted));
      }
    }

    /** The end of Apply, for a stamped cluster: teardown is reached only over drained sets. */
    method DrainAndDelete() returns (ok: bool)
      requires cluster.phase in {Ready, Deleting}
      modifies this`cluster, store
      ensures env.faults == {} ==> ok
      ensures cluster.stamped == old(cluster).stamped
      ensures ok ==> store.stored.phase == if store.marksDeleted then Deleted else Deleting
      ensures store.stored == old(store.stored) || store.stored.phase in {Deleting, Deleted}
      ensures store.stored.stamped in {old(store.stored).stamped, old(cluster).stamped}
      ensures store.masters == old(store.masters)
      ensures (!ok && store.log == old(store.log))
              || exists sets :: AllDrained(sets) && store.log == old(store.log) + [Torn(sets)]
      ensures old(store.IsMarked()) ==> store.IsMarked()
    {
      hide Marked;
      ghost var stored, log, mark := store.stored, store.log, store.mark;
      MarkBound(store.managed, stored, log, mark);
      ok := DrainSets();
      if ok {
        ok := ApplyDelete();
      }
      if Marked(store.managed, stored, log, mark) {
        MarkedStays(store.managed, stored, log, mark, store.stored, store.log, store.mark);
      }
    }

    /** Apply gets to create the cluster, and every call of that goes through. */
    predicate Creates()
      reads this, store
    {
      && cluster.phase == Pending && GetManager !in env.faults && SetConnector !in env.faults
      && Creatable(env.faults, store.managed, store.masters.Keys)
    }

    /**
     Apply. Clause by clause: what it refuses; what a nil result means for the log and for the stored phase;
     what a failure leaves stored; when Ready can be stored; when teardown can start; what a stamp implies.
     */
    method Apply() returns (ok: bool)
      modifies this`cluster, store
      ensures ok ==> old(cluster).phase !in {Unknown, Upgrading}
      ensures env.faults == {} && old(cluster).phase !in {Unknown, Upgrading} ==>
                (ok <==> old(cluster).phase != Pending || store.managed || 0 in old(store.masters))
      ensures old(cluster).phase in {Unknown, Upgrading, Deleted}
              || GetManager in env.faults || SetConnector in env.faults ==>
                && ok == (old(cluster).phase == Deleted)
                && store.stored == old(store.stored) && store.log == old(store.log) && store.sets == old(store.sets)
      ensures ok ==> exists sets :: AllDrained(sets)
                                    && store.log == old(store.log) + ApplyLog(store.managed, old(cluster), sets)
      ensures old(Creates()) ==> old(store.log) + Steps(store.managed) <= store.log
      ensures old(Creates()) && !old(cluster).stamped ==>
                store.stored.phase == Ready && (!ok ==> store.log == old(store.log) + Steps(store.managed))
      ensures old(cluster).phase == Pending && !old(Creates()) ==>
                !ok && store.stored in {old(store.stored), old(cluster)} && store.sets == old(store.sets)
      ensures old(cluster).phase in {Ready, Deleting} && !old(cluster).stamped ==>
                store.stored == old(store.stored) && store.sets == old(store.sets) && store.log == old(store.log)
      ensures ok && old(cluster).stamped && old(cluster).phase != Deleted ==>
                store.stored.phase == if store.marksDeleted then Deleted else Deleting
      ensures old(store.log) <= store.log
      ensures store.stored == old(store.stored) || store.stored == old(cluster)
              || (store.stored.phase in {Deleting, Deleted} && old(cluster).stamped)
              || (old(cluster).phase == Pending && old(store.log) + Steps(store.managed) <= store.log)
      ensures forall e :: e in store.log && e.Torn? ==> e in old(store.log) || AllDrained(e.sets)
      ensures store.stored.stamped in {old(store.stored).stamped, old(cluster).stamped}
      ensures old(cluster) == old(store.stored) && Settled(old(store.stored)) ==> Settled(store.stored)
      ensures store.masters.Keys == old(store.masters).Keys
      ensures old(store.InOrder()) && old(Synced()) ==> store.InOrder()
    {
      hide Steps, Without, Marked;
      if cluster.phase == Unknown {
        return false;
      }
      if cluster.phase == Deleted {
        assert AllDrained([]);
        return true;
      }
      if cluster.phase == Upgrading || GetManager in env.faults || SetConnector in env.faults {
        return false;
      }
      if cluster.phase == Pending {
        ok := ApplyCreate();
        if !ok {
          return;
        }
        ghost var stored, log, mark := store.stored, store.log, store.mark;
        MarkBound(store.managed, stored, log, mark);
        ok := ApplyScale();
        if Marked(store.managed, stored, log, mark) {
          MarkedStays(store.managed, stored, log, mark, store.stored, store.log, store.mark);
        }
        if !ok {
          return;
        }
      }
      if cluster.stamped && cluster.phase != Deleted {
        ok := DrainAndDelete();
        if !ok {
          return;
        }
      }
      assert AllDrained([]);
      ok := true;
    }
  }

  /**
   A cluster that is Ready and not stamped is never scaled by Apply, however often it is retried: after a
   failed ApplyScale the machine sets stay as they are.
   */
  method Retries(store: Store, envs: seq<Env>)
    requires store.stored == Cluster(Ready, false)
    modifies store
    ensures store.stored == old(store.stored) && store.sets == old(store.sets) && store.log == old(store.log)
  {
    for i := 0 to |envs|
      invariant store.stored == old(store.stored) && store.sets == old(store.sets) && store.log == old(store.log)
    {
      var scope := new Scope(store, envs[i]);
      var _ := scope.Apply();
    }
  }

  /** The range of a loop counter that starts at zero. */
  function Max(n: int): nat { if n < 0 then 0 else n }

  /** Masters 0 to n - 1 were added, with no SKU yet. */
  ghost predicate Filled(before: map<nat, string>, n: nat, after: map<nat, string>) {
    && (forall i: nat :: i < n ==> i !in before)
    && (forall i: nat :: i in after <==> i in before || i < n)
    && (forall i :: i in before ==> i in after && after[i] == before[i])
    && (forall i: nat :: i < n ==> i in after && after[i] == "")
  }
}
