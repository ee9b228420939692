/**
 The upgrade planner (cloud/upm.go, cloud/version.go, apis/v1alpha1/upgrade.go): which control-plane
 upgrades are on offer, and whether kubelets follow.
 */
module UpgradePlan {
  import opened Wrappers
  import opened Semver
  import opened Strings

  /** A version as it was reported, with its parse. */
  datatype Release = Release(text: string, version: Version)

  datatype Offer = PatchOffer | StableOffer

  datatype Upgrade = Upgrade(offer: Offer, kube: Release, kubeadm: Release)

  predicate PatchBranchExists(cluster: Version, stable: Version) { AtLeast(stable, cluster) }

  predicate PatchUpgradePossible(cluster: Version, patch: Version) { LessThan(cluster, patch) }

  predicate MinorUpgradePossible(stable: Version, patch: Version) { LessThan(patch, stable) }

  /** What is on offer, read off the order alone. */
  function Plan(cluster: Release, kubeadm: Release, stable: Release, patch: Release): seq<Upgrade> {
    if !AtLeast(stable.version, cluster.version) then []
    else
      (if LessThan(cluster.version, patch.version)
       then [Upgrade(PatchOffer, patch, if AtLeast(kubeadm.version, patch.version) then kubeadm else patch)]
       else [])
      + (if LessThan(patch.version, stable.version) then [Upgrade(StableOffer, stable, stable)] else [])
  }

  /**
   GetAvailableUpgrades. The cluster and kubeadm versions must be readable; a stable version that is not
   falls back to kubeadm's; the branch of the cluster is looked up only when stable is not behind it.
   */
  method GetAvailableUpgrades(cluster: Option<Release>, kubeadm: Option<Release>, stable: Option<Release>,
                              kubeletsListed: bool, latest: (nat, nat) -> Option<Release>)
    returns (result: Option<seq<Upgrade>>)
    ensures result.Some? <==>
              && cluster.Some? && kubeadm.Some? && kubeletsListed
              && var top := if stable.Some? then stable.value else kubeadm.value;
                 AtLeast(top.version, cluster.value.version) ==>
                   latest(cluster.value.version.major, cluster.value.version.minor).Some?
    ensures result.Some? ==>
              var top := if stable.Some? then stable.value else kubeadm.value;
              if AtLeast(top.version, cluster.value.version)
              then result.value == Plan(cluster.value, kubeadm.value, top,
                                        latest(cluster.value.version.major, cluster.value.version.minor).value)
              else result.value == []
  {
    if cluster.None? || kubeadm.None? {
      return None;
    }
    var top := if stable.Some? then stable.value else kubeadm.value;
    if !kubeletsListed {
      return None;
    }
    var current := cluster.value.version;
    TotalPreorder(current, top.version, current);
    var upgrades := [];
    var canDoMinorUpgrade := LessThan(current, top.version);
    if PatchBranchExists(current, top.version) {
      var found := latest(current.major, current.minor);
      if found.None? {
        return None;
      }
      var patch := found.value;
      canDoMinorUpgrade := MinorUpgradePossible(top.version, patch.version);
      if PatchUpgradePossible(current, patch.version) {
        var newKubeadm := patch;
        if AtLeast(kubeadm.value.version, patch.version) {
          newKubeadm := kubeadm.value;
        }
        upgrades := upgrades + [Upgrade(PatchOffer, patch, newKubeadm)];
      }
    }
    if canDoMinorUpgrade {
      upgrades := upgrades + [Upgrade(StableOffer, top, top)];
    }
    result := Some(upgrades);
  }

  /** What each offer of a plan guarantees, for all versions. */
  lemma OffersAreRight(cluster: Release, kubeadm: Release, stable: Release, patch: Release)
    ensures var plan := Plan(cluster, kubeadm, stable, patch);
            forall u :: u in plan ==>
              && (u.offer == PatchOffer ==>
                    && u.kube == patch && LessThan(cluster.version, patch.version)
                    && AtLeast(u.kubeadm.version, patch.version) && (u.kubeadm == patch || u.kubeadm == kubeadm))
              && (u.offer == StableOffer ==>
                    && u.kube == stable && u.kubeadm == stable && AtLeast(stable.version, cluster.version)
                    && (AtLeast(patch.version, cluster.version) ==> LessThan(cluster.version, stable.version)))
    ensures |Plan(cluster, kubeadm, stable, patch)| <= 2
    ensures |Plan(cluster, kubeadm, stable, patch)| == 2 ==>
              && Plan(cluster, kubeadm, stable, patch)[0].offer == PatchOffer
              && Plan(cluster, kubeadm, stable, patch)[1].offer == StableOffer
              && LessThan(cluster.version, patch.version) && LessThan(patch.version, stable.version)
  {
    hide Compare;
    var c, s, p := cluster.version, stable.version, patch.version;
    TotalPreorder(c, s, p);
    TotalPreorder(p, p, p);
    TotalPreorder(c, p, s);
    TotalPreorder(p, c, s);
    TotalPreorder(s, p, c);
  }

  /** There is nothing to do exactly when stable is behind, or all three versions tie. */
  lemma NothingToOffer(cluster: Release, kubeadm: Release, stable: Release, patch: Release)
    ensures Plan(cluster, kubeadm, stable, patch) == [] <==>
              || LessThan(stable.version, cluster.version)
              || (SamePrecedence(cluster.version, patch.version) && SamePrecedence(patch.version, stable.version))
  {
    hide Compare;
    var c, s, p := cluster.version, stable.version, patch.version;
    TotalPreorder(s, c, p);
    TotalPreorder(c, p, s);
    TotalPreorder(p, s, c);
    TotalPreorder(s, p, c);
    Ties(c, p);
    Ties(p, s);
  }

  lemma Ties(v: Version, w: Version)
    ensures SamePrecedence(v, w) <==> AtLeast(v, w) && AtLeast(w, v)
  {
    TotalPreorder(v, w, v);
    TotalPreorder(w, v, w);
    var i, j := Compare(v, w), Compare(w, v);
    CompareRange(v, w);
  }

  lemma CompareRange(v: Version, w: Version)
    ensures -1 <= Compare(v, w) <= 1
  {
    PreLaws(v.pre, w.pre, v.pre);
  }

  // ---- Kubelets --------------------------------------------------------------------------------

  const WORD: nat := 0x1_0000_0000

  /** `counts` is the tally of `nodes`, modulo the word size. */
  ghost predicate Tally(nodes: seq<string>, counts: map<string, nat>) {
    && (forall v :: v in counts <==> v in multiset(nodes))
    && (forall v :: v in counts ==> counts[v] == multiset(nodes)[v] % WORD)
  }

  lemma TallyOneMore(nodes: seq<string>, i: nat, counts: map<string, nat>)
    requires i < |nodes| && Tally(nodes[..i], counts)
    ensures Tally(nodes[..i + 1],
                  counts[nodes[i] := if nodes[i] in counts then (counts[nodes[i]] + 1) % WORD else 1])
  {
    assert nodes[..i + 1] == nodes[..i] + [nodes[i]];
    var before, after := multiset(nodes[..i]), multiset(nodes[..i + 1]);
    assert after == before + multiset{nodes[i]};
    OneMore(before, after, counts, nodes[i]);
  }

  lemma OneMore(before: multiset<string>, after: multiset<string>, counts: map<string, nat>, v: string)
    requires after == before + multiset{v}
    requires forall x :: x in counts <==> x in before
    requires forall x :: x in counts ==> counts[x] == before[x] % WORD
    ensures var more := counts[v := if v in counts then (counts[v] + 1) % WORD else 1];
            && (forall x :: x in more <==> x in after)
            && (forall x :: x in more ==> more[x] == after[x] % WORD)
  {
    var more := counts[v := if v in counts then (counts[v] + 1) % WORD else 1];
    NextCount(before[v]);
    assert after[v] == before[v] + 1;
    forall x | x != v
      ensures (x in more <==> x in after) && (x in more ==> more[x] == after[x] % WORD)
    {
      assert after[x] == before[x];
    }
  }

  lemma NextCount(n: nat)
    ensures (n % WORD + 1) % WORD == (n + 1) % WORD
  {
  }

  /** computeKubeletVersions; the counters are 32-bit and wrap. */
  method ComputeKubeletVersions(nodes: seq<string>) returns (counts: map<string, nat>)
    ensures Tally(nodes, counts)
  {
    hide Tally;
    counts := map[];
    assert Tally(nodes[..0], counts) by {
      TallyNone();
      assert nodes[..0] == [];
    }
    for i := 0 to |nodes|
      invariant Tally(nodes[..i], counts)
    {
      TallyOneMore(nodes, i, counts);
      var v := nodes[i];
      if v !in counts {
        counts := counts[v := 1];
        continue;
      }
      counts := counts[v := (counts[v] + 1) % WORD];
    }
    assert nodes[..|nodes|] == nodes;
  }

  lemma TallyNone()
    ensures Tally([], map[])
  {
  }

  /** Below 2^32 nodes nothing wraps, so the counts are the multiplicities and add up to the nodes. */
  lemma TallyIsExact(nodes: seq<string>, counts: map<string, nat>)
    requires Tally(nodes, counts) && |nodes| < WORD
    ensures forall v :: v in counts ==> counts[v] == multiset(nodes)[v]
    ensures Total(counts, counts.Keys) == |nodes|
  {
    forall v | v in counts
      ensures counts[v] == multiset(nodes)[v]
    {
      assert multiset(nodes)[v] <= |multiset(nodes)| by {
        assert multiset(nodes) == multiset(nodes)[v := 0] + multiset{}[v := multiset(nodes)[v]];
      }
    }
    TotalIsSize(counts, counts.Keys, multiset(nodes));
  }

  /** The sum of the counts of `keys`. */
  ghost function Total(counts: map<string, nat>, keys: set<string>): nat
    requires keys <= counts.Keys
  {
    if keys == {} then 0 else var k :| k in keys; counts[k] + Total(counts, keys - {k})
  }

  lemma {:induction false} TotalIsSize(counts: map<string, nat>, keys: set<string>, ms: multiset<string>)
    requires keys <= counts.Keys
    requires forall k :: k in keys ==> counts[k] == ms[k]
    requires forall k :: k in ms ==> k in keys
    ensures Total(counts, keys) == |ms|
  {
    if keys == {} {
      assert ms == multiset{};
    } else {
      var k :| k in keys && Total(counts, keys) == counts[k] + Total(counts, keys - {k});
      var rest := ms[k := 0];
      TotalIsSize(counts, keys - {k}, rest);
      assert |rest| == |ms| - ms[k];
    }
  }

  /** CanUpgradeKubelets. */
  predicate CanUpgradeKubelets(counts: map<string, nat>, target: string) {
    if |counts| > 1 then true
    else if |counts| == 0 then false
    else target !in counts
  }

  /** It answers whether some node runs another version than the target. */
  lemma KubeletsDiffer(nodes: seq<string>, counts: map<string, nat>, target: string)
    requires Tally(nodes, counts)
    ensures CanUpgradeKubelets(counts, target) <==> exists v :: v in nodes && v != target
  {
    assert forall v :: v in nodes <==> v in multiset(nodes);
    assert |counts| == |counts.Keys|;
    if v :| v in nodes && v != target {
      assert v in counts.Keys;
      if target in counts {
        assert |counts.Keys| == |counts.Keys - {v, target}| + 2;
      }
    } else {
      assert counts.Keys <= {target};
      if counts.Keys == {target} {
        assert target in counts && |counts| == 1;
      } else {
        assert counts.Keys == {};
      }
    }
  }

  /** sortedSliceFromStringIntMap: the keys come out of the map in any order. */
  method SortedSlice(counts: map<string, nat>) returns (keys: seq<string>)
    ensures StrictlyAscending(keys)
    ensures forall k :: k in keys <==> k in counts
  {
    keys := [];
    var todo := counts.Keys;
    while todo != {}
      invariant forall k :: k in counts.Keys <==> k in keys || k in todo
      invariant forall k :: k in keys ==> k !in todo
      invariant forall i, j :: 0 <= i < j < |keys| ==> keys[i] != keys[j]
      decreases todo
    {
      var k :| k in todo;
      keys, todo := keys + [k], todo - {k};
    }
    SortedKeys(keys);
    keys := Sort(keys);
  }
}
