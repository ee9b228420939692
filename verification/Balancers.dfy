/**
 Load-balancer reconciliation on DigitalOcean (cloud/providers/digitalocean/cluster_actuator.go and the
 load-balancer functions of cloud/providers/digitalocean/cloud.go). The provider stores what it is sent.
 */
module Balancers {
  import opened Wrappers

  datatype Rule = Rule(entryProtocol: string, entryPort: int, targetProtocol: string, targetPort: int,
                       passthrough: bool)

  datatype HealthCheck = HealthCheck(protocol: string, port: int, interval: int, timeout: int,
                                     healthy: int, unhealthy: int)

  /** A request, or what the provider stores of it. */
  datatype Spec = Spec(name: string, algorithm: string, region: string, rules: seq<Rule>, health: HealthCheck,
                       sticky: string, redirect: bool, tag: string)

  /** loadBalancerUpdated: whether a stored balancer has drifted; its name and tag are not compared. */
  predicate Drifted(lb: Spec, want: Spec) {
    || lb.algorithm != want.algorithm
    || lb.region != want.region
    || lb.rules != want.rules
    || lb.health != want.health
    || lb.sticky != want.sticky
    || lb.redirect != want.redirect
  }

  type Id = nat

  datatype Call = List | ListAgain | CreateBalancer | Wait | UpdateBalancer | StatusUpdate

  /** A write the provider carried out. */
  datatype Write = Created(id: Id) | Updated(id: Id)

  /** `Crashed` is the dereference of a missing balancer after a failed second lookup. */
  datatype Outcome = Done | Failed | Crashed

  function Named(stored: map<Id, Spec>, name: string): set<Id> {
    set i | i in stored && stored[i].name == name
  }

  ghost predicate AtMostOne(stored: map<Id, Spec>, name: string) {
    forall i, j :: i in Named(stored, name) && j in Named(stored, name) ==> i == j
  }

  /** Exactly one balancer has the name, and it is as wanted. */
  ghost predicate Settled(stored: map<Id, Spec>, want: Spec) {
    && AtMostOne(stored, want.name) && Named(stored, want.name) != {}
    && forall i :: i in Named(stored, want.name) ==> !Drifted(stored[i], want)
  }

  class Project {
    var stored: map<Id, Spec>
    var next: Id
    var writes: seq<Write>

    ghost predicate Valid()
      reads this
    {
      forall i :: i in stored ==> i < next
    }

    constructor ()
      ensures Valid() && stored == map[] && writes == []
    {
      stored, next, writes := map[], 0, [];
    }

    /** lbByName over a list that did arrive: the first match in the provider's order. */
    method ByName(name: string) returns (id: Option<Id>)
      ensures id.None? <==> Named(stored, name) == {}
      ensures id.Some? ==> id.value in Named(stored, name)
    {
      var matches := Named(stored, name);
      if matches == {} {
        return None;
      }
      var i :| i in matches;
      id := Some(i);
    }

    /** createLoadBalancer: looks the balancer up again before creating it. */
    method CreateLoadBalancer(want: Spec, faults: set<Call>) returns (outcome: Outcome, id: Option<Id>)
      requires Valid()
      modifies this
      ensures Valid()
      ensures outcome == Crashed <==> ListAgain in faults
      ensures outcome == Done <==> id.Some?
      ensures id.Some? ==> id.value in Named(stored, want.name)
      ensures if ListAgain !in faults && Named(old(stored), want.name) == {} && CreateBalancer !in faults
              then stored == old(stored)[old(next) := want] && writes == old(writes) + [Created(old(next))]
              else stored == old(stored) && writes == old(writes)
      ensures faults == {} ==> outcome == Done
    {
      if ListAgain in faults {
        return Crashed, None;
      }
      id := ByName(want.name);
      if id.None? {
        if CreateBalancer in faults {
          return Failed, None;
        }
        id := Some(next);
        stored, next, writes := stored[next := want], next + 1, writes + [Created(next)];
      }
      if Wait in faults {
        return Failed, None;
      }
      outcome := Done;
    }

    /**
     Reconcile. One success, from at most one balancer of the name in whatever state, settles it; from a
     settled state no call writes anything, whatever fails in it.
     */
    method Reconcile(want: Spec, faults: set<Call>) returns (outcome: Outcome, ghost seen: Option<Id>)
      requires Valid()
      modifies this
      ensures Valid()
      ensures Changes(want, faults, old(stored), stored, old(writes), writes, old(next), seen)
      ensures outcome == Done ==> StatusUpdate !in faults
      ensures outcome == Done && AtMostOne(old(stored), want.name) ==> Settled(stored, want)
      ensures Settled(old(stored), want) ==> stored == old(stored) && writes == old(writes)
      ensures faults == {} ==> outcome == Done
    {
      seen := None;
      if List in faults {
        return Failed, None;
      }
      var id := ByName(want.name);
      if id.None? {
        outcome, id := CreateLoadBalancer(want, faults);
        if id.None? {
          return;
        }
      }
      var lb := id.value;
      if Drifted(stored[lb], want) {
        if UpdateBalancer in faults {
          return Failed, id;
        }
        stored, writes := stored[lb := want], writes + [Updated(lb)];
      }
      seen := id;
      if AtMostOne(old(stored), want.name) {
        NeverSecond(want, faults, old(stored), stored, old(writes), writes, old(next), seen);
        assert lb in Named(stored, want.name) && !Drifted(stored[lb], want);
      }
      outcome := if StatusUpdate in faults then Failed else Done;
    }
  }

  /** Everything one Reconcile does to the provider: at most one creation or one update, never both. */
  ghost predicate Changes(want: Spec, faults: set<Call>, before: map<Id, Spec>, after: map<Id, Spec>,
                          log: seq<Write>, log': seq<Write>, made: Id, seen: Option<Id>)
  {
    || (after == before && log' == log)
    || (Named(before, want.name) == {} && after == before[made := want] && log' == log + [Created(made)])
    || (exists i :: i in Named(before, want.name) && seen == Some(i) && Drifted(before[i], want)
                    && after == before[i := want] && log' == log + [Updated(i)])
  }

  /** No Reconcile makes a second balancer of the name. */
  lemma NeverSecond(want: Spec, faults: set<Call>, before: map<Id, Spec>, after: map<Id, Spec>,
                    log: seq<Write>, log': seq<Write>, made: Id, seen: Option<Id>)
    requires Changes(want, faults, before, after, log, log', made, seen)
    requires AtMostOne(before, want.name) && made !in before
    ensures AtMostOne(after, want.name)
  {
    if after != before && Named(before, want.name) != {} {
      var i :| i in Named(before, want.name) && after == before[i := want];
      assert Named(after, want.name) == Named(before, want.name);
    } else if after != before {
      assert Named(after, want.name) == {made};
    }
  }

  /**
   Any run of Reconcile calls failing anywhere never makes a second balancer, and writes at most once in
   all: whatever it writes settles the balancer.
   */
  method Converges(p: Project, want: Spec, run: seq<set<Call>>) returns (settled: bool)
    requires p.Valid() && AtMostOne(p.stored, want.name)
    modifies p
    ensures p.Valid() && AtMostOne(p.stored, want.name)
    ensures settled ==> Settled(p.stored, want)
    ensures {} in run ==> settled
    ensures p.writes == old(p.writes) || (|p.writes| == |old(p.writes)| + 1 && Settled(p.stored, want))
  {
    settled := false;
    for k := 0 to |run|
      invariant p.Valid() && AtMostOne(p.stored, want.name)
      invariant settled ==> Settled(p.stored, want)
      invariant {} in run[..k] ==> settled
      invariant p.writes == old(p.writes) || (|p.writes| == |old(p.writes)| + 1 && Settled(p.stored, want))
    {
      ghost var before, log, made := p.stored, p.writes, p.next;
      ghost var seen;
      var outcome;
      outcome, seen := p.Reconcile(want, run[k]);
      NeverSecond(want, run[k], before, p.stored, log, p.writes, made, seen);
      WriteSettles(want, run[k], before, p.stored, log, p.writes, made, seen);
      assert run[..k + 1] == run[..k] + [run[k]];
      settled := settled || outcome == Done;
    }
    assert run[..|run|] == run;
  }

  /** A creation or an update leaves the balancer as wanted. */
  lemma WriteSettles(want: Spec, faults: set<Call>, before: map<Id, Spec>, after: map<Id, Spec>,
                     log: seq<Write>, log': seq<Write>, made: Id, seen: Option<Id>)
    requires Changes(want, faults, before, after, log, log', made, seen)
    requires AtMostOne(before, want.name) && made !in before
    ensures log' == log || (|log'| == |log| + 1 && Settled(after, want))
  {
    if log' != log && Named(before, want.name) == {} {
      assert Named(after, want.name) == {made};
    } else if log' != log {
      var i :| i in Named(before, want.name) && after == before[i := want];
      assert Named(after, want.name) == Named(before, want.name) && Named(after, want.name) == {i};
    }
  }
}
