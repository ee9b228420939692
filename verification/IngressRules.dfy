/**
 Comparison and difference of AWS ingress rules (apis/v1alpha1/aws/types.go). Comparing two rules
 sorts their CIDR blocks and group ids in place, in arrays that other rules may share.
 */
module IngressRules {
  import opened Strings

  /** What a rule means: its lists matter only up to order. */
  datatype Meaning = Meaning(description: string, protocol: string, fromPort: int, toPort: int,
                             cidrBlocks: multiset<string>, sourceGroups: multiset<string>)

  class IngressRule {
    const description: string
    const protocol: string
    const fromPort: int
    const toPort: int
    const cidrBlocks: array<string>
    const sourceGroups: array<string>

    constructor (description: string, protocol: string, fromPort: int, toPort: int,
                 cidrBlocks: array<string>, sourceGroups: array<string>)
      ensures this.description == description && this.protocol == protocol
      ensures this.fromPort == fromPort && this.toPort == toPort
      ensures this.cidrBlocks == cidrBlocks && this.sourceGroups == sourceGroups
    {
      this.description, this.protocol, this.fromPort, this.toPort := description, protocol, fromPort, toPort;
      this.cidrBlocks, this.sourceGroups := cidrBlocks, sourceGroups;
    }

    ghost function Means(): Meaning
      reads cidrBlocks, sourceGroups
    {
      Meaning(description, protocol, fromPort, toPort, multiset(cidrBlocks[..]), multiset(sourceGroups[..]))
    }

    function Arrays(): set<array<string>> {
      {cidrBlocks, sourceGroups}
    }

    /** The comparison of the CIDR blocks. */
    method SameBlocks(o: IngressRule) returns (same: bool)
      modifies cidrBlocks, o.cidrBlocks
      ensures same <==> multiset(old(cidrBlocks[..])) == multiset(old(o.cidrBlocks[..]))
      ensures forall a :: a in Arrays() + o.Arrays() ==> multiset(a[..]) == old(multiset(a[..]))
    {
      hide Sort;
      same := SameStrings(cidrBlocks, o.cidrBlocks);
    }

    /** The comparison of the source groups. */
    method SameGroups(o: IngressRule) returns (same: bool)
      modifies sourceGroups, o.sourceGroups
      ensures same <==> multiset(old(sourceGroups[..])) == multiset(old(o.sourceGroups[..]))
      ensures forall a :: a in Arrays() + o.Arrays() ==> multiset(a[..]) == old(multiset(a[..]))
    {
      hide Sort;
      same := SameStrings(sourceGroups, o.sourceGroups);
    }

    /** True exactly when the rules mean the same, and no array gains or loses an element. */
    method Equals(o: IngressRule) returns (equal: bool)
      modifies Arrays(), o.Arrays()
      ensures equal <==> old(Means()) == old(o.Means())
      ensures forall a :: a in Arrays() + o.Arrays() ==> multiset(a[..]) == old(multiset(a[..]))
    {
      var same := SameBlocks(o);
      if !same {
        return false;
      }
      assert sourceGroups in Arrays() && o.sourceGroups in o.Arrays();
      same := SameGroups(o);
      if !same {
        return false;
      }
      return description == o.description && fromPort == o.fromPort && toPort == o.toPort && protocol == o.protocol;
    }
  }

  /** sort.Strings. */
  method SortStrings(a: array<string>)
    modifies a
    ensures a[..] == Sort(old(a[..]))
  {
    var sorted := Sort(a[..]);
    for i := 0 to a.Length
      invariant a[..i] == sorted[..i]
    {
      a[i] := sorted[i];
    }
    assert a[..] == a[..a.Length] && sorted == sorted[..a.Length];
  }

  /** Length check, both sorts, then the comparison loop; the two arrays may be one. */
  method SameStrings(a: array<string>, b: array<string>) returns (same: bool)
    modifies a, b
    ensures same <==> multiset(old(a[..])) == multiset(old(b[..]))
    ensures multiset(a[..]) == multiset(old(a[..])) && multiset(b[..]) == multiset(old(b[..]))
  {
    if a.Length != b.Length {
      assert |multiset(a[..])| == a.Length && |multiset(b[..])| == b.Length;
      return false;
    }
    SortStrings(a);
    SortSorts(old(a[..]));
    ghost var once := a[..];
    SortStrings(b);
    SortSorts(if a == b then once else old(b[..]));
    if a == b {
      SortSorts(once);
    }
    for i := 0 to a.Length
      invariant a[..i] == b[..i]
    {
      if a[i] != b[i] {
        assert a[..][i] != b[..][i];
        if multiset(a[..]) == multiset(b[..]) {
          SortedUnique(a[..], b[..]);
        }
        return false;
      }
    }
    assert a[..] == a[..a.Length] && b[..] == b[..b.Length];
    same := true;
  }

  // ---- Difference ------------------------------------------------------------------------------

  /** The positions, in order, of the meanings that have no equal on the other side. */
  function Unmatched(these: seq<Meaning>, others: seq<Meaning>): (ks: seq<nat>)
    ensures forall k :: k in ks <==> 0 <= k < |these| && these[k] !in others
    ensures forall i, j :: 0 <= i < j < |ks| ==> ks[i] < ks[j]
    ensures Fits(ks, |these|)
  {
    if these == [] then []
    else
      var last := |these| - 1;
      var ks := Unmatched(these[..last], others);
      assert forall i :: 0 <= i < |ks| ==> ks[i] in ks;
      if these[last] in others then ks else ks + [last]
  }

  predicate Fits(ks: seq<nat>, n: nat) {
    forall j :: 0 <= j < |ks| ==> ks[j] < n
  }

  function At(rules: seq<IngressRule>, ks: seq<nat>): seq<IngressRule>
    requires Fits(ks, |rules|)
  {
    seq(|ks|, j requires 0 <= j < |ks| => rules[ks[j]])
  }

  function ArraysOf(rules: seq<IngressRule>): set<array<string>> {
    (set r | r in rules :: r.cidrBlocks) + (set r | r in rules :: r.sourceGroups)
  }

  ghost function Meanings(rules: seq<IngressRule>): (ms: seq<Meaning>)
    reads ArraysOf(rules)
    ensures |ms| == |rules| && forall i :: 0 <= i < |rules| ==> ms[i] == rules[i].Means()
  {
    seq(|rules|, i requires 0 <= i < |rules| reads ArraysOf(rules) => assert rules[i] in rules; rules[i].Means())
  }

  lemma NoneYet(these: seq<IngressRule>, ms: seq<Meaning>, os: seq<Meaning>)
    ensures At(these, Unmatched(ms[..0], os)) == []
  {
  }

  lemma OneMore(these: seq<IngressRule>, ms: seq<Meaning>, os: seq<Meaning>, k: nat)
    requires k < |these| == |ms|
    ensures Fits(Unmatched(ms[..k], os), |these|) && Fits(Unmatched(ms[..k + 1], os), |these|)
    ensures At(these, Unmatched(ms[..k + 1], os)) ==
            At(these, Unmatched(ms[..k], os)) + if ms[k] in os then [] else [these[k]]
  {
    assert ms[..k + 1][..k] == ms[..k];
  }

  /** Every list of every rule is kept in `pool`; rules may share lists. */
  ghost predicate StoredIn(rules: seq<IngressRule>, pool: set<array<string>>) {
    forall i :: 0 <= i < |rules| ==> rules[i].cidrBlocks in pool && rules[i].sourceGroups in pool
  }

  /** One comparison, seen from the pool. */
  method Compare(x: IngressRule, y: IngressRule, ghost pool: set<array<string>>) returns (equal: bool)
    requires x.Arrays() + y.Arrays() <= pool
    modifies pool
    ensures equal <==> old(x.Means()) == old(y.Means())
    ensures forall a :: a in pool ==> multiset(a[..]) == old(multiset(a[..]))
  {
    equal := x.Equals(y);
  }

  /** The inner loop: stops at the first equal rule. */
  method HasEqual(x: IngressRule, others: seq<IngressRule>, ghost pool: set<array<string>>) returns (found: bool)
    requires StoredIn([x], pool) && StoredIn(others, pool)
    modifies pool
    ensures found <==> old(x.Means()) in old(Meanings(others))
    ensures forall a :: a in pool ==> multiset(a[..]) == old(multiset(a[..]))
  {
    assert [x][0] == x;
    ghost var os := Meanings(others);
    found := false;
    for j := 0 to |others|
      invariant forall a :: a in pool ==> multiset(a[..]) == old(multiset(a[..]))
      invariant !found && old(x.Means()) !in os[..j]
    {
      assert others[j].Means() == os[j] && x.Means() == old(x.Means());
      found := Compare(x, others[j], pool);
      if found {
        assert os[j] in os;
        return;
      }
      assert os[..j + 1] == os[..j] + [os[j]];
    }
    assert os[..|others|] == os;
  }

  /**
   Difference. Every comparison sorts arrays that later comparisons read again; the result is all the
   same the rules of `these`, in their order, whose original meaning has no equal among `others`.
   */
  method Difference(these: seq<IngressRule>, others: seq<IngressRule>, ghost pool: set<array<string>>)
    returns (out: seq<IngressRule>)
    requires StoredIn(these, pool) && StoredIn(others, pool)
    modifies pool
    ensures out == At(these, Unmatched(old(Meanings(these)), old(Meanings(others))))
    ensures forall a :: a in pool ==> multiset(a[..]) == old(multiset(a[..]))
  {
    hide Unmatched, At;
    ghost var ms, os := Meanings(these), Meanings(others);
    out := [];
    NoneYet(these, ms, os);
    for k := 0 to |these|
      invariant forall a :: a in pool ==> multiset(a[..]) == old(multiset(a[..]))
      invariant out == At(these, Unmatched(ms[..k], os))
    {
      assert these[k].Means() == ms[k];
      assert Meanings(others) == os;
      var found := HasEqual(these[k], others, pool);
      OneMore(these, ms, os, k);
      if !found {
        out := out + [these[k]];
      }
    }
    assert ms[..|these|] == ms;
  }
}
