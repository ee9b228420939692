/** Go's order on strings, sorting by it, and splitting at a separator. */
module Strings {

  // ---- Order -----------------------------------------------------------------------------------

  /** s <= t, character by character. */
  predicate Leq(s: string, t: string) {
    s == "" || (t != "" && (s[0] < t[0] || (s[0] == t[0] && Leq(s[1..], t[1..]))))
  }

  lemma LeqReflexive(s: string)
    ensures Leq(s, s)
  {
  }

  lemma {:induction false} LeqTotal(s: string, t: string)
    ensures Leq(s, t) || Leq(t, s)
  {
    if s != "" && t != "" && s[0] == t[0] {
      LeqTotal(s[1..], t[1..]);
    }
  }

  lemma {:induction false} LeqAntisymmetric(s: string, t: string)
    requires Leq(s, t) && Leq(t, s)
    ensures s == t
  {
    if s != "" {
      LeqAntisymmetric(s[1..], t[1..]);
      assert s == [s[0]] + s[1..] && t == [t[0]] + t[1..];
    }
  }

  lemma {:induction false} LeqTransitive(s: string, t: string, u: string)
    requires Leq(s, t) && Leq(t, u)
    ensures Leq(s, u)
  {
    if s != "" && s[0] == t[0] && t[0] == u[0] {
      LeqTransitive(s[1..], t[1..], u[1..]);
    }
  }

  // ---- Sorting ---------------------------------------------------------------------------------

  ghost predicate Sorted(a: seq<string>) {
    forall i, j :: 0 <= i < j < |a| ==> Leq(a[i], a[j])
  }

  function Insert(x: string, a: seq<string>): (r: seq<string>)
    ensures multiset(r) == multiset{x} + multiset(a)
  {
    if a == [] || Leq(x, a[0]) then [x] + a
    else
      assert a == [a[0]] + a[1..];
      [a[0]] + Insert(x, a[1..])
  }

  function Sort(a: seq<string>): (r: seq<string>)
    ensures multiset(r) == multiset(a)
    ensures |r| == |a|
  {
    if a == [] then [] else
      assert a == [a[0]] + a[1..];
      var r := Insert(a[0], Sort(a[1..]));
      assert |multiset(r)| == |multiset(a)|;
      r
  }

  lemma {:induction false} InsertSorted(x: string, a: seq<string>)
    requires Sorted(a)
    ensures Sorted(Insert(x, a))
  {
    if a == [] {
    } else if Leq(x, a[0]) {
      forall j | 0 <= j < |a|
        ensures Leq(x, a[j])
      {
        LeqReflexive(a[0]);
        LeqTransitive(x, a[0], a[j]);
      }
    } else {
      InsertSorted(x, a[1..]);
      LeqTotal(x, a[0]);
      var r := Insert(x, a[1..]);
      forall j | 0 <= j < |r|
        ensures Leq(a[0], r[j])
      {
        assert r[j] in multiset(r);
        assert r[j] == x || r[j] in multiset(a[1..]);
        assert r[j] == x || r[j] in a[1..];
      }
    }
  }

  lemma {:induction false} SortSorts(a: seq<string>)
    ensures Sorted(Sort(a))
  {
    if a != [] {
      SortSorts(a[1..]);
      InsertSorted(a[0], Sort(a[1..]));
    }
  }

  lemma FirstIsLeast(a: seq<string>, x: string)
    requires Sorted(a) && x in a
    ensures Leq(a[0], x)
  {
    LeqReflexive(a[0]);
  }

  lemma TailContents(a: seq<string>)
    requires a != []
    ensures multiset(a[1..]) == multiset(a) - multiset{a[0]} && a[0] in multiset(a)
  {
    assert a == [a[0]] + a[1..];
  }

  /** A sorted sequence is determined by what it contains. */
  lemma {:induction false} SortedUnique(a: seq<string>, b: seq<string>)
    requires Sorted(a) && Sorted(b) && multiset(a) == multiset(b)
    ensures a == b
  {
    hide Leq;
    assert |multiset(a)| == |a| && |multiset(b)| == |b|;
    if a != [] {
      TailContents(a);
      TailContents(b);
      FirstIsLeast(a, b[0]);
      FirstIsLeast(b, a[0]);
      LeqAntisymmetric(a[0], b[0]);
      SortedUnique(a[1..], b[1..]);
      assert a == [a[0]] + a[1..] && b == [b[0]] + b[1..];
    }
  }

  ghost predicate StrictlyAscending(a: seq<string>) {
    forall i, j :: 0 <= i < j < |a| ==> Leq(a[i], a[j]) && a[i] != a[j]
  }

  /** A duplicate-free list, sorted, ascends strictly and keeps its elements. */
  lemma SortedKeys(keys: seq<string>)
    requires forall i, j :: 0 <= i < j < |keys| ==> keys[i] != keys[j]
    ensures StrictlyAscending(Sort(keys))
    ensures forall k :: k in Sort(keys) <==> k in keys
  {
    SortSorts(keys);
    var sorted := Sort(keys);
    assert forall k :: k in sorted <==> k in multiset(sorted);
    assert forall k :: k in keys <==> k in multiset(keys);
    forall i, j | 0 <= i < j < |sorted|
      ensures sorted[i] != sorted[j]
    {
      Multiplicities(keys, sorted[i]);
      if sorted[i] == sorted[j] {
        TwoPlaces(sorted, i, j);
      }
    }
  }

  lemma {:induction false} Multiplicities(keys: seq<string>, k: string)
    requires forall i, j :: 0 <= i < j < |keys| ==> keys[i] != keys[j]
    ensures multiset(keys)[k] <= 1
  {
    if keys != [] {
      Multiplicities(keys[1..], k);
      assert keys == [keys[0]] + keys[1..];
      assert keys[0] !in keys[1..];
    }
  }

  lemma TwoPlaces(a: seq<string>, i: nat, j: nat)
    requires i < j < |a| && a[i] == a[j]
    ensures multiset(a)[a[i]] >= 2
  {
    assert a == a[..i] + [a[i]] + a[i + 1..j] + [a[j]] + a[j + 1..];
  }

  lemma AscendingMultiplicity(a: seq<string>, k: string)
    requires StrictlyAscending(a)
    ensures multiset(a)[k] == if k in a then 1 else 0
  {
    Multiplicities(a, k);
  }

  /** There is only one strictly ascending listing of a set. */
  lemma AscendingUnique(a: seq<string>, b: seq<string>)
    requires StrictlyAscending(a) && StrictlyAscending(b)
    requires forall k :: k in a <==> k in b
    ensures a == b
  {
    forall k
      ensures multiset(a)[k] == multiset(b)[k]
    {
      AscendingMultiplicity(a, k);
      AscendingMultiplicity(b, k);
    }
    assert multiset(a) == multiset(b);
    SortedUnique(a, b);
  }

  /** The strictly ascending listing of a set. */
  ghost function Ascending(keys: set<string>): (a: seq<string>)
    ensures StrictlyAscending(a) && forall k :: k in a <==> k in keys
  {
    if keys == {} then []
    else
      var k :| k in keys;
      var rest := Ascending(keys - {k});
      var all := [k] + rest;
      assert forall i, j :: 0 <= i < j < |all| ==> all[i] != all[j] by { assert k !in rest; }
      SortedKeys(all);
      Sort(all)
  }

  // ---- Splitting -------------------------------------------------------------------------------

  /** strings.Split at a one-character separator: never empty, and no part holds the separator. */
  function Split(s: string, c: char): (parts: seq<string>)
    ensures parts != [] && forall i :: 0 <= i < |parts| ==> c !in parts[i]
  {
    if s == "" then [""]
    else
      var rest := Split(s[1..], c);
      if s[0] == c then [""] + rest else [[s[0]] + rest[0]] + rest[1..]
  }

  /** strings.Join. */
  function Join(parts: seq<string>, c: char): string {
    if parts == [] then ""
    else if |parts| == 1 then parts[0]
    else parts[0] + [c] + Join(parts[1..], c)
  }

  lemma {:induction false} SplitAfter(a: string, b: string, c: char)
    requires c !in a
    ensures Split(a + [c] + b, c) == [a] + Split(b, c)
  {
    if a == "" {
      assert ("" + [c] + b)[1..] == b;
    } else {
      assert (a + [c] + b)[1..] == a[1..] + [c] + b;
      SplitAfter(a[1..], b, c);
      assert a == [a[0]] + a[1..];
    }
  }

  lemma {:induction false} SplitWhole(a: string, c: char)
    requires c !in a
    ensures Split(a, c) == [a]
  {
    if a != "" {
      SplitWhole(a[1..], c);
      assert a == [a[0]] + a[1..];
    }
  }

  /** Splitting undoes joining. */
  lemma {:induction false} SplitJoin(parts: seq<string>, c: char)
    requires parts != [] && forall i :: 0 <= i < |parts| ==> c !in parts[i]
    ensures Split(Join(parts, c), c) == parts
  {
    if |parts| == 1 {
      SplitWhole(parts[0], c);
    } else {
      SplitJoin(parts[1..], c);
      SplitAfter(parts[0], Join(parts[1..], c), c);
    }
  }

  /** Joining undoes splitting. */
  lemma {:induction false} JoinSplit(s: string, c: char)
    ensures Join(Split(s, c), c) == s
  {
    if s != "" {
      JoinSplit(s[1..], c);
      var rest := Split(s[1..], c);
      if s[0] == c {
        assert ([""] + rest)[1..] == rest;
        assert s == "" + [c] + s[1..];
      } else {
        assert ([[s[0]] + rest[0]] + rest[1..])[1..] == rest[1..];
        assert s == [s[0]] + s[1..];
      }
    }
  }
}
