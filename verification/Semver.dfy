/** Precedence of semantic versions, section 11 of Semantic Versioning 2.0.0. */
module Semver {
  import Strings

  /** A dot-separated pre-release identifier. */
  datatype Identifier = Numeric(n: nat) | Alphanumeric(s: string)

  /** A version without identifiers is a release; build metadata has no say in precedence. */
  datatype Version = Version(major: nat, minor: nat, patch: nat, pre: seq<Identifier>, build: string)

  function Sign(x: int): int {
    if x < 0 then -1 else if x > 0 then 1 else 0
  }

  function CompareStrings(s: string, t: string): int {
    if s == t then 0 else if Strings.Leq(s, t) then -1 else 1
  }

  /** Section 11.4.1 to 11.4.3. */
  function CompareIdentifiers(a: Identifier, b: Identifier): int {
    match (a, b)
    case (Numeric(m), Numeric(n)) => Sign(m - n)
    case (Numeric(_), Alphanumeric(_)) => -1
    case (Alphanumeric(_), Numeric(_)) => 1
    case (Alphanumeric(s), Alphanumeric(t)) => CompareStrings(s, t)
  }

  /** Section 11.4.4: field by field, and a longer list wins when all fields agree. */
  function CompareLists(a: seq<Identifier>, b: seq<Identifier>): int {
    if a == [] && b == [] then 0
    else if a == [] then -1
    else if b == [] then 1
    else
      var head := CompareIdentifiers(a[0], b[0]);
      if head != 0 then head else CompareLists(a[1..], b[1..])
  }

  /** Section 11.3: a pre-release comes before its release. */
  function ComparePre(a: seq<Identifier>, b: seq<Identifier>): int {
    if a == [] && b == [] then 0
    else if a == [] then 1
    else if b == [] then -1
    else CompareLists(a, b)
  }

  function Compare(v: Version, w: Version): int {
    if v.major != w.major then Sign(v.major - w.major)
    else if v.minor != w.minor then Sign(v.minor - w.minor)
    else if v.patch != w.patch then Sign(v.patch - w.patch)
    else ComparePre(v.pre, w.pre)
  }

  predicate LessThan(v: Version, w: Version) {
    Compare(v, w) == -1
  }

  predicate AtLeast(v: Version, w: Version) {
    Compare(v, w) != -1
  }

  predicate SamePrecedence(v: Version, w: Version) {
    v.major == w.major && v.minor == w.minor && v.patch == w.patch && v.pre == w.pre
  }

  lemma CompareStringsLaws(s: string, t: string, u: string)
    ensures CompareStrings(s, t) == -CompareStrings(t, s)
    ensures CompareStrings(s, t) <= 0 && CompareStrings(t, u) <= 0 ==> CompareStrings(s, u) <= 0
  {
    Strings.LeqTotal(s, t);
    if Strings.Leq(s, t) && Strings.Leq(t, s) {
      Strings.LeqAntisymmetric(s, t);
    }
    if Strings.Leq(s, t) && Strings.Leq(t, u) {
      Strings.LeqTransitive(s, t, u);
    }
  }

  lemma IdentifierLaws(a: Identifier, b: Identifier, c: Identifier)
    ensures -1 <= CompareIdentifiers(a, b) <= 1
    ensures CompareIdentifiers(a, b) == -CompareIdentifiers(b, a)
    ensures CompareIdentifiers(a, b) == 0 <==> a == b
    ensures CompareIdentifiers(a, b) <= 0 && CompareIdentifiers(b, c) <= 0 ==> CompareIdentifiers(a, c) <= 0
  {
    if a.Alphanumeric? && b.Alphanumeric? && c.Alphanumeric? {
      CompareStringsLaws(a.s, b.s, c.s);
    } else if a.Alphanumeric? && b.Alphanumeric? {
      CompareStringsLaws(a.s, b.s, "");
    }
  }

  lemma {:induction false} ListLaws(a: seq<Identifier>, b: seq<Identifier>, c: seq<Identifier>)
    ensures -1 <= CompareLists(a, b) <= 1
    ensures CompareLists(a, b) == -CompareLists(b, a)
    ensures CompareLists(a, b) == 0 <==> a == b
    ensures CompareLists(a, b) <= 0 && CompareLists(b, c) <= 0 ==> CompareLists(a, c) <= 0
  {
    hide CompareIdentifiers;
    if a != [] && b != [] {
      var x := if c == [] then a[0] else c[0];
      IdentifierLaws(a[0], b[0], x);
      IdentifierLaws(b[0], x, a[0]);
      IdentifierLaws(x, a[0], b[0]);
      IdentifierLaws(a[0], x, b[0]);
      IdentifierLaws(x, b[0], a[0]);
      ListLaws(a[1..], b[1..], if c == [] then [] else c[1..]);
      assert a == [a[0]] + a[1..] && b == [b[0]] + b[1..];
    }
  }

  lemma PreLaws(a: seq<Identifier>, b: seq<Identifier>, c: seq<Identifier>)
    ensures -1 <= ComparePre(a, b) <= 1
    ensures ComparePre(a, b) == -ComparePre(b, a)
    ensures ComparePre(a, b) == 0 <==> a == b
    ensures ComparePre(a, b) <= 0 && ComparePre(b, c) <= 0 ==> ComparePre(a, c) <= 0
  {
    ListLaws(a, b, c);
  }

  /** Precedence is a total preorder, and only versions that agree up to build metadata tie. */
  lemma TotalPreorder(v: Version, w: Version, u: Version)
    ensures Compare(v, w) == -Compare(w, v)
    ensures Compare(v, w) == 0 <==> SamePrecedence(v, w)
    ensures AtLeast(v, w) || AtLeast(w, v)
    ensures LessThan(v, w) <==> !AtLeast(v, w)
    ensures AtLeast(v, w) && AtLeast(w, u) ==> AtLeast(v, u)
  {
    hide ComparePre;
    PreLaws(v.pre, w.pre, u.pre);
    PreLaws(w.pre, v.pre, u.pre);
    PreLaws(u.pre, w.pre, v.pre);
    PreLaws(w.pre, u.pre, v.pre);
    PreLaws(v.pre, u.pre, w.pre);
  }

  function Pre(ids: seq<Identifier>): Version {
    Version(1, 0, 0, ids, "")
  }

  /** The chain that section 11.4 gives as its example. */
  lemma SpecificationChain()
    ensures LessThan(Pre([Alphanumeric("alpha")]), Pre([Alphanumeric("alpha"), Numeric(1)]))
    ensures LessThan(Pre([Alphanumeric("alpha"), Numeric(1)]), Pre([Alphanumeric("alpha"), Alphanumeric("beta")]))
    ensures LessThan(Pre([Alphanumeric("alpha"), Alphanumeric("beta")]), Pre([Alphanumeric("beta")]))
    ensures LessThan(Pre([Alphanumeric("beta")]), Pre([Alphanumeric("beta"), Numeric(2)]))
    ensures LessThan(Pre([Alphanumeric("beta"), Numeric(2)]), Pre([Alphanumeric("beta"), Numeric(11)]))
    ensures LessThan(Pre([Alphanumeric("beta"), Numeric(11)]), Pre([Alphanumeric("rc"), Numeric(1)]))
    ensures LessThan(Pre([Alphanumeric("rc"), Numeric(1)]), Pre([]))
  {
    assert Strings.Leq("alpha", "beta") && Strings.Leq("beta", "rc");
  }
}
