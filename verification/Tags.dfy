/** The algebra of AWS tags (apis/v1alpha1/aws/tags.go). */
module Tags {
  import opened Wrappers
  import opened Strings

  type Map = map<string, string>

  const OWNED: string := "owned"
  const PREFIX: string := "kubernetes.io/cluster/"
  const MANAGED: string := "sigs.k8s.io/cluster-api-provider-aws/managed"
  const NAME: string := "Name"
  const ROLE: string := "sigs.k8s.io/cluster-api-provider-aws/role"

  // ---- path.Join -------------------------------------------------------------------------------

  /** The segments path.Clean keeps of a relative path; `out` holds those already kept. */
  function CleanSegments(segments: seq<string>, out: seq<string>): seq<string>
    decreases segments
  {
    if segments == [] then out
    else if segments[0] == "" || segments[0] == "." then CleanSegments(segments[1..], out)
    else if segments[0] == ".." && out != [] && out[|out| - 1] != ".." then
      CleanSegments(segments[1..], out[..|out| - 1])
    else CleanSegments(segments[1..], out + [segments[0]])
  }

  /** path.Clean of a relative path. */
  function CleanRelative(p: string): string {
    var kept := CleanSegments(Split(p, '/'), []);
    if kept == [] then "." else Join(kept, '/')
  }

  /** path.Join(PREFIX, name): empty elements are dropped before joining. */
  function JoinedKey(name: string): string { CleanRelative(JoinedPath(name)) }

  /** ClusterKey. */
  function ClusterKey(name: string): string { PREFIX + name }

  /** A segment that path.Clean leaves alone. */
  predicate Plain(segment: string) { segment != "" && segment != "." && segment != ".." }

  ghost predicate AllPlain(segments: seq<string>) {
    forall i :: 0 <= i < |segments| ==> Plain(segments[i])
  }

  lemma {:induction false} CleanKeepsPlain(segments: seq<string>, out: seq<string>)
    requires AllPlain(segments)
    ensures CleanSegments(segments, out) == out + segments
  {
    if segments == [] {
      assert out + segments == out;
    } else {
      CleanKeepsPlain(segments[1..], out + [segments[0]]);
      assert out + [segments[0]] + segments[1..] == out + segments;
    }
  }

  /** Below at least one plain segment, every segment that is not plain makes the result shorter. */
  lemma {:induction false} CleanShortens(segments: seq<string>, out: seq<string>)
    ensures |CleanSegments(segments, out)| <= |out| + |segments|
    ensures out != [] && AllPlain(out) && !AllPlain(segments) ==> |CleanSegments(segments, out)| < |out| + |segments|
  {
    if segments != [] {
      var s, rest := segments[0], segments[1..];
      assert Plain(s) && AllPlain(rest) ==> AllPlain(segments);
      CleanShortens(rest, out);
      if out != [] {
        CleanShortens(rest, out[..|out| - 1]);
      }
      CleanShortens(rest, out + [s]);
    }
  }

  lemma PrefixSegments(rest: string)
    ensures Split(PREFIX + rest, '/') == ["kubernetes.io", "cluster"] + Split(rest, '/')
  {
    assert PREFIX + rest == "kubernetes.io" + ['/'] + ("cluster" + ['/'] + rest);
    SplitAfter("kubernetes.io", "cluster" + ['/'] + rest, '/');
    SplitAfter("cluster", rest, '/');
  }

  ghost predicate NoSlash(parts: seq<string>) {
    forall i :: 0 <= i < |parts| ==> '/' !in parts[i]
  }

  lemma {:induction false} CleanedParts(segments: seq<string>, out: seq<string>)
    requires NoSlash(segments) && NoSlash(out)
    ensures NoSlash(CleanSegments(segments, out))
  {
    if segments != [] {
      var s, rest := segments[0], segments[1..];
      if s == "" || s == "." {
        CleanedParts(rest, out);
        assert CleanSegments(segments, out) == CleanSegments(rest, out);
      } else if s == ".." && out != [] && out[|out| - 1] != ".." {
        CleanedParts(rest, out[..|out| - 1]);
        assert CleanSegments(segments, out) == CleanSegments(rest, out[..|out| - 1]);
      } else {
        CleanedParts(rest, out + [s]);
        assert CleanSegments(segments, out) == CleanSegments(rest, out + [s]);
      }
    }
  }

  /** The segments below the prefix in the path that is joined. */
  function Inner(name: string): seq<string> {
    if name == "" then [] else Split(name, '/')
  }

  function JoinedPath(name: string): string {
    if name == "" then PREFIX else PREFIX + "/" + name
  }

  /** What cleaning the joined path keeps. */
  lemma KeptSegments(name: string)
    ensures CleanSegments(Split(JoinedPath(name), '/'), []) == CleanSegments(Inner(name), ["kubernetes.io", "cluster"])
  {
    hide CleanSegments, Split;
    var base := ["kubernetes.io", "cluster"];
    if name == "" {
      assert PREFIX + "" == PREFIX;
      PrefixSegments("");
      SplitWhole("", '/');
      CleanPrefix(base, [""]);
      assert [""][1..] == [];
    } else {
      assert PREFIX + "/" + name == PREFIX + ("/" + name);
      PrefixSegments("/" + name);
      assert "/" + name == "" + ['/'] + name;
      SplitAfter("", name, '/');
      CleanPrefix(base, [""] + Split(name, '/'));
      assert ([""] + Split(name, '/'))[1..] == Split(name, '/');
    }
  }

  lemma PlainKeysAgree(name: string)
    requires AllPlain(Split(name, '/'))
    ensures JoinedKey(name) == ClusterKey(name)
  {
    var base := ["kubernetes.io", "cluster"];
    KeptSegments(name);
    EmptyIsNotPlain();
    hide CleanSegments, Split;
    CleanKeepsPlain(Split(name, '/'), base);
    PrefixSegments(name);
    JoinSplit(ClusterKey(name), '/');
  }

  lemma EmptyIsNotPlain()
    ensures !AllPlain(Split("", '/')) && Split("", '/') == [""]
  {
    assert !Plain(Split("", '/')[0]);
  }

  lemma OtherKeysDiffer(name: string)
    requires !AllPlain(Split(name, '/'))
    ensures JoinedKey(name) != ClusterKey(name)
  {
    var base := ["kubernetes.io", "cluster"];
    assert AllPlain(base);
    KeptSegments(name);
    CleanedParts(Split(JoinedPath(name), '/'), []);
    EmptyIsNotPlain();
    hide CleanSegments, Split;
    CleanShortens(Inner(name), base);
    PrefixSegments(name);
    var kept := CleanSegments(Split(JoinedPath(name), '/'), []);
    assert |kept| < 2 + |Split(name, '/')|;
    if kept == [] {
      SplitWhole(".", '/');
    } else {
      SplitJoin(kept, '/');
    }
  }

  /**
   The key HasOwned looks up is the key Build writes exactly when the cluster name is made of plain
   path segments; for a name of one segment, when it is not empty, "." or "..".
   */
  lemma KeysAgree(name: string)
    ensures JoinedKey(name) == ClusterKey(name) <==> AllPlain(Split(name, '/'))
  {
    if AllPlain(Split(name, '/')) {
      PlainKeysAgree(name);
    } else {
      OtherKeysDiffer(name);
    }
  }

  lemma CleanPrefix(base: seq<string>, tail: seq<string>)
    requires base == ["kubernetes.io", "cluster"] && tail != [] && tail[0] == ""
    ensures CleanSegments(base + tail, []) == CleanSegments(tail[1..], base)
  {
    assert (base + tail)[1..] == ["cluster"] + tail;
    assert (["cluster"] + tail)[1..] == tail;
    assert CleanSegments(base + tail, []) == CleanSegments(["cluster"] + tail, [] + ["kubernetes.io"]);
    assert CleanSegments(["cluster"] + tail, ["kubernetes.io"]) == CleanSegments(tail, ["kubernetes.io"] + ["cluster"]);
    assert [] + ["kubernetes.io"] == ["kubernetes.io"] && ["kubernetes.io"] + ["cluster"] == base;
  }

  // ---- Build, HasOwned, Difference -------------------------------------------------------------

  datatype BuildParams = BuildParams(lifecycle: string, clusterName: string, name: Option<string>,
                                     role: Option<string>, additional: Map)

  /** The value a key is to have: what was asked for a fixed key, otherwise the additional value. */
  function Value(p: BuildParams, k: string): Option<string> {
    if k == ClusterKey(p.clusterName) then Some(p.lifecycle)
    else if k == MANAGED && p.lifecycle == OWNED then Some("true")
    else if k == ROLE && p.role.Some? then p.role
    else if k == NAME && p.name.Some? then p.name
    else Get(p.additional, k)
  }

  function Get(m: Map, k: string): Option<string> {
    if k in m then Some(m[k]) else None
  }

  function Wanted(p: BuildParams): Map {
    map k | k in p.additional.Keys + {ClusterKey(p.clusterName), MANAGED, ROLE, NAME} && Value(p, k).Some? ::
      Value(p, k).value
  }

  lemma WantedValues(p: BuildParams)
    ensures forall k :: Get(Wanted(p), k) == Value(p, k)
  {
  }

  /** Build: copies the additional tags in any order, then overwrites; no key gets in another's way. */
  method Build(p: BuildParams) returns (tags: Map)
    ensures tags == Wanted(p)
    ensures forall k :: Get(tags, k) == Value(p, k)
  {
    KeysDistinct(p.clusterName);
    WantedValues(p);
    hide ClusterKey;
    tags := Copy(p.additional);
    tags := tags[ClusterKey(p.clusterName) := p.lifecycle];
    if p.lifecycle == OWNED {
      tags := tags[MANAGED := "true"];
    }
    if p.role.Some? {
      tags := tags[ROLE := p.role.value];
    }
    if p.name.Some? {
      tags := tags[NAME := p.name.value];
    }
    assert forall k :: Get(tags, k) == Value(p, k);
    SameGets(tags, Wanted(p));
  }

  lemma SameGets(m: Map, n: Map)
    requires forall k :: Get(m, k) == Get(n, k)
    ensures m == n
  {
    forall k
      ensures k in m <==> k in n
      ensures k in m ==> m[k] == n[k]
    {
      assert Get(m, k) == Get(n, k);
    }
  }

  method Copy(m: Map) returns (tags: Map)
    ensures tags == m
  {
    tags := map[];
    var todo := m.Keys;
    while todo != {}
      invariant todo <= m.Keys
      invariant tags == map k | k in m && k !in todo :: m[k]
      decreases todo
    {
      var k :| k in todo;
      tags, todo := tags[k := m[k]], todo - {k};
    }
  }

  predicate HasOwned(m: Map, cluster: string) {
    JoinedKey(cluster) in m && m[JoinedKey(cluster)] == OWNED
  }

  predicate HasManaged(m: Map) {
    MANAGED in m && m[MANAGED] == "true"
  }

  lemma KeysDistinct(name: string)
    ensures ClusterKey(name) != MANAGED && ClusterKey(name) != ROLE && ClusterKey(name) != NAME
    ensures MANAGED != ROLE && MANAGED != NAME && ROLE != NAME
  {
    assert ClusterKey(name)[0] == 'k' && MANAGED[0] == 's' && ROLE[0] == 's' && NAME[0] == 'N';
    assert |MANAGED| != |ROLE|;
  }

  /**
   Built tags are owned exactly when the lifecycle is, whatever else was asked for, for every cluster
   name of plain segments; and an owned resource is always marked as managed.
   */
  lemma BuiltIsOwned(p: BuildParams)
    ensures AllPlain(Split(p.clusterName, '/')) ==> (HasOwned(Wanted(p), p.clusterName) <==> p.lifecycle == OWNED)
    ensures p.lifecycle == OWNED ==> HasManaged(Wanted(p))
  {
    KeysAgree(p.clusterName);
    KeysDistinct(p.clusterName);
    hide JoinedKey, ClusterKey;
  }

  /** Difference: the pairs of `m` that `other` lacks. */
  function Minus(m: Map, other: Map): Map {
    map k | k in m && !(k in other && other[k] == m[k]) :: m[k]
  }

  method Difference(m: Map, other: Map) returns (res: Map)
    ensures res == Minus(m, other)
  {
    res := map[];
    var todo := m.Keys;
    while todo != {}
      invariant todo <= m.Keys
      invariant res == map k | k in m && k !in todo && !(k in other && other[k] == m[k]) :: m[k]
      decreases todo
    {
      var k :| k in todo;
      todo := todo - {k};
      if k in other && other[k] == m[k] {
        continue;
      }
      res := res[k := m[k]];
    }
  }

  lemma NothingMissing(m: Map, other: Map)
    ensures Minus(m, other) == map[] <==> forall k :: k in m ==> k in other && other[k] == m[k]
  {
    if Minus(m, other) == map[] {
      forall k | k in m
        ensures k in other && other[k] == m[k]
      {
        assert k !in Minus(m, other);
      }
    }
  }

  /**
   Ensure, on a resource whose stored tags are `current`: CreateTags merges and may fail. After a
   success nothing wanted is missing and nothing unrelated is lost; a failure changes nothing.
   */
  method Ensure(current: Map, p: BuildParams, calm: bool) returns (ok: bool, stored: Map)
    ensures calm ==> ok
    ensures ok ==> Minus(Wanted(p), stored) == map[]
    ensures ok ==> forall k :: k !in Wanted(p) ==>
              (k in stored <==> k in current) && (k in current ==> stored[k] == current[k])
    ensures !ok ==> stored == current
    ensures current == Wanted(p) ==> ok && stored == current
  {
    var want := Build(p);
    ok, stored := true, current;
    if current != want {
      var fault := *;
      if fault && !calm {
        return false, current;
      }
      stored := current + want;
    }
    NothingMissing(Wanted(p), stored);
  }
}
